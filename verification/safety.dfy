/**
 * What every reachable state satisfies whatever the clients send: the version chain, and the
 * two facts optimistic locking rests on. Versions only grow, and a version determines the row.
 */
module Safety {
  import opened Model
  import opened Services
  import opened Repository
  import opened History
  import opened Protocol

  /** The row as a reader saw it while it was live. */
  function Content(row: Row): Row {
    row.(deleted := false)
  }

  /** after is before, or a later version of it. */
  ghost predicate Grown(before: Row, after: Row) {
    && before.version <= after.version
    && (before.version == after.version ==> Content(before) == Content(after))
    && before.code == after.code
  }

  /** One record: rows and revisions form a chain, and audit rows of a created record run beside it. */
  ghost predicate RecordSafe(db: Tables, key: Key) {
    var revs, audits := RevisionsOf(db.revisions, key), ChangeAudits(db.audits, key);
    if key in db.rows then
      && db.rows[key].version >= 1
      && ControlMatches(key.entity, db.rows[key].control)
      && (Versioned(key.entity) ==>
            && Chain(db.rows[key], revs)
            && (BornByCreate(revs) ==>
                  && |audits| == |revs|
                  && forall i :: 0 <= i < |revs| ==>
                       audits[i].action == revs[i].action && audits[i].after == revs[i].status))
    else revs == [] && audits == []
  }

  ghost predicate DatabaseSafe(db: Tables) {
    forall key {:trigger RecordSafe(db, key)} :: RecordSafe(db, key)
  }

  /** A request in flight: its snapshot is the current row or an earlier version of it. */
  ghost predicate ProgressSafe(db: Tables, p: Progress) {
    match p
    case Waiting(_) => true
    case Loaded(req, snapshot) =>
      && req.key in db.rows && !snapshot.deleted && ControlMatches(req.key.entity, snapshot.control)
      && Grown(snapshot, db.rows[req.key])
    case AuditDue(audit) => audit.key in db.rows && (Versioned(audit.key.entity) ==> audit.action == DeleteAction)
  }

  ghost predicate Safe(s: System) {
    && DatabaseSafe(s.db)
    && (forall rid :: rid in s.inflight ==> ProgressSafe(s.db, s.inflight[rid]))
    && (forall seen :: seen in s.seen ==> seen.0 in s.db.rows && seen.1 <= s.db.rows[seen.0].version)
  }

  ghost predicate RowsGrown(before: Tables, after: Tables) {
    forall key :: key in before.rows ==> key in after.rows && Grown(before.rows[key], after.rows[key])
  }

  lemma InitIsSafe(s: System)
    requires Init(s)
    ensures Safe(s)
  {
    forall key ensures RecordSafe(s.db, key) {
      assert RevisionsOf(s.db.revisions, key)
          == if key in s.db.rows && Versioned(key.entity) then [SeedRevision(key, s.db.rows[key])] else [];
    }
  }

  /** The next version of a record is never in the unique index yet. */
  lemma NextVersionIsFree(db: Tables, key: Key, version: nat)
    requires RecordSafe(db, key) && Versioned(key.entity)
    requires version == if key in db.rows then db.rows[key].version + 1 else 1
    ensures !IndexTaken(db.revisions, key, version)
  {
    var revs := RevisionsOf(db.revisions, key);
    forall i | 0 <= i < |db.revisions| && db.revisions[i].key == key
      ensures db.revisions[i].version != version
    {
      RevisionsOfMembers(db.revisions, key);
      assert db.revisions[i] in revs;
    }
  }

  lemma ChainHasStart(row: Row, revs: seq<Revision>)
    requires Chain(row, revs)
    ensures revs != []
  {
  }

  lemma ChainStarts(item: Row, r: Revision)
    requires item.version == 1 == r.version && r.status == item.status && r.evidence == item.fields.evidence
    ensures Chain(item, [r])
  {
  }

  lemma StoredOwnIsSafe(db: Tables, key: Key, item: Row, stamp: Stamp)
    requires RecordSafe(db, key) && ControlMatches(key.entity, item.control)
    requires item.version == if key in db.rows then db.rows[key].version + 1 else 1
    requires stamp.action != DeleteAction
    ensures RecordSafe(Stored(db, key, item, stamp), key)
  {
    hide OrElse, RevisionsOf, ChangeAudits, Chain;
    if Versioned(key.entity) {
      var r, a := RevisionFor(key, item, stamp), AuditFor(key, item.status, stamp);
      RevisionsOfAppend(db.revisions, r, key);
      ChangeAuditsAppend(db.audits, a, key);
      if key in db.rows {
        ChainExtends(db.rows[key], RevisionsOf(db.revisions, key), item, r);
        ChainHasStart(db.rows[key], RevisionsOf(db.revisions, key));
      } else {
        assert RevisionsOf(db.revisions, key) + [r] == [r];
        ChainStarts(item, r);
      }
    }
  }

  lemma StoredOtherIsSafe(db: Tables, key: Key, item: Row, stamp: Stamp, other: Key)
    requires RecordSafe(db, other) && other != key
    ensures RecordSafe(Stored(db, key, item, stamp), other)
  {
    hide Chain, OrElse;
    if Versioned(key.entity) {
      RevisionsOfAppend(db.revisions, RevisionFor(key, item, stamp), other);
      ChangeAuditsAppend(db.audits, AuditFor(key, item.status, stamp), other);
    }
  }

  /** Storing the next version of a row keeps every record safe. */
  lemma StoredIsSafe(db: Tables, key: Key, item: Row, stamp: Stamp)
    requires DatabaseSafe(db) && ControlMatches(key.entity, item.control)
    requires item.version == if key in db.rows then db.rows[key].version + 1 else 1
    requires stamp.action != DeleteAction
    ensures DatabaseSafe(Stored(db, key, item, stamp))
  {
    hide RecordSafe, Stored;
    var after := Stored(db, key, item, stamp);
    assert RecordSafe(db, key);
    StoredOwnIsSafe(db, key, item, stamp);
    forall other ensures RecordSafe(after, other) {
      assert RecordSafe(db, other);
      if other != key {
        StoredOtherIsSafe(db, key, item, stamp, other);
      }
    }
  }

  /** A late audit row belongs to a record without a chain, or to a deletion. */
  lemma LateAuditIsSafe(db: Tables, a: Audit)
    requires DatabaseSafe(db) && a.key in db.rows
    requires Versioned(a.key.entity) ==> a.action == DeleteAction
    ensures DatabaseSafe(db.(audits := db.audits + [a]))
  {
    forall key ensures RecordSafe(db.(audits := db.audits + [a]), key) {
      assert RecordSafe(db, key);
      ChangeAuditsAppend(db.audits, a, key);
    }
  }

  lemma SoftDeleteIsSafe(db: Tables, key: Key)
    requires DatabaseSafe(db) && key in db.rows
    ensures DatabaseSafe(db.(rows := db.rows[key := db.rows[key].(deleted := true)]))
  {
    var after := db.(rows := db.rows[key := db.rows[key].(deleted := true)]);
    forall other ensures RecordSafe(after, other) {
      assert RecordSafe(db, other);
    }
  }

  /** The row a successful commit writes. */
  function Written(db: Tables, req: Request, item: Row): Row
    requires req.key in db.rows
  {
    item.(code := db.rows[req.key].code, version := req.expected + 1, deleted := false)
  }

  /** A commit that changes a row found it live at the expected version, and writes all its parts. */
  lemma CommitWrites(db: Tables, req: Request, snapshot: Row, fault: Fault)
    requires !req.command.op.Remove? && CommitResult(db, req, snapshot, fault).Ok?
    ensures Live(db.rows, req.key) && db.rows[req.key].version == req.expected
    ensures Decide(snapshot, req.command).Ok?
    ensures CommitResult(db, req, snapshot, fault).value
         == Stored(db, req.key, Written(db, req, Decide(snapshot, req.command).value),
                   ChangeStamp(req.key.entity, req.command, snapshot.status))
  {
    hide Decide, ChangeStamp, RevisionFor, AuditFor;
  }

  lemma CommitIsSafe(db: Tables, req: Request, snapshot: Row, fault: Fault)
    requires DatabaseSafe(db) && ProgressSafe(db, Loaded(req, snapshot))
    requires CommitResult(db, req, snapshot, fault).Ok?
    ensures DatabaseSafe(CommitResult(db, req, snapshot, fault).value)
    ensures RowsGrown(db, CommitResult(db, req, snapshot, fault).value)
  {
    hide Chain, Decide;
    assert RecordSafe(db, req.key);
    if req.command.op.Remove? {
      SoftDeleteIsSafe(db, req.key);
    } else {
      CommitWrites(db, req, snapshot, fault);
      DecideFrame(snapshot, req.command);
      StoredIsSafe(db, req.key, Written(db, req, Decide(snapshot, req.command).value),
                   ChangeStamp(req.key.entity, req.command, snapshot.status));
    }
  }

  lemma CreateIsSafe(db: Tables, key: Key, input: CreateInput, fault: Fault)
    requires DatabaseSafe(db) && CreateRow(db, key, input, fault).Ok?
    ensures DatabaseSafe(CreateRow(db, key, input, fault).value)
    ensures RowsGrown(db, CreateRow(db, key, input, fault).value)
    ensures key in CreateRow(db, key, input, fault).value.rows
  {
    assert RecordSafe(db, key);
    StoredIsSafe(db, key, NewRow(key.entity, input), CreateStamp(key.entity, input));
  }

  /** When the tables grow, requests in flight and seen versions stay safe. */
  lemma GrowthKeepsProgress(before: Tables, after: Tables, p: Progress)
    requires RowsGrown(before, after) && ProgressSafe(before, p)
    ensures ProgressSafe(after, p)
  {
  }

  lemma StoredRowMatches(db: Tables, key: Key)
    requires DatabaseSafe(db) && key in db.rows
    ensures ControlMatches(key.entity, db.rows[key].control)
  {
    assert RecordSafe(db, key);
  }

  lemma LateAuditKind(req: Request, snapshot: Row)
    ensures LateAudit(req, snapshot).key == req.key
    ensures AuditedLater(req) && Versioned(req.key.entity) ==> LateAudit(req, snapshot).action == DeleteAction
    ensures req.command.op.Remove? <==> LateAudit(req, snapshot).action == DeleteAction
  {
  }

  lemma ApplyIsSafe(s: System, step: Step)
    requires Safe(s)
    ensures Safe(Apply(s, step))
    ensures RowsGrown(s.db, Apply(s, step).db)
  {
    hide RecordSafe, CommitResult, CreateRow, LateAudit;
    var t := Apply(s, step);
    match step {
      case Create(rid, key, input, fault) =>
        if rid !in s.inflight && CreateRow(s.db, key, input, fault).Ok? {
          CreateIsSafe(s.db, key, input, fault);
        }
      case Commit(rid, fault) =>
        if rid in s.inflight && s.inflight[rid].Loaded? {
          var req, snapshot := s.inflight[rid].request, s.inflight[rid].snapshot;
          LateAuditKind(req, snapshot);
          if CommitResult(s.db, req, snapshot, fault).Ok? {
            CommitIsSafe(s.db, req, snapshot, fault);
          }
        }
      case WriteAudit(rid, stored) =>
        if rid in s.inflight && s.inflight[rid].AuditDue? {
          LateAuditIsSafe(s.db, s.inflight[rid].audit);
        }
      case Read(rid) =>
        if rid in s.inflight && s.inflight[rid].Waiting? {
          if Live(s.db.rows, s.inflight[rid].request.key) {
            StoredRowMatches(s.db, s.inflight[rid].request.key);
          }
        }
      case _ =>
    }
    assert RowsGrown(s.db, t.db);
    forall rid | rid in t.inflight ensures ProgressSafe(t.db, t.inflight[rid]) {
      if rid in s.inflight && s.inflight[rid] == t.inflight[rid] {
        GrowthKeepsProgress(s.db, t.db, t.inflight[rid]);
      }
    }
  }

  lemma {:induction false} ExecIsSafe(s: System, steps: seq<Step>)
    requires Safe(s)
    ensures Safe(Exec(s, steps))
  {
    if steps == [] {
    } else {
      ExecIsSafe(s, steps[..|steps| - 1]);
      ApplyIsSafe(Exec(s, steps[..|steps| - 1]), steps[|steps| - 1]);
    }
  }

  lemma GrownIsTransitive(a: Row, b: Row, c: Row)
    requires Grown(a, b) && Grown(b, c)
    ensures Grown(a, c)
  {
  }

  /** Along a schedule rows are never lost, and each one only grows. */
  lemma {:induction false} ExecGrowsRows(s: System, steps: seq<Step>, n: nat)
    requires Safe(s) && n <= |steps|
    ensures RowsGrown(Exec(s, steps[..n]).db, Exec(s, steps).db)
    decreases |steps|
  {
    if n == |steps| {
      assert steps[..n] == steps;
    } else {
      var init := steps[..|steps| - 1];
      assert init[..n] == steps[..n];
      ExecGrowsRows(s, init, n);
      ExecIsSafe(s, init);
      ApplyIsSafe(Exec(s, init), steps[|steps| - 1]);
      var first, middle, last := Exec(s, steps[..n]).db.rows, Exec(s, init).db.rows, Exec(s, steps).db.rows;
      forall key | key in first ensures key in last && Grown(first[key], last[key]) {
        GrownIsTransitive(first[key], middle[key], last[key]);
      }
    }
  }

  lemma StepKeepsDeleted(s: System, step: Step, key: Key)
    requires key in s.db.rows && s.db.rows[key].deleted
    ensures key in Apply(s, step).db.rows && Apply(s, step).db.rows[key] == s.db.rows[key]
  {
    hide RevisionFor, AuditFor, LateAudit, Decide;
  }

  /** Deletion is final: along every schedule a deleted row stays as it was deleted, to the last column. */
  lemma {:induction false} DeletedRowStays(s: System, steps: seq<Step>, n: nat, key: Key)
    requires n <= |steps| && key in Exec(s, steps[..n]).db.rows && Exec(s, steps[..n]).db.rows[key].deleted
    ensures key in Exec(s, steps).db.rows && Exec(s, steps).db.rows[key] == Exec(s, steps[..n]).db.rows[key]
    decreases |steps|
  {
    if n == |steps| {
      assert steps[..n] == steps;
    } else {
      var init := steps[..|steps| - 1];
      assert init[..n] == steps[..n];
      DeletedRowStays(s, init, n, key);
      StepKeepsDeleted(Exec(s, init), steps[|steps| - 1], key);
    }
  }

  lemma StepAppends(s: System, step: Step)
    ensures s.db.revisions <= Apply(s, step).db.revisions && s.db.audits <= Apply(s, step).db.audits
  {
    hide RevisionFor, AuditFor, LateAudit, Decide;
  }

  /** Histories are append-only: no step of any schedule changes or drops a revision or an audit row. */
  lemma {:induction false} HistoryOnlyGrows(s: System, steps: seq<Step>, n: nat)
    requires n <= |steps|
    ensures Exec(s, steps[..n]).db.revisions <= Exec(s, steps).db.revisions
    ensures Exec(s, steps[..n]).db.audits <= Exec(s, steps).db.audits
    decreases |steps|
  {
    if n == |steps| {
      assert steps[..n] == steps;
    } else {
      var init := steps[..|steps| - 1];
      assert init[..n] == steps[..n];
      HistoryOnlyGrows(s, init, n);
      StepAppends(Exec(s, init), steps[|steps| - 1]);
    }
  }
}
