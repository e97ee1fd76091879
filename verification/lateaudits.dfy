/**
 * Parts and inspection tasks write the audit row of a change after the change has been
 * committed, in a separate step that may fail or never come.
 */
module LateAudits {
  import opened Wrappers
  import opened Constants
  import opened Model
  import opened Services
  import opened Contracts
  import opened Repository
  import opened Protocol
  import opened Safety
  import opened Serializability
  import opened Effects

  /** The audit row that describes an event truly, from the row before and after it. */
  ghost function TrueAudit(db: Tables, e: Event): Option<Audit>
    requires Legal(db, e)
  {
    match e
    case Born(key, input) =>
      Some(LateRow(key, input.actor, input.requestId, CreateAction,
                   Other(""), SerialStep(db, e).rows[key].status, BirthDetail(key.entity)))
    case Changed(key, cmd) =>
      Some(LateRow(key, cmd.actor, cmd.requestId, ActionTold(cmd.op),
                   db.rows[key].status, SerialStep(db, e).rows[key].status, ChangeDetail(key.entity, cmd.op)))
    case _ => None
  }

  ghost predicate Commits(s: System, step: Step, a: Audit) {
    match EventOf(s, step)
    case Some(e) => Legal(s.db, e) && TrueAudit(s.db, e) == Some(a)
    case None => false
  }

  predicate IsDue(s: System, rid: nat, a: Audit) {
    rid in s.inflight && s.inflight[rid] == AuditDue(a)
  }

  /** How many committed creations and changes have `a` as their true audit row. */
  ghost function Committed(s: System, steps: seq<Step>, a: Audit): nat {
    if steps == [] then 0 else
      var before := Exec(s, steps[..|steps| - 1]);
      Committed(s, steps[..|steps| - 1], a) + (if Commits(before, steps[|steps| - 1], a) then 1 else 0)
  }

  predicate Loses(s: System, step: Step, a: Audit) {
    match step
    case WriteAudit(rid, stored) => !stored && IsDue(s, rid, a)
    case Abort(rid) => IsDue(s, rid, a)
    case _ => false
  }

  /** How often `a` was due and was lost to a failed write or a stopped request. */
  ghost function Lost(s: System, steps: seq<Step>, a: Audit): nat {
    if steps == [] then 0 else
      var before := Exec(s, steps[..|steps| - 1]);
      Lost(s, steps[..|steps| - 1], a) + (if Loses(before, steps[|steps| - 1], a) then 1 else 0)
  }

  /** The requests that have committed and are about to write `a`. */
  function Pending(s: System, a: Audit): set<nat> {
    set rid | rid in s.inflight && s.inflight[rid] == AuditDue(a)
  }

  lemma CardinalityOfOne(all: set<nat>, rid: nat)
    ensures |all| == |all - {rid}| + (if rid in all then 1 else 0)
  {
    if rid in all {
      assert all == (all - {rid}) + {rid};
    } else {
      assert all == all - {rid};
    }
  }

  lemma PendingMoves(s: System, t: System, rid: nat, a: Audit)
    requires s.inflight - {rid} == t.inflight - {rid}
    ensures |Pending(t, a)| + (if IsDue(s, rid, a) then 1 else 0)
         == |Pending(s, a)| + (if IsDue(t, rid, a) then 1 else 0)
  {
    forall r ensures r in Pending(s, a) - {rid} <==> r in Pending(t, a) - {rid} {
      assert r in s.inflight - {rid} <==> r in t.inflight - {rid};
      if r in s.inflight - {rid} {
        assert (s.inflight - {rid})[r] == (t.inflight - {rid})[r];
      }
    }
    assert Pending(s, a) - {rid} == Pending(t, a) - {rid};
    CardinalityOfOne(Pending(s, a), rid);
    CardinalityOfOne(Pending(t, a), rid);
  }

  /** A step touches no request but its own. */
  lemma ApplyKeepsOthers(s: System, step: Step)
    requires !step.Respond?
    ensures s.inflight - {step.rid} == Apply(s, step).inflight - {step.rid}
  {
  }

  /** On the current row the late audit row of a change is the true one. */
  lemma LateAuditIsTrue(db: Tables, req: Request, snapshot: Row)
    requires req.key in db.rows && db.rows[req.key] == snapshot && !req.command.op.Remove?
    requires Legal(db, Changed(req.key, req.command))
    ensures TrueAudit(db, Changed(req.key, req.command)) == Some(LateAudit(req, snapshot))
  {
    hide Decide, ChangeStamp;
    DecideFrame(snapshot, req.command);
    ChangeStampTells(req.key.entity, req.command, snapshot.status);
    LateAuditRowsTell(req.key, LateAudit(req, snapshot).after,
                      ChangeStamp(req.key.entity, req.command, snapshot.status));
  }

  /** A commit to a part or a task puts exactly its true audit row on the list of those due. */
  lemma CommitMakesDue(s: System, step: Step, a: Audit)
    requires Safe(s) && VersionsReceived(s) && !Versioned(a.key.entity) && a.action != DeleteAction
    requires step.Commit? || step.Create?
    ensures !IsDue(s, step.rid, a) ==> (IsDue(Apply(s, step), step.rid, a) <==> Commits(s, step, a))
    ensures IsDue(s, step.rid, a) ==> Apply(s, step) == s && !Commits(s, step, a)
    ensures multiset(Apply(s, step).db.audits)[a] == multiset(s.db.audits)[a]
  {
    hide Decide, CommitResult, CreateRow, ChangeStamp, LateAudit;
    if step.Commit? && step.rid in s.inflight && s.inflight[step.rid].Loaded? {
      LateAuditKind(s.inflight[step.rid].request, s.inflight[step.rid].snapshot);
    }
    if EventOf(s, step).Some? {
      StepRefines(s, step);
      if step.Commit? {
        var req, snapshot := s.inflight[step.rid].request, s.inflight[step.rid].snapshot;
        if !req.command.op.Remove? {
          CommitActsOnCurrentRowIff(s, step.rid, step.fault);
          assert NotAhead(s.db, s.inflight[step.rid]);
          CommitWrites(s.db, req, snapshot, step.fault);
          LateAuditIsTrue(s.db, req, snapshot);
        }
      }
    }
  }

  /** One step keeps the accounts: written, pending and lost on one side, committed on the other. */
  lemma StepConserves(s: System, step: Step, a: Audit)
    requires Safe(s) && VersionsReceived(s) && !Versioned(a.key.entity) && a.action != DeleteAction
    ensures multiset(Apply(s, step).db.audits)[a] + |Pending(Apply(s, step), a)| + (if Loses(s, step, a) then 1 else 0)
         == multiset(s.db.audits)[a] + |Pending(s, a)| + (if Commits(s, step, a) then 1 else 0)
  {
    if !step.Respond? {
      ApplyKeepsOthers(s, step);
      PendingMoves(s, Apply(s, step), step.rid, a);
    }
    if step.Commit? || step.Create? {
      CommitMakesDue(s, step, a);
    } else if step.WriteAudit? && EventOf(s, step).Some? {
      StepRefines(s, step);
    }
  }

  /**
   * Conservation, for every audit row of a part or an inspection task other than a deletion:
   * written, pending and lost together are exactly the commits it describes. So the written
   * rows map one to one into committed changes with the same before and after states.
   */
  lemma {:induction false} LateAuditsConserved(s: System, steps: seq<Step>, a: Audit)
    requires Init(s) && ObservedRun(s, steps) && !Versioned(a.key.entity) && a.action != DeleteAction
    ensures multiset(Exec(s, steps).db.audits)[a] + |Pending(Exec(s, steps), a)| + Lost(s, steps, a)
         == Committed(s, steps, a)
  {
    if steps == [] {
      assert Pending(s, a) == {};
    } else {
      var n := |steps| - 1;
      RunPrefix(s, steps, n);
      LateAuditsConserved(s, steps[..n], a);
      RunKeepsVersionsReceived(s, steps[..n]);
      StepConserves(Exec(s, steps[..n]), steps[n], a);
    }
  }

  // ---------- Deletions ----------

  predicate IsDeletion(a: Audit, key: Key) {
    a.key == key && a.action == DeleteAction
  }

  function Deletions(log: seq<Audit>, key: Key): seq<Audit> {
    if log == [] then []
    else
      var last, rest := log[|log| - 1], Deletions(log[..|log| - 1], key);
      if IsDeletion(last, key) then rest + [last] else rest
  }

  predicate DeletionDue(s: System, rid: nat, key: Key) {
    rid in s.inflight && s.inflight[rid].AuditDue? && IsDeletion(s.inflight[rid].audit, key)
  }

  function DueDeletions(s: System, key: Key): set<nat> {
    set rid | rid in s.inflight && DeletionDue(s, rid, key)
  }

  predicate TellsDeletion(a: Audit) {
    && a.action == DeleteAction && a.after == Other("deleted") && a.detail == ChangeDetail(a.key.entity, Remove)
    && (a.key.entity in {CertificateRecord, ReleaseAuthorization} ==> a.before == Draft)
    && a.actor != "" && a.requestId != ""
  }

  /** A record has at most one deletion, written or due, and only if it is deleted. */
  ghost predicate DeletedOnce(s: System, key: Key) {
    && |Deletions(s.db.audits, key)| + |DueDeletions(s, key)| <= 1
    && (|Deletions(s.db.audits, key)| + |DueDeletions(s, key)| > 0 ==> key in s.db.rows && s.db.rows[key].deleted)
    && (forall a :: a in Deletions(s.db.audits, key) ==> TellsDeletion(a))
    && (forall rid :: DeletionDue(s, rid, key) ==> TellsDeletion(s.inflight[rid].audit))
  }

  lemma DeletionsAppend(log: seq<Audit>, a: Audit, key: Key)
    ensures Deletions(log + [a], key) == Deletions(log, key) + if IsDeletion(a, key) then [a] else []
  {
    assert (log + [a])[..|log|] == log;
  }

  lemma DueDeletionsMove(s: System, t: System, rid: nat, key: Key)
    requires s.inflight - {rid} == t.inflight - {rid}
    ensures |DueDeletions(t, key)| + (if DeletionDue(s, rid, key) then 1 else 0)
         == |DueDeletions(s, key)| + (if DeletionDue(t, rid, key) then 1 else 0)
    ensures forall r :: r != rid ==> (DeletionDue(t, r, key) <==> DeletionDue(s, r, key))
    ensures forall r :: r != rid && DeletionDue(t, r, key) ==> r in s.inflight && t.inflight[r] == s.inflight[r]
  {
    forall r | r != rid
      ensures (r in s.inflight <==> r in t.inflight) && (r in s.inflight ==> s.inflight[r] == t.inflight[r])
    {
      assert r in s.inflight - {rid} <==> r in t.inflight - {rid};
      if r in s.inflight - {rid} {
        assert (s.inflight - {rid})[r] == (t.inflight - {rid})[r];
      }
    }
    assert DueDeletions(s, key) - {rid} == DueDeletions(t, key) - {rid};
    CardinalityOfOne(DueDeletions(s, key), rid);
    CardinalityOfOne(DueDeletions(t, key), rid);
  }

  lemma BirthOnDeletion(db: Tables, born: Key, input: CreateInput, key: Key)
    ensures Deletions(Stored(db, born, NewRow(born.entity, input), CreateStamp(born.entity, input)).audits, key)
         == Deletions(db.audits, key)
  {
    DeletionsAppend(db.audits, AuditFor(born, NewRow(born.entity, input).status, CreateStamp(born.entity, input)), key);
  }

  lemma RemovalIsTold(req: Request, snapshot: Row)
    requires req.command.op.Remove? && Decide(snapshot, req.command).Ok?
             && ControlMatches(req.key.entity, snapshot.control)
    ensures TellsDeletion(LateAudit(req, snapshot))
  {
  }

  /** What a step does to the rows and to its own request, as far as deletions go. */
  lemma StepOnDeletion(s: System, step: Step, key: Key)
    requires Safe(s) && !step.Respond? && !step.WriteAudit? && !DeletionDue(s, step.rid, key)
    ensures var t := Apply(s, step);
      && Deletions(t.db.audits, key) == Deletions(s.db.audits, key)
      && (key in s.db.rows && s.db.rows[key].deleted ==>
            key in t.db.rows && t.db.rows[key].deleted && !DeletionDue(t, step.rid, key))
      && (DeletionDue(t, step.rid, key) ==>
            key in t.db.rows && t.db.rows[key].deleted && TellsDeletion(t.inflight[step.rid].audit))
  {
    hide Deletions, Decide;
    if EventOf(s, step).Some? {
      if step.Create? {
        BirthOnDeletion(s.db, step.key, step.input, key);
      } else {
        var req, snapshot := s.inflight[step.rid].request, s.inflight[step.rid].snapshot;
        LateAuditKind(req, snapshot);
        if req.command.op.Remove? {
          RemovalIsTold(req, snapshot);
          assert ProgressSafe(s.db, s.inflight[step.rid]);
        } else {
          CommitWrites(s.db, req, snapshot, step.fault);
          DeletionsAppend(s.db.audits, AuditFor(req.key, Written(s.db, req, Decide(snapshot, req.command).value).status,
                                                ChangeStamp(req.key.entity, req.command, snapshot.status)), key);
        }
      }
    }
  }

  lemma StepKeepsDeletedOnce(s: System, step: Step, key: Key)
    requires Safe(s) && DeletedOnce(s, key)
    ensures DeletedOnce(Apply(s, step), key)
  {
    hide Deletions, TellsDeletion, CommitResult, CreateRow, LateAudit, Safe;
    var t := Apply(s, step);
    if !step.Respond? {
      ApplyKeepsOthers(s, step);
      DueDeletionsMove(s, t, step.rid, key);
      if step.WriteAudit? {
        if step.rid in s.inflight && s.inflight[step.rid].AuditDue? {
          DeletionsAppend(s.db.audits, s.inflight[step.rid].audit, key);
        }
      } else if !DeletionDue(s, step.rid, key) {
        StepOnDeletion(s, step, key);
      }
    } else {
      assert DueDeletions(t, key) == DueDeletions(s, key);
    }
  }

  /**
   * For every schedule and any client: a record is deleted at most once, its deletion is audited
   * at most once and only if it happened, and what was deleted had passed the draft guard.
   */
  lemma {:induction false} DeletionAuditedAtMostOnce(s: System, steps: seq<Step>, key: Key)
    requires Init(s)
    ensures DeletedOnce(Exec(s, steps), key)
  {
    if steps == [] {
      assert DueDeletions(s, key) == {};
    } else {
      hide Apply, DeletedOnce;
      InitIsSafe(s);
      ExecIsSafe(s, steps[..|steps| - 1]);
      DeletionAuditedAtMostOnce(s, steps[..|steps| - 1], key);
      StepKeepsDeletedOnce(Exec(s, steps[..|steps| - 1]), steps[|steps| - 1], key);
    }
  }

  // ---------- Deletions counted ----------

  ghost function Removals(events: seq<Event>, key: Key): nat {
    if events == [] then 0
    else Removals(events[..|events| - 1], key) + (if events[|events| - 1] == Removed(key) then 1 else 0)
  }

  predicate LosesDeletion(s: System, step: Step, key: Key) {
    match step
    case WriteAudit(rid, stored) => !stored && DeletionDue(s, rid, key)
    case Abort(rid) => DeletionDue(s, rid, key)
    case _ => false
  }

  ghost function LostDeletions(s: System, steps: seq<Step>, key: Key): nat {
    if steps == [] then 0 else
      var before := Exec(s, steps[..|steps| - 1]);
      LostDeletions(s, steps[..|steps| - 1], key) + (if LosesDeletion(before, steps[|steps| - 1], key) then 1 else 0)
  }

  /** The audit row of a deletion falls due exactly when the deletion is committed. */
  lemma RemovalMakesDue(s: System, step: Step, key: Key)
    requires !step.Respond? && !step.WriteAudit?
    ensures !DeletionDue(s, step.rid, key) ==>
      (DeletionDue(Apply(s, step), step.rid, key) <==> EventOf(s, step) == Some(Removed(key)))
    ensures DeletionDue(s, step.rid, key) ==> EventOf(s, step) == None
    ensures DeletionDue(s, step.rid, key) && !step.Abort? ==> Apply(s, step) == s
  {
    hide CommitResult, CreateRow, LateAudit;
    if step.Commit? && step.rid in s.inflight && s.inflight[step.rid].Loaded? {
      LateAuditKind(s.inflight[step.rid].request, s.inflight[step.rid].snapshot);
    }
  }

  lemma StepCountsDeletion(s: System, step: Step, key: Key)
    requires Safe(s)
    ensures |Deletions(Apply(s, step).db.audits, key)| + |DueDeletions(Apply(s, step), key)|
            + (if LosesDeletion(s, step, key) then 1 else 0)
         == |Deletions(s.db.audits, key)| + |DueDeletions(s, key)|
             + (if EventOf(s, step) == Some(Removed(key)) then 1 else 0)
  {
    hide Deletions, CommitResult, CreateRow, LateAudit, Safe;
    var t := Apply(s, step);
    if !step.Respond? {
      ApplyKeepsOthers(s, step);
      DueDeletionsMove(s, t, step.rid, key);
      if step.WriteAudit? {
        if step.rid in s.inflight && s.inflight[step.rid].AuditDue? {
          DeletionsAppend(s.db.audits, s.inflight[step.rid].audit, key);
        }
      } else {
        RemovalMakesDue(s, step, key);
        if !DeletionDue(s, step.rid, key) {
          StepOnDeletion(s, step, key);
        }
      }
    } else {
      assert DueDeletions(t, key) == DueDeletions(s, key);
    }
  }

  lemma RemovalsAppend(events: seq<Event>, e: Event, key: Key)
    ensures Removals(events + [e], key) == Removals(events, key) + (if e == Removed(key) then 1 else 0)
  {
    assert (events + [e])[..|events|] == events;
  }

  function Deleted(db: Tables, key: Key): nat {
    if key in db.rows && db.rows[key].deleted then 1 else 0
  }

  lemma StepRemoves(s: System, step: Step, key: Key)
    ensures Deleted(Apply(s, step).db, key) == Deleted(s.db, key)
         + (if EventOf(s, step) == Some(Removed(key)) then 1 else 0)
  {
    hide Decide, ChangeStamp, CreateStamp, LateAudit, RevisionFor, AuditFor;
  }

  /**
   * Conservation for deletions, for every entity, every schedule and any client: the audit rows of
   * deletions of a record that are written, pending and lost are together its committed deletions,
   * of which there is one exactly when the record is deleted.
   */
  lemma {:induction false} DeletionAuditsConserved(s: System, steps: seq<Step>, key: Key)
    requires Init(s)
    ensures |Deletions(Exec(s, steps).db.audits, key)| + |DueDeletions(Exec(s, steps), key)|
         + LostDeletions(s, steps, key)
         == Removals(Log(s, steps), key)
         == if key in Exec(s, steps).db.rows && Exec(s, steps).db.rows[key].deleted then 1 else 0
  {
    if steps == [] {
      assert DueDeletions(s, key) == {};
    } else {
      var init, last := steps[..|steps| - 1], steps[|steps| - 1];
      hide Apply, EventOf, Deletions, DueDeletions, Removals, LosesDeletion;
      InitIsSafe(s);
      ExecIsSafe(s, init);
      DeletionAuditsConserved(s, init, key);
      StepCountsDeletion(Exec(s, init), last, key);
      StepRemoves(Exec(s, init), last, key);
      if EventOf(Exec(s, init), last).Some? {
        RemovalsAppend(Log(s, init), EventOf(Exec(s, init), last).value, key);
      }
    }
  }

  // ---------- Whom a deletion names ----------

  ghost predicate Issued(steps: seq<Step>, req: Request) {
    exists i :: 0 <= i < |steps| && steps[i].Issue? && steps[i].request == req
  }

  /** Some client has asked for this deletion, and the audit row names it. */
  ghost predicate NamesDeleter(steps: seq<Step>, a: Audit) {
    exists req :: Issued(steps, req) && req.key == a.key && req.command.op.Remove?
                  && a.actor == EmptyOr(req.command.actor, "system")
                  && a.requestId == EmptyOr(req.command.requestId, "untracked")
  }

  ghost predicate Traced(s: System, steps: seq<Step>, key: Key) {
    && (forall rid :: rid in s.inflight && !s.inflight[rid].AuditDue? ==> Issued(steps, s.inflight[rid].request))
    && (forall rid :: DeletionDue(s, rid, key) ==> NamesDeleter(steps, s.inflight[rid].audit))
    && (forall a :: a in Deletions(s.db.audits, key) ==> NamesDeleter(steps, a))
  }

  lemma IssuedStays(steps: seq<Step>, step: Step)
    ensures forall req :: Issued(steps, req) ==> Issued(steps + [step], req)
    ensures forall a :: NamesDeleter(steps, a) ==> NamesDeleter(steps + [step], a)
    ensures step.Issue? ==> Issued(steps + [step], step.request)
  {
    var longer := steps + [step];
    assert longer[|steps|] == step;
    forall req | Issued(steps, req) ensures Issued(longer, req) {
      var i :| 0 <= i < |steps| && steps[i].Issue? && steps[i].request == req;
      assert longer[i] == steps[i];
    }
  }

  lemma DeleterIsNamed(steps: seq<Step>, req: Request, a: Audit)
    requires Issued(steps, req) && req.command.op.Remove? && a.key == req.key
    requires a.actor == EmptyOr(req.command.actor, "system")
    requires a.requestId == EmptyOr(req.command.requestId, "untracked")
    ensures NamesDeleter(steps, a)
  {
  }

  lemma OthersStay(s: System, t: System, rid: nat)
    requires s.inflight - {rid} == t.inflight - {rid}
    ensures forall r :: r != rid && r in t.inflight ==> r in s.inflight && s.inflight[r] == t.inflight[r]
  {
    forall r | r != rid && r in t.inflight ensures r in s.inflight && s.inflight[r] == t.inflight[r] {
      assert r in t.inflight - {rid};
      assert (s.inflight - {rid})[r] == (t.inflight - {rid})[r];
    }
  }

  /** What a step may put into the hands of its own request. */
  lemma OwnRequest(s: System, step: Step, steps: seq<Step>, key: Key)
    requires Traced(s, steps, key) && !step.Respond? && step.rid in Apply(s, step).inflight
    ensures var p := Apply(s, step).inflight[step.rid];
      && (!p.AuditDue? ==> Issued(steps, p.request) || (step.Issue? && p.request == step.request))
      && (p.AuditDue? && IsDeletion(p.audit, key) ==> NamesDeleter(steps, p.audit))
  {
    hide CommitResult, CreateRow, LateAudit, Deletions, Issued, NamesDeleter;
    if step.Commit? && step.rid in s.inflight && s.inflight[step.rid].Loaded? {
      var req, snapshot := s.inflight[step.rid].request, s.inflight[step.rid].snapshot;
      LateAuditKind(req, snapshot);
      if req.command.op.Remove? {
        LateAuditTells(req, snapshot);
        DeleterIsNamed(steps, req, LateAudit(req, snapshot));
      }
    }
  }

  lemma StepKeepsTraced(s: System, step: Step, steps: seq<Step>, key: Key)
    requires Safe(s) && Traced(s, steps, key)
    ensures Traced(Apply(s, step), steps + [step], key)
  {
    hide Deletions, CommitResult, CreateRow, LateAudit, Safe, Issued, NamesDeleter;
    IssuedStays(steps, step);
    var t := Apply(s, step);
    if !step.Respond? {
      ApplyKeepsOthers(s, step);
      DueDeletionsMove(s, t, step.rid, key);
      OthersStay(s, t, step.rid);
      if step.rid in t.inflight {
        OwnRequest(s, step, steps, key);
      }
      if step.WriteAudit? {
        if step.rid in s.inflight && s.inflight[step.rid].AuditDue? {
          DeletionsAppend(s.db.audits, s.inflight[step.rid].audit, key);
        }
      } else if !DeletionDue(s, step.rid, key) {
        StepOnDeletion(s, step, key);
      }
    }
  }

  /**
   * For every schedule and any client: each audit row of a deletion, written or due, names the
   * actor and the request id of a deletion of that record that a client has asked for.
   */
  lemma {:induction false} DeletionAuditsNameTheDeleter(s: System, steps: seq<Step>, key: Key)
    requires Init(s)
    ensures Traced(Exec(s, steps), steps, key)
  {
    if steps == [] {
    } else {
      var init, last := steps[..|steps| - 1], steps[|steps| - 1];
      hide Apply, Traced;
      InitIsSafe(s);
      ExecIsSafe(s, init);
      DeletionAuditsNameTheDeleter(s, init, key);
      StepKeepsTraced(Exec(s, init), last, init, key);
      assert init + [last] == steps;
    }
  }
}
