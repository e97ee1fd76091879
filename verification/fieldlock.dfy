/**
 * The field lock: certificates and authorizations may be edited only as drafts. The lock is tried
 * on a snapshot, so whether it protects the row depends on the version sent with the edit.
 */
module FieldLock {
  import opened Text
  import opened Constants
  import opened Model
  import opened Services
  import opened Repository
  import opened History
  import opened Protocol
  import opened Safety
  import opened Serializability
  import opened Counterexamples

  /** An edit of a certificate or an authorization that has passed its guards, the lock among them. */
  ghost predicate Editing(s: System, rid: nat) {
    && Safe(s) && rid in s.inflight && s.inflight[rid].Loaded?
    && Versioned(s.inflight[rid].request.key.entity)
    && s.inflight[rid].request.command.op.UpdateFields?
    && Decide(s.inflight[rid].snapshot, s.inflight[rid].request.command).Ok?
  }

  /** After these steps the same edit goes through onto a row that is locked. */
  ghost predicate Overwrites(s: System, rid: nat, steps: seq<Step>, fault: Fault)
    requires rid in s.inflight && s.inflight[rid].Loaded?
  {
    var t, p := Exec(s, steps), s.inflight[rid];
    && rid in t.inflight && t.inflight[rid] == p
    && CommitResult(t.db, p.request, p.snapshot, fault).Ok?
    && p.request.key in t.db.rows && IsLocked(t.db.rows[p.request.key])
  }

  lemma AcceptedEditSawDraft(s: System, rid: nat)
    requires Editing(s, rid)
    ensures var p := s.inflight[rid];
      && p.snapshot.status == Draft && ControlMatches(p.request.key.entity, p.snapshot.control)
      && ValidBusinessFields(p.snapshot.code, p.request.command.op.fields)
  {
    assert ProgressSafe(s.db, s.inflight[rid]);
  }

  /** A version that is not ahead of the snapshot is enough, whatever the others do. */
  lemma LockProtects(s: System, rid: nat, steps: seq<Step>, fault: Fault)
    requires Editing(s, rid) && s.inflight[rid].request.expected <= s.inflight[rid].snapshot.version
    ensures !Overwrites(s, rid, steps, fault)
  {
    hide Exec, Decide, Safe;
    AcceptedEditSawDraft(s, rid);
    ExecIsSafe(s, steps);
    if Overwrites(s, rid, steps, fault) {
      CommitActsOnCurrentRowIff(Exec(s, steps), rid, fault);
    }
  }

  // ---------- Ahead of the snapshot ----------

  lemma FreeId(ids: set<nat>) returns (id: nat)
    ensures id !in ids && forall other :: other in ids ==> other < id
  {
    if ids == {} {
      id := 0;
    } else {
      var last :| last in ids;
      var above := FreeId(ids - {last});
      id := if last < above then above else last + 1;
      assert forall other :: other in ids ==> other == last || other in ids - {last};
    }
  }

  lemma {:induction false} ObservedConcat(s: System, first: seq<Step>, second: seq<Step>)
    requires ObservedRun(s, first) && ObservedRun(Exec(s, first), second)
    ensures ObservedRun(s, first + second)
  {
    var steps := first + second;
    forall i | 0 <= i < |steps| ensures Observed(Exec(s, steps[..i]), steps[i]) {
      if i < |first| {
        assert steps[..i] == first[..i];
      } else {
        assert steps[..i] == first + second[..i - |first|];
        ExecConcat(s, first, second[..i - |first|]);
      }
    }
  }

  lemma AuthenticatedConcat(first: seq<Step>, second: seq<Step>)
    requires Authenticated(first) && Authenticated(second)
    ensures Authenticated(first + second)
  {
  }

  /** A client that is told the version first and then makes its call. */
  function Honest(rid: nat, req: Request): seq<Step> {
    [Respond(req.key)] + Whole(rid, req)
  }

  lemma HonestIsObserved(s: System, rid: nat, req: Request)
    requires Live(s.db.rows, req.key) && req.expected == s.db.rows[req.key].version && req.command.actor != ""
    ensures ObservedRun(s, Honest(rid, req)) && Authenticated(Honest(rid, req))
  {
    var steps := Honest(rid, req);
    assert steps == [Respond(req.key), Issue(rid, req), Read(rid), Commit(rid, NoFault)];
    assert steps[..1] == [] + [Respond(req.key)];
    ExecAppend(s, [], Respond(req.key));
    assert Exec(s, []) == s;
  }

  lemma AfterResponse(s: System, key: Key)
    ensures Exec(s, [Respond(key)]) == Apply(s, Respond(key))
    ensures Apply(s, Respond(key)).db == s.db && Apply(s, Respond(key)).inflight == s.inflight
  {
    hide ApplyCommit, ApplyCreate;
    assert Exec(s, []) == s;
    hide Exec;
    assert [Respond(key)] == [] + [Respond(key)];
    ExecAppend(s, [], Respond(key));
  }

  /** Such a call runs as one atomic call on the row. */
  lemma AfterHonest(s: System, rid: nat, req: Request)
    requires Safe(s) && rid !in s.inflight && Live(s.db.rows, req.key) && req.expected == s.db.rows[req.key].version
    requires Versioned(req.key.entity) && !req.command.op.Remove? && Decide(s.db.rows[req.key], req.command).Ok?
    ensures var t := Exec(s, Honest(rid, req));
      && Safe(t) && t.inflight == s.inflight
      && req.key in t.db.rows && t.db.rows[req.key] == NextRow(s.db.rows[req.key], req.command)
  {
    hide Decide, Apply, Exec, Safe;
    AfterResponse(s, req.key);
    var told := Exec(s, [Respond(req.key)]);
    ApplyIsSafe(s, Respond(req.key));
    ExecConcat(s, [Respond(req.key)], Whole(rid, req));
    AfterWhole(told, rid, req);
  }

  function EditAgain(fields: Fields): Command {
    Command(UpdateFields(fields), "ann", Operator, "r", 0)
  }

  /** A submission, or a publication by somebody other than the preparer. */
  function Departing(row: Row): Command {
    if row.control.Certificate? then Command(MoveTo(Valid, "ok"), row.control.preparedBy + "!", Reviewer, "r", 0)
    else Command(MoveTo(Review, "ok"), "ann", Operator, "r", 0)
  }

  lemma DraftTakesEdit(row: Row, fields: Fields)
    requires row.status == Draft && ValidBusinessFields(row.code, fields)
    ensures Decide(row, EditAgain(fields)).Ok?
    ensures var edited := NextRow(row, EditAgain(fields));
      edited.status == Draft && edited.code == row.code && edited.deleted == row.deleted
  {
    hide ValidBusinessFields, Normalized, CanTransition;
  }

  lemma DraftDeparts(entity: Entity, row: Row)
    requires Versioned(entity) && ControlMatches(entity, row.control) && row.status == Draft
    ensures Decide(row, Departing(row)).Ok?
    ensures var departed := NextRow(row, Departing(row)); IsLocked(departed) && departed.deleted == row.deleted
  {
    hide TrimSpace, DecideUpdate;
    if row.control.Certificate? {
      assert |row.control.preparedBy + "!"| != |row.control.preparedBy|;
    }
  }

  /** Honest edits by others up to the guessed version, the last of them a departure from draft. */
  lemma {:induction false} Overtaken(s: System, rid: nat, other: nat) returns (steps: seq<Step>)
    requires Editing(s, rid) && other !in s.inflight
    requires var p := s.inflight[rid];
      && Live(s.db.rows, p.request.key) && s.db.rows[p.request.key].status == Draft
      && s.db.rows[p.request.key].version < p.request.expected
    ensures ObservedRun(s, steps) && Authenticated(steps)
    ensures var t, p := Exec(s, steps), s.inflight[rid];
      && Safe(t) && t.inflight == s.inflight
      && Live(t.db.rows, p.request.key) && IsLocked(t.db.rows[p.request.key])
      && t.db.rows[p.request.key].version == p.request.expected
    decreases s.inflight[rid].request.expected - s.db.rows[s.inflight[rid].request.key].version
  {
    var p := s.inflight[rid];
    var key, fields := p.request.key, p.request.command.op.fields;
    var row := s.db.rows[key];
    AcceptedEditSawDraft(s, rid);
    assert ProgressSafe(s.db, p);
    StoredRowMatches(s.db, key);
    DraftTakesEdit(row, fields);
    DraftDeparts(key.entity, row);
    hide Safe, Decide, Exec, IsLocked, ObservedRun, Authenticated;
    if row.version + 1 == p.request.expected {
      var req := Request(key, row.version, Departing(row));
      HonestIsObserved(s, other, req);
      AfterHonest(s, other, req);
      return Honest(other, req);
    } else {
      var req := Request(key, row.version, EditAgain(fields));
      HonestIsObserved(s, other, req);
      AfterHonest(s, other, req);
      var next := Exec(s, Honest(other, req));
      var rest := Overtaken(next, rid, other);
      ObservedConcat(s, Honest(other, req), rest);
      AuthenticatedConcat(Honest(other, req), rest);
      ExecConcat(s, Honest(other, req), rest);
      return Honest(other, req) + rest;
    }
  }

  lemma LockBreaks(s: System, rid: nat) returns (steps: seq<Step>)
    requires Editing(s, rid)
    requires var p := s.inflight[rid]; p.request.key in s.db.rows && p.snapshot == s.db.rows[p.request.key]
    requires s.inflight[rid].request.expected > s.inflight[rid].snapshot.version
    ensures ObservedRun(s, steps) && Authenticated(steps) && Overwrites(s, rid, steps, NoFault)
  {
    var p := s.inflight[rid];
    AcceptedEditSawDraft(s, rid);
    assert ProgressSafe(s.db, p);
    hide Exec, ObservedRun, Authenticated, Decide, IsLocked;
    var other := FreeId(s.inflight.Keys);
    steps := Overtaken(s, rid, other);
    CommitSucceedsIff(Exec(s, steps), rid, NoFault);
  }

  /**
   * The exact condition of the field lock. An edit has just read its row and passed its guards.
   * Whatever others do from here on, it never goes through onto a locked row, if and only if the
   * version it was sent with is not ahead of what it read. If it is ahead, others who send only
   * versions they have received are enough to bring it onto a locked row.
   */
  lemma FieldLockHoldsIff(s: System, rid: nat)
    requires Editing(s, rid)
    requires var p := s.inflight[rid]; p.request.key in s.db.rows && p.snapshot == s.db.rows[p.request.key]
    ensures var p := s.inflight[rid];
      (forall steps, fault :: !Overwrites(s, rid, steps, fault)) <==> p.request.expected <= p.snapshot.version
    ensures var p := s.inflight[rid];
      (forall steps, fault :: ObservedRun(s, steps) && Authenticated(steps) ==> !Overwrites(s, rid, steps, fault))
      <==> p.request.expected <= p.snapshot.version
  {
    hide Overwrites, Exec, ObservedRun, Authenticated, Decide;
    var p := s.inflight[rid];
    if p.request.expected <= p.snapshot.version {
      forall steps, fault ensures !Overwrites(s, rid, steps, fault) {
        LockProtects(s, rid, steps, fault);
      }
    } else {
      var steps := LockBreaks(s, rid);
    }
  }
}
