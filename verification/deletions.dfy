/**
 * Deletions of certificates and authorizations: the draft guard of a deletion is tried on a
 * snapshot, and no version is compared afterwards.
 */
module Deletions {
  import opened Wrappers
  import opened Constants
  import opened Model
  import opened Services
  import opened Repository
  import opened History
  import opened Protocol
  import opened Safety
  import opened Serializability
  import opened Guarantees
  import opened Inspections

  /**
   * A deletion removes the row its guard was tried on if and only if the version has not moved
   * since, and then what it removes is a draft.
   */
  lemma DeletionActsOnCheckedRowIff(s: System, rid: nat, fault: Fault)
    requires Safe(s) && rid in s.inflight && s.inflight[rid].Loaded?
    requires s.inflight[rid].request.command.op.Remove?
    requires CommitResult(s.db, s.inflight[rid].request, s.inflight[rid].snapshot, fault).Ok?
    ensures var p := s.inflight[rid];
      && (p.snapshot == s.db.rows[p.request.key] <==> p.snapshot.version == s.db.rows[p.request.key].version)
      && (Versioned(p.request.key.entity) && p.snapshot.version == s.db.rows[p.request.key].version ==>
            s.db.rows[p.request.key].status == Draft)
  {
    assert ProgressSafe(s.db, s.inflight[rid]);
  }

  /** Departures of a record from draft less its returns, as the committed calls tell them. */
  function Away(events: seq<Event>, key: Key): int {
    if key.entity == CertificateRecord then Moves(events, key, Valid)
    else Moves(events, key, Review) - Moves(events, key, Draft)
  }

  function Outside(row: Row): nat {
    if row.status == Draft then 0 else 1
  }

  lemma OneMove(e: Event, key: Key)
    ensures forall target :: Moves([e], key, target) == if IsMove(e, key, target) then 1 else 0
  {
    assert [] + [e] == [e];
    forall target ensures Moves([e], key, target) == if IsMove(e, key, target) then 1 else 0 {
      MovesAppend([], e, key, target);
    }
  }

  /** A call leaves draft, comes back to it, or stays on its side. */
  lemma CallCrosses(key: Key, row: Row, cmd: Command)
    requires Versioned(key.entity) && ControlMatches(key.entity, row.control) && !cmd.op.Remove? && Decide(row, cmd).Ok?
    ensures Away([Changed(key, cmd)], key) == Outside(NextRow(row, cmd)) - Outside(row)
  {
    DecideFrame(row, cmd);
    OneMove(Changed(key, cmd), key);
  }

  lemma AwayAppend(events: seq<Event>, e: Event, key: Key)
    ensures Away(events + [e], key) == Away(events, key) + Away([e], key)
  {
    OneMove(e, key);
    MovesAppend(events, e, key, Valid);
    MovesAppend(events, e, key, Review);
    MovesAppend(events, e, key, Draft);
  }

  lemma EventCrosses(db: Tables, e: Event, key: Key)
    requires Versioned(key.entity) && key in db.rows && ControlMatches(key.entity, db.rows[key].control) && Legal(db, e)
    ensures key in SerialStep(db, e).rows
    ensures Away([e], key) == Outside(SerialStep(db, e).rows[key]) - Outside(db.rows[key])
  {
    hide Decide;
    if e.Changed? && e.key == key {
      CallCrosses(key, db.rows[key], e.command);
    } else {
      OneMove(e, key);
    }
  }

  lemma StepCrosses(s: System, step: Step, key: Key)
    requires Safe(s) && VersionsReceived(s) && Versioned(key.entity) && key in s.db.rows
    ensures var t := Apply(s, step).db;
      && key in t.rows
      && Outside(t.rows[key]) - Outside(s.db.rows[key])
         == if EventOf(s, step).Some? then Away([EventOf(s, step).value], key) else 0
  {
    hide Apply, EventOf, Away, Outside, Legal, SerialStep, VersionsReceived;
    StoredRowMatches(s.db, key);
    StepRefines(s, step);
    if EventOf(s, step).Some? {
      EventCrosses(s.db, EventOf(s, step).value, key);
    }
  }

  /** From any moment on, departures less returns tell on which side of draft a record stands. */
  lemma {:induction false} AwayTellsSide(s: System, steps: seq<Step>, n: nat, key: Key)
    requires Init(s) && ObservedRun(s, steps) && Versioned(key.entity)
    requires n <= |steps| && key in Exec(s, steps[..n]).db.rows
    ensures key in Exec(s, steps).db.rows
    ensures Away(Log(s, steps), key) - Away(Log(s, steps[..n]), key)
         == Outside(RowOf(s, steps, key)) - Outside(RowOf(s, steps[..n], key))
    decreases |steps|
  {
    if n == |steps| {
      assert steps[..n] == steps;
    } else {
      var init := steps[..|steps| - 1];
      var before, last := Exec(s, init), steps[|steps| - 1];
      hide Apply, Exec, Log, EventOf, Away, Outside, Init, ObservedRun, VersionsReceived, Safe;
      RunPrefix(s, steps, |steps| - 1);
      RunKeepsVersionsReceived(s, init);
      LastStep(s, steps);
      assert init[..n] == steps[..n];
      AwayTellsSide(s, init, n, key);
      StepCrosses(before, last, key);
      if EventOf(before, last).Some? {
        AwayAppend(Log(s, init), EventOf(before, last).value, key);
      } else {
        assert Log(s, init) + [] == Log(s, init);
      }
    }
  }

  /**
   * What a deletion removes is still a draft if and only if, since it read the row, as many calls
   * have brought the record back to draft as have taken it away; for a certificate, which never
   * comes back, if and only if no publication has been committed.
   */
  lemma DeletionHitsDraftIff(s: System, steps: seq<Step>, read: nat, rid: nat, fault: Fault)
    requires Init(s) && ObservedRun(s, steps) && read <= |steps|
    requires var t := Exec(s, steps);
      && rid in t.inflight && t.inflight[rid].Loaded? && t.inflight[rid].request.command.op.Remove?
      && CommitResult(t.db, t.inflight[rid].request, t.inflight[rid].snapshot, fault).Ok?
    requires var p := Exec(s, steps).inflight[rid];
      && Versioned(p.request.key.entity)
      && p.request.key in Exec(s, steps[..read]).db.rows && RowOf(s, steps[..read], p.request.key) == p.snapshot
    ensures var key := Exec(s, steps).inflight[rid].request.key;
      && key in Exec(s, steps).db.rows
      && (RowOf(s, steps, key).status == Draft <==> Away(Log(s, steps), key) == Away(Log(s, steps[..read]), key))
  {
    hide Exec, Init, ObservedRun, Away;
    var p := Exec(s, steps).inflight[rid];
    AwayTellsSide(s, steps, read, p.request.key);
    RunKeepsVersionsReceived(s, steps);
    assert ProgressSafe(Exec(s, steps).db, p);
  }

  // ---------- Where the guard held ----------

  lemma LoadedByStep(s: System, step: Step, rid: nat)
    requires rid in Apply(s, step).inflight && Apply(s, step).inflight[rid].Loaded?
    ensures var p := Apply(s, step).inflight[rid];
      || (rid in s.inflight && s.inflight[rid] == p)
      || (Live(s.db.rows, p.request.key) && s.db.rows[p.request.key] == p.snapshot)
  {
    hide CommitResult, CreateRow, LateAudit;
  }

  /** What a request holds in its hands was the live row at some moment of the run. */
  lemma {:induction false} ReadMoment(s: System, steps: seq<Step>, rid: nat) returns (n: nat)
    requires Init(s) && rid in Exec(s, steps).inflight && Exec(s, steps).inflight[rid].Loaded?
    ensures var p := Exec(s, steps).inflight[rid];
      && n <= |steps| && Live(Exec(s, steps[..n]).db.rows, p.request.key)
      && RowOf(s, steps[..n], p.request.key) == p.snapshot
  {
    n := 0;
    if steps == [] {
    } else {
      var init := steps[..|steps| - 1];
      hide Apply;
      LoadedByStep(Exec(s, init), steps[|steps| - 1], rid);
      var p := Exec(s, steps).inflight[rid];
      if rid in Exec(s, init).inflight && Exec(s, init).inflight[rid] == p {
        n := ReadMoment(s, init, rid);
        assert init[..n] == steps[..n];
      } else {
        n := |init|;
      }
    }
  }

  lemma {:induction false} LogPrefix(s: System, steps: seq<Step>, n: nat)
    requires n <= |steps|
    ensures Log(s, steps[..n]) <= Log(s, steps)
    decreases |steps|
  {
    if n == |steps| {
      assert steps[..n] == steps;
    } else {
      hide EventOf, Exec;
      assert steps[..|steps| - 1][..n] == steps[..n];
      LogPrefix(s, steps[..|steps| - 1], n);
    }
  }

  lemma RemovalPassedGuard(s: System, rid: nat, fault: Fault, key: Key)
    requires EventOf(s, Commit(rid, fault)) == Some(Removed(key))
    ensures rid in s.inflight && s.inflight[rid].Loaded?
    ensures s.inflight[rid].request.key == key && !IsLocked(s.inflight[rid].snapshot)
  {
  }

  /**
   * The guard of a deletion in the serial order of a run: it held on the row of the same record
   * at an earlier point of that order, though not always at the point where the deletion stands.
   */
  lemma RemovalWasAllowedEarlier(s: System, steps: seq<Step>, rid: nat, fault: Fault, key: Key) returns (m: nat)
    requires Init(s) && ObservedRun(s, steps)
    requires EventOf(Exec(s, steps), Commit(rid, fault)) == Some(Removed(key))
    ensures m <= |Log(s, steps)|
    ensures var earlier := Serial(s.db, Log(s, steps)[..m]);
      earlier.Some? && Live(earlier.value.rows, key) && !IsLocked(earlier.value.rows[key])
  {
    RemovalPassedGuard(Exec(s, steps), rid, fault, key);
    hide Exec, Init, ObservedRun, EventOf, Log, Serial, IsLocked;
    var n := ReadMoment(s, steps, rid);
    RunPrefix(s, steps, n);
    RunIsSerializable(s, steps[..n]);
    LogPrefix(s, steps, n);
    m := |Log(s, steps[..n])|;
    assert Log(s, steps)[..m] == Log(s, steps[..n]);
  }

  // ---------- Records no deletion can reach ----------

  predicate DeletionOf(p: Progress, key: Key) {
    p.Loaded? && p.request.key == key && p.request.command.op.Remove?
  }

  /** The record is live, and no deletion that would pass its guard has read it. */
  ghost predicate OutOfReach(s: System, key: Key) {
    && Live(s.db.rows, key)
    && forall rid :: rid in s.inflight && DeletionOf(s.inflight[rid], key) ==> IsLocked(s.inflight[rid].snapshot)
  }

  lemma StepOutOfReach(s: System, step: Step, key: Key)
    requires OutOfReach(s, key) && IsLocked(s.db.rows[key])
    ensures OutOfReach(Apply(s, step), key)
  {
    hide ChangeStamp, CreateStamp, LateAudit, RevisionFor, AuditFor, DecideUpdate, DecideTransition;
  }

  lemma ReleasedIsLocked(s: System, steps: seq<Step>, key: Key)
    requires Init(s) && key in Exec(s, steps).db.rows && IsReleased(key.entity, RowOf(s, steps, key).status)
    ensures IsLocked(RowOf(s, steps, key))
  {
    hide Exec;
    InitIsSafe(s);
    ExecIsSafe(s, steps);
    StoredRowMatches(Exec(s, steps).db, key);
  }

  /**
   * A record that has been released while no deletion held a draft of it is never deleted, by
   * clients that send versions they have received.
   */
  lemma {:induction false} ReleasedRecordStaysLive(s: System, steps: seq<Step>, key: Key, from: nat)
    requires Init(s) && ObservedRun(s, steps) && from <= |steps| && OutOfReach(Exec(s, steps[..from]), key)
    requires IsReleased(key.entity, RowOf(s, steps[..from], key).status)
    ensures key in Exec(s, steps).db.rows && OutOfReach(Exec(s, steps), key)
    ensures IsReleased(key.entity, RowOf(s, steps, key).status)
    decreases |steps|
  {
    assert key in Exec(s, steps[..from]).db.rows;
    hide Apply, Init, ObservedRun, OutOfReach, IsLocked;
    if from == |steps| {
      assert steps[..from] == steps;
    } else {
      var init := steps[..|steps| - 1];
      RunPrefix(s, steps, |steps| - 1);
      assert init[..from] == steps[..from];
      ReleasedRecordStaysLive(s, init, key, from);
      ReleasedIsLocked(s, init, key);
      StepOutOfReach(Exec(s, init), steps[|steps| - 1], key);
      hide Exec, IsReleased;
      BoundedLifeAfterRelease(s, steps, key, from);
    }
  }
}
