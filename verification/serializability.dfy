/**
 * Requests that send a version they have received behave as if each ran alone: an interleaved
 * run leaves the database in the state of a serial run of the committed calls, each applied in
 * one piece to the row current at its commit. Creations and changes have all their guards there;
 * a deletion has only that its row is live, because its draft guard was tried on an earlier row.
 */
module Serializability {
  import opened Wrappers
  import opened Text
  import opened Model
  import opened Services
  import opened Repository
  import opened History
  import opened Protocol
  import opened Safety

  // ---------- The serial machine ----------

  /** One atomic effect on the database. A Changed event knows nothing of snapshots or versions. */
  datatype Event =
    | Born(key: Key, input: CreateInput)
    | Changed(key: Key, command: Command)
    | Removed(key: Key)
    | Recorded(audit: Audit)

  /**
   * The event may happen now: for a creation or a change every guard of the call holds on the
   * current database, for a deletion the row is live.
   */
  ghost predicate Legal(db: Tables, e: Event) {
    match e
    case Born(key, input) =>
      key !in db.rows && ValidBusinessFields(input.code, input.fields)
      && !CodeTaken(db.rows, key.entity, NewRow(key.entity, input).code)
    case Changed(key, cmd) => Live(db.rows, key) && !cmd.op.Remove? && Decide(db.rows[key], cmd).Ok?
    case Removed(key) => Live(db.rows, key)
    case Recorded(audit) => audit.key in db.rows && (Versioned(audit.key.entity) ==> audit.action == DeleteAction)
  }

  ghost function SerialStep(db: Tables, e: Event): Tables
    requires Legal(db, e)
  {
    match e
    case Born(key, input) => Stored(db, key, NewRow(key.entity, input), CreateStamp(key.entity, input))
    case Changed(key, cmd) =>
      Stored(db, key, NextRow(db.rows[key], cmd), ChangeStamp(key.entity, cmd, db.rows[key].status))
    case Removed(key) => db.(rows := db.rows[key := db.rows[key].(deleted := true)])
    case Recorded(audit) => db.(audits := db.audits + [audit])
  }

  /** The state after a list of events, or nothing when one of them is illegal where it stands. */
  ghost function Serial(db: Tables, events: seq<Event>): Option<Tables> {
    if events == [] then Some(db)
    else
      match Serial(db, events[..|events| - 1])
      case None => None
      case Some(before) =>
        var e := events[|events| - 1];
        if Legal(before, e) then Some(SerialStep(before, e)) else None
  }

  // ---------- Events of a run ----------

  /** The effect a step has on the database, if any. */
  ghost function EventOf(s: System, step: Step): Option<Event> {
    match step
    case Create(rid, key, input, fault) =>
      if rid !in s.inflight && CreateRow(s.db, key, input, fault).Ok? then Some(Born(key, input)) else None
    case Commit(rid, fault) =>
      if rid in s.inflight && s.inflight[rid].Loaded?
         && CommitResult(s.db, s.inflight[rid].request, s.inflight[rid].snapshot, fault).Ok? then
        var req := s.inflight[rid].request;
        if req.command.op.Remove? then Some(Removed(req.key)) else Some(Changed(req.key, req.command))
      else None
    case WriteAudit(rid, stored) =>
      if rid in s.inflight && s.inflight[rid].AuditDue? && stored then Some(Recorded(s.inflight[rid].audit)) else None
    case _ => None
  }

  /** The effects of a run in the order in which they reached the database. */
  ghost function Log(s: System, steps: seq<Step>): seq<Event> {
    if steps == [] then [] else
      var init := steps[..|steps| - 1];
      match EventOf(Exec(s, init), steps[|steps| - 1])
      case None => Log(s, init)
      case Some(e) => Log(s, init) + [e]
  }

  /** A run and its log, one step at a time. */
  lemma LastStep(s: System, steps: seq<Step>)
    requires steps != []
    ensures var before, last := Exec(s, steps[..|steps| - 1]), steps[|steps| - 1];
      && Exec(s, steps) == Apply(before, last)
      && Log(s, steps) == Log(s, steps[..|steps| - 1])
                          + (if EventOf(before, last).Some? then [EventOf(before, last).value] else [])
  {
    hide Apply, EventOf;
  }

  // ---------- Versions in flight ----------

  /** The version a request carries is not ahead of what the request has read or will read. */
  ghost predicate NotAhead(db: Tables, p: Progress) {
    match p
    case Waiting(req) =>
      req.command.op.Remove? || (req.key in db.rows && req.expected <= db.rows[req.key].version)
    case Loaded(req, snapshot) => req.command.op.Remove? || req.expected <= snapshot.version
    case AuditDue(_) => true
  }

  ghost predicate VersionsReceived(s: System) {
    forall rid :: rid in s.inflight ==> NotAhead(s.db, s.inflight[rid])
  }

  lemma StepKeepsVersionsReceived(s: System, step: Step)
    requires Safe(s) && VersionsReceived(s) && Observed(s, step)
    ensures VersionsReceived(Apply(s, step))
  {
    hide CommitResult, CreateRow, LateAudit, RecordSafe, Chain;
    ApplyIsSafe(s, step);
    var t := Apply(s, step);
    forall rid | rid in t.inflight ensures NotAhead(t.db, t.inflight[rid]) {
      if rid in s.inflight {
        assert NotAhead(s.db, s.inflight[rid]);
      }
    }
  }

  lemma {:induction false} RunKeepsVersionsReceived(s: System, steps: seq<Step>)
    requires Init(s) && ObservedRun(s, steps)
    ensures Safe(Exec(s, steps)) && VersionsReceived(Exec(s, steps))
  {
    InitIsSafe(s);
    if steps == [] {
    } else {
      var n := |steps| - 1;
      RunPrefix(s, steps, n);
      RunKeepsVersionsReceived(s, steps[..n]);
      ApplyIsSafe(Exec(s, steps[..n]), steps[n]);
      StepKeepsVersionsReceived(Exec(s, steps[..n]), steps[n]);
    }
  }

  // ---------- Refinement ----------

  /**
   * A commit went through. Its guards were evaluated on the row it replaces if and only if the
   * version the client sent was not ahead of the snapshot: the comparison a server could make
   * before the transaction. No assumption on clients is needed here.
   */
  lemma CommitActsOnCurrentRowIff(s: System, rid: nat, fault: Fault)
    requires Safe(s) && rid in s.inflight && s.inflight[rid].Loaded?
    requires !s.inflight[rid].request.command.op.Remove?
    requires CommitResult(s.db, s.inflight[rid].request, s.inflight[rid].snapshot, fault).Ok?
    ensures var p := s.inflight[rid];
      p.snapshot == s.db.rows[p.request.key] <==> p.request.expected <= p.snapshot.version
  {
    var p := s.inflight[rid];
    CommitWrites(s.db, p.request, p.snapshot, fault);
    assert ProgressSafe(s.db, p);
  }

  /**
   * A commit of a safe state goes through exactly when its guards hold on the snapshot, the row
   * is live at the expected version and no write fails. In particular the unique index over
   * (record, version) never turns a commit down.
   */
  lemma CommitSucceedsIff(s: System, rid: nat, fault: Fault)
    requires Safe(s) && rid in s.inflight && s.inflight[rid].Loaded?
    requires !s.inflight[rid].request.command.op.Remove?
    ensures var req, snapshot := s.inflight[rid].request, s.inflight[rid].snapshot;
      CommitResult(s.db, req, snapshot, fault).Ok? <==>
        && Decide(snapshot, req.command).Ok?
        && Live(s.db.rows, req.key) && s.db.rows[req.key].version == req.expected
        && (if Versioned(req.key.entity) then fault == NoFault else fault != RowWriteFails)
  {
    var req := s.inflight[rid].request;
    assert RecordSafe(s.db, req.key);
    if Versioned(req.key.entity) && Live(s.db.rows, req.key) {
      NextVersionIsFree(s.db, req.key, s.db.rows[req.key].version + 1);
    }
  }

  /**
   * A creation goes through exactly when the required fields are there, the code is not in use,
   * deleted rows included, the key is new and no write fails; the revision index never rejects it.
   */
  lemma CreateSucceedsIff(db: Tables, key: Key, input: CreateInput, fault: Fault)
    requires DatabaseSafe(db)
    ensures CreateRow(db, key, input, fault).Ok? <==>
      && ValidBusinessFields(input.code, input.fields)
      && key !in db.rows
      && (forall other :: other in db.rows && other.entity == key.entity ==>
            db.rows[other].code != ToUpper(TrimSpace(input.code)))
      && (if Versioned(key.entity) then fault == NoFault else fault != RowWriteFails)
  {
    assert RecordSafe(db, key);
    if Versioned(key.entity) && key !in db.rows {
      NextVersionIsFree(db, key, 1);
    }
  }

  /** Each step is one legal serial event, or leaves the database alone. */
  lemma StepRefines(s: System, step: Step)
    requires Safe(s) && VersionsReceived(s)
    ensures match EventOf(s, step)
      case None => Apply(s, step).db == s.db
      case Some(e) => Legal(s.db, e) && Apply(s, step).db == SerialStep(s.db, e)
  {
    if step.Commit? && EventOf(s, step).Some? {
      var req, snapshot := s.inflight[step.rid].request, s.inflight[step.rid].snapshot;
      assert ProgressSafe(s.db, s.inflight[step.rid]);
      assert NotAhead(s.db, s.inflight[step.rid]);
      if !req.command.op.Remove? {
        CommitActsOnCurrentRowIff(s, step.rid, step.fault);
        CommitWrites(s.db, req, snapshot, step.fault);
        DecideFrame(snapshot, req.command);
      }
    } else if step.WriteAudit? && EventOf(s, step).Some? {
      assert ProgressSafe(s.db, s.inflight[step.rid]);
    }
  }

  /**
   * Serializability. Whatever requests are in flight, in whatever order their steps interleave
   * and wherever a write fails, the database is what the committed calls leave when they run
   * one after the other, and every one of them is legal where it stands in that order.
   */
  lemma {:induction false} RunIsSerializable(s: System, steps: seq<Step>)
    requires Init(s) && ObservedRun(s, steps)
    ensures Serial(s.db, Log(s, steps)) == Some(Exec(s, steps).db)
  {
    hide Apply, EventOf, Legal, SerialStep, Init, ObservedRun, Safe, VersionsReceived;
    if steps == [] {
    } else {
      var init, last := steps[..|steps| - 1], steps[|steps| - 1];
      RunPrefix(s, steps, |steps| - 1);
      RunIsSerializable(s, init);
      RunKeepsVersionsReceived(s, init);
      StepRefines(Exec(s, init), last);
      if EventOf(Exec(s, init), last).Some? {
        var log := Log(s, init);
        assert (log + [EventOf(Exec(s, init), last).value])[..|log|] == log;
      }
    }
  }

  /** No lost update: a commit of an observed version replaces exactly the row its guards have seen. */
  lemma ObservedCommitSeesCurrentRow(s: System, steps: seq<Step>, rid: nat, fault: Fault)
    requires Init(s) && ObservedRun(s, steps)
    ensures var t := Exec(s, steps);
      EventOf(t, Commit(rid, fault)).Some? && EventOf(t, Commit(rid, fault)).value.Changed? ==>
        var p := t.inflight[rid];
        && p.request.key in t.db.rows
        && p.snapshot == t.db.rows[p.request.key]
        && Decide(t.db.rows[p.request.key], p.request.command).Ok?
  {
    hide Decide, Init, ObservedRun, Exec;
    var t := Exec(s, steps);
    RunKeepsVersionsReceived(s, steps);
    if EventOf(t, Commit(rid, fault)).Some? && EventOf(t, Commit(rid, fault)).value.Changed? {
      assert NotAhead(t.db, t.inflight[rid]);
      CommitActsOnCurrentRowIff(t, rid, fault);
      CommitWrites(t.db, t.inflight[rid].request, t.inflight[rid].snapshot, fault);
    }
  }
}
