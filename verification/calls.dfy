/**
 * What one service call means when other requests run beside it. The call is a fixed list of
 * steps with the steps of the others in its three gaps, and its answer is determined by them.
 */
module Calls {
  import opened Wrappers
  import opened Model
  import opened Services
  import opened Repository
  import opened Protocol
  import opened Safety
  import opened Serializability
  import opened Backend

  /** Everything a call cannot control: its identity, the other requests' steps, and what fails. */
  datatype Surroundings = Surroundings(
    rid: nat, between: seq<Step>, after: seq<Step>, last: seq<Step>,
    fault: Fault, auditStored: bool, rereadFails: bool)

  predicate Spares(steps: seq<Step>, rid: nat) {
    forall i :: 0 <= i < |steps| && !steps[i].Respond? ==> steps[i].rid != rid
  }

  predicate Separate(env: Surroundings) {
    Spares(env.between, env.rid) && Spares(env.after, env.rid) && Spares(env.last, env.rid)
  }

  /** Up to the moment before the transaction. */
  function Arrival(req: Request, env: Surroundings): seq<Step> {
    [Issue(env.rid, req), Read(env.rid)] + env.between
  }

  /** After the transaction: the others, the late audit row if one is due, and the others again. */
  function Departure(env: Surroundings): seq<Step> {
    env.after + [WriteAudit(env.rid, env.auditStored)] + env.last
  }

  function Schedule(req: Request, env: Surroundings): seq<Step> {
    Arrival(req, env) + [Commit(env.rid, env.fault)] + Departure(env)
  }

  function CreateSchedule(key: Key, input: CreateInput, env: Surroundings): seq<Step> {
    env.between + [Create(env.rid, key, input, env.fault)] + Departure(env)
  }

  /** What the guards and the transaction make of the request at its moment. */
  function Outcome(s: System, rid: nat, fault: Fault): Result<(), Error> {
    if rid in s.inflight && s.inflight[rid].Loaded? then
      match CommitResult(s.db, s.inflight[rid].request, s.inflight[rid].snapshot, fault)
      case Err(e) => Err(e)
      case Ok(_) => Ok(())
    else Err(NotFound)
  }

  /** The last read of a call. */
  function Reread(s: System, key: Key, fails: bool): Result<Row, Error> {
    if fails then Err(StorageFailure) else if Live(s.db.rows, key) then Ok(s.db.rows[key]) else Err(NotFound)
  }

  /** A missing late audit row is an error for transitions and deletions only; for edits it goes unnoticed. */
  predicate ReportsAudit(req: Request) {
    AuditedLater(req) && !req.command.op.UpdateFields?
  }

  function Answer(outcome: Result<(), Error>, reported: bool, end: System, key: Key,
                  env: Surroundings): Result<Row, Error>
  {
    match outcome
    case Err(e) => Err(e)
    case Ok(_) => if reported && !env.auditStored then Err(StorageFailure) else Reread(end, key, env.rereadFails)
  }

  /** The contract of Update and Transition: the run of the schedule, and its answer. */
  ghost predicate Served(before: System, end: System, req: Request, env: Surroundings, r: Result<Row, Error>) {
    && end == Exec(before, Schedule(req, env))
    && r == Answer(Outcome(Exec(before, Arrival(req, env)), env.rid, env.fault), ReportsAudit(req), end, req.key, env)
  }

  /** The contract of Delete, which reads nothing back. */
  ghost predicate Deleted(before: System, end: System, req: Request, env: Surroundings, r: Result<(), Error>) {
    && end == Exec(before, Schedule(req, env))
    && r == match Outcome(Exec(before, Arrival(req, env)), env.rid, env.fault)
      case Err(e) => Err(e)
      case Ok(_) => if env.auditStored then Ok(()) else Err(StorageFailure)
  }

  lemma {:induction false} SparedRequestStays(s: System, steps: seq<Step>, rid: nat)
    requires Spares(steps, rid)
    ensures rid in Exec(s, steps).inflight <==> rid in s.inflight
    ensures rid in s.inflight ==> Exec(s, steps).inflight[rid] == s.inflight[rid]
  {
    hide CommitResult, CreateRow, LateAudit;
    if steps == [] {
    } else {
      SparedRequestStays(s, steps[..|steps| - 1], rid);
    }
  }

  lemma ScheduleRuns(s: System, req: Request, env: Surroundings)
    ensures Exec(s, Schedule(req, env))
         == Exec(Apply(Exec(s, Arrival(req, env)), Commit(env.rid, env.fault)), Departure(env))
  {
    ExecAppend(s, Arrival(req, env), Commit(env.rid, env.fault));
    ExecConcat(s, Arrival(req, env) + [Commit(env.rid, env.fault)], Departure(env));
  }

  lemma CreateScheduleRuns(s: System, key: Key, input: CreateInput, env: Surroundings)
    ensures Exec(s, CreateSchedule(key, input, env))
         == Exec(Apply(Exec(s, env.between), Create(env.rid, key, input, env.fault)), Departure(env))
  {
    ExecAppend(s, env.between, Create(env.rid, key, input, env.fault));
    ExecConcat(s, env.between + [Create(env.rid, key, input, env.fault)], Departure(env));
  }

  lemma UpdateWithout(m: map<nat, Progress>, rid: nat, other: nat, p: Progress)
    requires other != rid
    ensures (m - {rid})[other := p] == m[other := p] - {rid}
  {
  }

  lemma DropWithout(s: System, rid: nat, other: nat)
    ensures Drop(Drop(s, rid), other) == Drop(Drop(s, other), rid)
  {
    assert s.inflight - {rid} - {other} == s.inflight - {other} - {rid};
  }

  lemma CommitWithout(s: System, rid: nat, other: nat, req: Request, snapshot: Row, fault: Fault)
    requires other != rid
    ensures ApplyCommit(Drop(s, rid), other, req, snapshot, fault)
         == Drop(ApplyCommit(s, other, req, snapshot, fault), rid)
  {
    DropWithout(s, rid, other);
    UpdateWithout(s.inflight, rid, other, AuditDue(LateAudit(req, snapshot)));
  }

  lemma CreateWithout(s: System, rid: nat, other: nat, key: Key, input: CreateInput, fault: Fault)
    requires other != rid
    ensures ApplyCreate(Drop(s, rid), other, key, input, fault) == Drop(ApplyCreate(s, other, key, input, fault), rid)
  {
    var audit := LateAuditFor(key, InitialStatus(key.entity), CreateStamp(key.entity, input));
    UpdateWithout(s.inflight, rid, other, AuditDue(audit));
  }

  /** A request that takes no step now could as well not be there. */
  lemma ApplyWithout(s: System, step: Step, rid: nat)
    requires !step.Respond? ==> step.rid != rid
    ensures Apply(Drop(s, rid), step) == Drop(Apply(s, step), rid)
  {
    hide ApplyCommit, ApplyCreate;
    match step {
      case Create(other, key, input, fault) => CreateWithout(s, rid, other, key, input, fault);
      case Issue(other, req) => UpdateWithout(s.inflight, rid, other, Waiting(req));
      case Read(other) =>
        DropWithout(s, rid, other);
        if other in s.inflight && s.inflight[other].Waiting? && Live(s.db.rows, s.inflight[other].request.key) {
          var req := s.inflight[other].request;
          UpdateWithout(s.inflight, rid, other, Loaded(req, s.db.rows[req.key]));
        }
      case Commit(other, fault) =>
        if other in s.inflight && s.inflight[other].Loaded? {
          CommitWithout(s, rid, other, s.inflight[other].request, s.inflight[other].snapshot, fault);
        }
      case WriteAudit(other, _) => DropWithout(s, rid, other);
      case Abort(other) => DropWithout(s, rid, other);
      case Respond(_) =>
    }
  }

  lemma {:induction false} ExecWithout(s: System, steps: seq<Step>, rid: nat)
    requires Spares(steps, rid)
    ensures Exec(Drop(s, rid), steps) == Drop(Exec(s, steps), rid)
  {
    if steps == [] {
    } else {
      ExecWithout(s, steps[..|steps| - 1], rid);
      ApplyWithout(Exec(s, steps[..|steps| - 1]), steps[|steps| - 1], rid);
    }
  }

  /** A call after its commit step has ended the request. */
  lemma DepartureOfNobody(s: System, env: Surroundings)
    requires Separate(env) && env.rid !in s.inflight
    ensures Exec(s, Departure(env)) == Exec(s, env.after + env.last)
  {
    SparedRequestStays(s, env.after, env.rid);
    ExecAppend(s, env.after, WriteAudit(env.rid, env.auditStored));
    ExecConcat(s, env.after + [WriteAudit(env.rid, env.auditStored)], env.last);
    ExecConcat(s, env.after, env.last);
  }

  lemma LoadingIsInvisible(s: System, req: Request, rid: nat)
    requires rid !in s.inflight
    ensures Drop(Exec(s, [Issue(rid, req), Read(rid)]), rid) == s
  {
    TwoSteps(s, Issue(rid, req), Read(rid));
    assert Drop(Exec(s, [Issue(rid, req), Read(rid)]), rid).inflight == s.inflight;
  }

  /** A late audit row has been stored, or has failed to be. */
  function Audited(s: System, a: Audit, stored: bool): System {
    s.(db := s.db.(audits := if stored then s.db.audits + [a] else s.db.audits))
  }

  /** A call after its commit step has left an audit row to write. */
  lemma DepartureWithAudit(s: System, a: Audit, env: Surroundings)
    requires Separate(env) && env.rid in s.inflight && s.inflight[env.rid] == AuditDue(a)
    ensures Exec(s, Departure(env)) == Exec(Audited(Exec(Drop(s, env.rid), env.after), a, env.auditStored), env.last)
  {
    SparedRequestStays(s, env.after, env.rid);
    ExecWithout(s, env.after, env.rid);
    ExecAppend(s, env.after, WriteAudit(env.rid, env.auditStored));
    ExecConcat(s, env.after + [WriteAudit(env.rid, env.auditStored)], env.last);
  }

  /**
   * What becomes of a call, said without its own steps: the guards see the row there was when it
   * came, and the transaction meets the database the others have made of it by then.
   */
  function Verdict(before: System, req: Request, env: Surroundings): Result<Tables, Error> {
    if !Live(before.db.rows, req.key) then Err(NotFound)
    else CommitResult(Exec(before, env.between).db, req, before.db.rows[req.key], env.fault)
  }

  /** Until its transaction a call has read one row and done nothing else. */
  lemma ArrivalReadsOnly(before: System, req: Request, env: Surroundings)
    requires env.rid !in before.inflight && Separate(env)
    ensures var s := Exec(before, Arrival(req, env));
      && Drop(s, env.rid) == Exec(before, env.between)
      && (env.rid in s.inflight <==> Live(before.db.rows, req.key))
      && (env.rid in s.inflight ==> s.inflight[env.rid] == Loaded(req, before.db.rows[req.key]))
  {
    hide CommitResult, CreateRow, LateAudit, Exec;
    var loaded := Exec(before, [Issue(env.rid, req), Read(env.rid)]);
    ExecConcat(before, [Issue(env.rid, req), Read(env.rid)], env.between);
    TwoSteps(before, Issue(env.rid, req), Read(env.rid));
    SparedRequestStays(loaded, env.between, env.rid);
    LoadingIsInvisible(before, req, env.rid);
    ExecWithout(loaded, env.between, env.rid);
  }

  lemma OutcomeIsVerdict(before: System, req: Request, env: Surroundings)
    requires env.rid !in before.inflight && Separate(env)
    ensures Outcome(Exec(before, Arrival(req, env)), env.rid, env.fault)
         == match Verdict(before, req, env) case Err(e) => Err(e) case Ok(_) => Ok(())
  {
    hide CommitResult, Exec;
    ArrivalReadsOnly(before, req, env);
  }

  /**
   * Failure atomicity. A call whose guards or transaction return an error, wherever in the three
   * writes it strikes, leaves no trace: the system ends as if only the others had been there.
   */
  lemma FailedCallIsInvisible(before: System, req: Request, env: Surroundings)
    requires env.rid !in before.inflight && Separate(env)
    requires Outcome(Exec(before, Arrival(req, env)), env.rid, env.fault).Err?
    ensures Exec(before, Schedule(req, env)) == Exec(before, env.between + (env.after + env.last))
  {
    hide CommitResult, LateAudit, Exec, Departure, Schedule;
    var s := Exec(before, Arrival(req, env));
    ScheduleRuns(before, req, env);
    ArrivalReadsOnly(before, req, env);
    assert Apply(s, Commit(env.rid, env.fault)) == Drop(s, env.rid) by {
      assert env.rid !in s.inflight ==> s.inflight - {env.rid} == s.inflight;
    }
    DepartureOfNobody(Drop(s, env.rid), env);
    ExecConcat(before, env.between, env.after + env.last);
  }

  /** The others' steps with one whole commit among them and, where it is due, one late audit row. */
  function OneCommit(before: System, db: Tables, late: Option<Audit>, env: Surroundings): System {
    var committed := Exec(before, env.between).(db := db);
    match late
    case None => Exec(committed, env.after + env.last)
    case Some(a) => Exec(Audited(Exec(committed, env.after), a, env.auditStored), env.last)
  }

  function LateAuditOf(before: System, req: Request): Option<Audit>
    requires Live(before.db.rows, req.key)
  {
    if AuditedLater(req) then Some(LateAudit(req, before.db.rows[req.key])) else None
  }

  /**
   * The other side. A call whose transaction goes through is its one commit: the system ends as
   * if the others had been alone and the database had taken that commit, whole, at its moment,
   * and for a late-audited call its audit row at the later one. It is the event of this request.
   */
  lemma CommittedCallIsOneCommit(before: System, req: Request, env: Surroundings)
    requires env.rid !in before.inflight && Separate(env) && Verdict(before, req, env).Ok?
    ensures Exec(before, Schedule(req, env))
         == OneCommit(before, Verdict(before, req, env).value, LateAuditOf(before, req), env)
    ensures EventOf(Exec(before, Arrival(req, env)), Commit(env.rid, env.fault))
         == Some(if req.command.op.Remove? then Removed(req.key) else Changed(req.key, req.command))
  {
    hide CommitResult, LateAudit, Exec, Departure, Schedule;
    var s := Exec(before, Arrival(req, env));
    ScheduleRuns(before, req, env);
    ArrivalReadsOnly(before, req, env);
    var t := Apply(s, Commit(env.rid, env.fault));
    if AuditedLater(req) {
      assert Drop(t, env.rid) == Drop(s, env.rid).(db := t.db) by {
        assert t.inflight - {env.rid} == s.inflight - {env.rid};
      }
      DepartureWithAudit(t, LateAudit(req, before.db.rows[req.key]), env);
    } else {
      assert t == Drop(s, env.rid).(db := t.db);
      DepartureOfNobody(t, env);
    }
  }

  /**
   * The answer of Update and Transition tells which side it was: an error of a guard or of the
   * transaction has left no trace, and after the one commit the only errors are a late audit row
   * that was due and failed, and the last read.
   */
  lemma ErrorAfterCommit(before: System, end: System, req: Request, env: Surroundings, r: Result<Row, Error>)
    requires env.rid !in before.inflight && Separate(env)
    requires Served(before, end, req, env, r)
    ensures var verdict := Verdict(before, req, env);
      if verdict.Err? then r == Err(verdict.error) && end == Exec(before, env.between + (env.after + env.last))
      else
        && end == OneCommit(before, verdict.value, LateAuditOf(before, req), env)
        && r == if env.rereadFails || (req.command.op.MoveTo? && AuditedLater(req) && !env.auditStored)
                   || (req.command.op.Remove? && !env.auditStored)
                then Err(StorageFailure)
                else if Live(end.db.rows, req.key) then Ok(end.db.rows[req.key]) else Err(NotFound)
  {
    hide CommitResult, Exec, Schedule, Arrival, OneCommit;
    OutcomeIsVerdict(before, req, env);
    if Verdict(before, req, env).Ok? {
      CommittedCallIsOneCommit(before, req, env);
    } else {
      FailedCallIsInvisible(before, req, env);
    }
  }

  /** The same for Delete, whose only error after its effect is the late audit row. */
  lemma ErrorAfterDeletion(before: System, end: System, req: Request, env: Surroundings, r: Result<(), Error>)
    requires env.rid !in before.inflight && Separate(env) && req.command.op.Remove?
    requires Deleted(before, end, req, env, r)
    ensures var verdict := Verdict(before, req, env);
      if verdict.Err? then r == Err(verdict.error) && end == Exec(before, env.between + (env.after + env.last))
      else
        && end == OneCommit(before, verdict.value, LateAuditOf(before, req), env)
        && r == if env.auditStored then Ok(()) else Err(StorageFailure)
  {
    hide CommitResult, Exec, Schedule, Arrival, OneCommit;
    OutcomeIsVerdict(before, req, env);
    if Verdict(before, req, env).Ok? {
      CommittedCallIsOneCommit(before, req, env);
    } else {
      FailedCallIsInvisible(before, req, env);
    }
  }

  /** What the create transaction makes of its input. */
  function CreateOutcome(db: Tables, key: Key, input: CreateInput, fault: Fault): Result<(), Error> {
    match CreateRow(db, key, input, fault)
    case Err(e) => Err(e)
    case Ok(_) => Ok(())
  }

  /** The contract of Create for a versioned entity. */
  ghost predicate Created(before: System, end: System, key: Key, input: CreateInput, env: Surroundings,
                          r: Result<Row, Error>)
  {
    && end == Exec(before, CreateSchedule(key, input, env))
    && r == Answer(CreateOutcome(Exec(before, env.between).db, key, input, env.fault), false, end, key, env)
  }

  /** A creation that fails, wherever in its writes, leaves no trace. */
  lemma FailedCreateIsInvisible(before: System, key: Key, input: CreateInput, env: Surroundings)
    requires env.rid !in before.inflight && Separate(env)
    requires CreateOutcome(Exec(before, env.between).db, key, input, env.fault).Err?
    ensures Exec(before, CreateSchedule(key, input, env)) == Exec(before, env.between + (env.after + env.last))
  {
    hide CreateRow, Exec, Departure, CreateSchedule;
    CreateScheduleRuns(before, key, input, env);
    SparedRequestStays(before, env.between, env.rid);
    DepartureOfNobody(Exec(before, env.between), env);
    ExecConcat(before, env.between, env.after + env.last);
  }

  function LateAuditOfBirth(key: Key, input: CreateInput): Option<Audit> {
    if Versioned(key.entity) then None
    else Some(LateAuditFor(key, InitialStatus(key.entity), CreateStamp(key.entity, input)))
  }

  /** A creation that goes through is one whole commit among the others' steps. */
  lemma CommittedCreateIsOneCommit(before: System, key: Key, input: CreateInput, env: Surroundings)
    requires env.rid !in before.inflight && Separate(env)
    requires CreateRow(Exec(before, env.between).db, key, input, env.fault).Ok?
    ensures Exec(before, CreateSchedule(key, input, env))
         == OneCommit(before, CreateRow(Exec(before, env.between).db, key, input, env.fault).value,
                      LateAuditOfBirth(key, input), env)
    ensures EventOf(Exec(before, env.between), Create(env.rid, key, input, env.fault)) == Some(Born(key, input))
  {
    hide CreateRow, Exec, Departure, CreateSchedule, LateAuditFor, CreateStamp;
    var s := Exec(before, env.between);
    CreateScheduleRuns(before, key, input, env);
    SparedRequestStays(before, env.between, env.rid);
    var t := Apply(s, Create(env.rid, key, input, env.fault));
    if Versioned(key.entity) {
      assert t == s.(db := t.db);
      DepartureOfNobody(t, env);
    } else {
      assert Drop(t, env.rid) == s.(db := t.db) by {
        assert t.inflight - {env.rid} == s.inflight;
      }
      DepartureWithAudit(t, LateAuditOfBirth(key, input).value, env);
    }
  }

  /** The answer of Create of a versioned entity: after the commit only the last read can fail. */
  lemma ErrorAfterCreate(before: System, end: System, key: Key, input: CreateInput, env: Surroundings,
                         r: Result<Row, Error>)
    requires env.rid !in before.inflight && Separate(env) && Versioned(key.entity)
    requires Created(before, end, key, input, env, r)
    ensures var verdict := CreateRow(Exec(before, env.between).db, key, input, env.fault);
      if verdict.Err? then r == Err(verdict.error) && end == Exec(before, env.between + (env.after + env.last))
      else
        && end == OneCommit(before, verdict.value, None, env)
        && r == if env.rereadFails then Err(StorageFailure)
                else if Live(end.db.rows, key) then Ok(end.db.rows[key]) else Err(NotFound)
  {
    hide CreateRow, Exec, CreateSchedule, OneCommit;
    if CreateRow(Exec(before, env.between).db, key, input, env.fault).Ok? {
      CommittedCreateIsOneCommit(before, key, input, env);
    } else {
      FailedCreateIsInvisible(before, key, input, env);
    }
  }

  // ---------- The parts the services share ----------

  /** Arrival of a request: its read, and the steps of others before its transaction. */
  method Arrive(server: Server, req: Request, env: Surroundings) returns (r: Result<Row, Error>)
    requires Safe(server.State()) && env.rid !in server.inflight && Separate(env)
    modifies server
    ensures server.State() == Exec(old(server.State()), Arrival(req, env)) && Safe(server.State())
    ensures r.Err? ==> r.error == NotFound && env.rid !in server.inflight
    ensures r.Ok? ==> env.rid in server.inflight && server.inflight[env.rid] == Loaded(req, r.value)
    ensures r.Ok? ==> ControlMatches(req.key.entity, r.value.control)
  {
    ghost var start := server.State();
    r := server.Load(env.rid, req);
    ghost var loaded := server.State();
    server.Others(env.between);
    SparedRequestStays(loaded, env.between, env.rid);
    ExecConcat(start, [Issue(env.rid, req), Read(env.rid)], env.between);
    ExecIsSafe(start, Arrival(req, env));
    if r.Ok? {
      assert ProgressSafe(server.Db(), server.inflight[env.rid]);
    }
  }

  /** The transaction for a decided change, on the database as it is by now. */
  method Transact(server: Server, req: Request, snapshot: Row, decided: Result<Row, Error>, env: Surroundings)
    returns (done: Result<(), Error>)
    requires env.rid in server.inflight && server.inflight[env.rid] == Loaded(req, snapshot)
    requires Versioned(req.key.entity) && !req.command.op.Remove? && decided == Decide(snapshot, req.command)
    modifies server
    ensures server.State() == Apply(old(server.State()), Commit(env.rid, env.fault))
    ensures done == Outcome(old(server.State()), env.rid, env.fault)
  {
    hide Decide, ChangeStamp, LateAudit, Repository.UpdateVersion;
    if decided.Err? {
      done := Err(decided.error);
    } else {
      var item := decided.value.(version := req.expected + 1);
      var stamp := ChangeStamp(req.key.entity, req.command, snapshot.status);
      done := server.UpdateVersion(req.key, req.expected, item, stamp, env.fault);
    }
    server.inflight := server.inflight - {env.rid};
  }

  lemma PlainRefusal(db: Tables, req: Request, snapshot: Row, fault: Fault)
    requires Decide(snapshot, req.command).Err?
    ensures CommitResult(db, req, snapshot, fault) == Err(Decide(snapshot, req.command).error)
  {
    hide Decide;
  }

  lemma PlainCommit(db: Tables, req: Request, snapshot: Row, fault: Fault)
    requires !Versioned(req.key.entity) && !req.command.op.Remove? && Decide(snapshot, req.command).Ok?
    ensures var item := Decide(snapshot, req.command).value.(version := req.expected + 1);
      CommitResult(db, req, snapshot, fault) ==
        if fault == RowWriteFails then Err(StorageFailure)
        else match OptimisticUpdate(db.rows, req.key, req.expected, item)
          case Err(e) => Err(e)
          case Ok(rows) => Ok(db.(rows := rows))
  {
  }

  /** The same for a part or a task: one conditional write, after which an audit row is due. */
  method WriteThrough(server: Server, req: Request, snapshot: Row, decided: Result<Row, Error>, env: Surroundings)
    returns (done: Result<(), Error>)
    requires env.rid in server.inflight && server.inflight[env.rid] == Loaded(req, snapshot)
    requires !Versioned(req.key.entity) && !req.command.op.Remove? && decided == Decide(snapshot, req.command)
    modifies server
    ensures server.State() == Apply(old(server.State()), Commit(env.rid, env.fault))
    ensures done == Outcome(old(server.State()), env.rid, env.fault)
  {
    hide Decide, LateAudit, CommitResult;
    if decided.Err? {
      done := Err(decided.error);
      PlainRefusal(server.Db(), req, snapshot, env.fault);
    } else {
      PlainCommit(server.Db(), req, snapshot, env.fault);
      done := server.WriteRow(req.key, req.expected, decided.value.(version := req.expected + 1), env.fault);
    }
    if done.Ok? {
      server.inflight := server.inflight[env.rid := AuditDue(LateAudit(req, snapshot))];
    } else {
      server.inflight := server.inflight - {env.rid};
    }
  }

  /** Deletion of a row whose guard has been tried. */
  method TransactDelete(server: Server, req: Request, snapshot: Row, env: Surroundings)
    returns (done: Result<(), Error>)
    requires env.rid in server.inflight && server.inflight[env.rid] == Loaded(req, snapshot)
    requires req.command.op.Remove?
    modifies server
    ensures server.State() == Apply(old(server.State()), Commit(env.rid, env.fault))
    ensures done == Outcome(old(server.State()), env.rid, env.fault)
  {
    if IsLocked(snapshot) {
      server.inflight := server.inflight - {env.rid};
      return Err(Locked);
    }
    done := server.Delete(req.key, env.fault);
    if done.Ok? {
      server.inflight := server.inflight[env.rid := AuditDue(LateAudit(req, snapshot))];
    } else {
      server.inflight := server.inflight - {env.rid};
    }
  }

  /** The late audit row, if this request owes one. */
  method WriteDueAudit(server: Server, rid: nat, stored: bool)
    modifies server
    ensures server.State() == Apply(old(server.State()), WriteAudit(rid, stored))
  {
    if rid in server.inflight && server.inflight[rid].AuditDue? {
      var audit := server.inflight[rid].audit;
      if stored {
        server.audits := server.audits + [audit];
      }
      server.inflight := server.inflight - {rid};
    }
  }

  /** The part of a call after its transaction, common to every service. */
  method Leave(server: Server, env: Surroundings)
    modifies server
    ensures server.State() == Exec(old(server.State()), Departure(env))
  {
    hide Apply, Exec;
    ghost var start := server.State();
    server.Others(env.after);
    WriteDueAudit(server, env.rid, env.auditStored);
    ExecAppend(start, env.after, WriteAudit(env.rid, env.auditStored));
    server.Others(env.last);
    ExecConcat(start, env.after + [WriteAudit(env.rid, env.auditStored)], env.last);
  }

  /** The last read of a call, or its error. */
  method Conclude(server: Server, key: Key, done: Result<(), Error>, reported: bool, env: Surroundings)
    returns (r: Result<Row, Error>)
    ensures r == Answer(done, reported, server.State(), key, env)
  {
    if done.Err? {
      return Err(done.error);
    }
    if reported && !env.auditStored {
      return Err(StorageFailure);
    }
    if env.rereadFails {
      return Err(StorageFailure);
    }
    r := server.Get(key);
  }

  /** The whole of a Delete call; the services differ only in which rows are locked. */
  method ServeDelete(server: Server, req: Request, env: Surroundings) returns (r: Result<(), Error>)
    requires Safe(server.State()) && env.rid !in server.inflight && Separate(env) && req.command.op.Remove?
    modifies server
    ensures Deleted(old(server.State()), server.State(), req, env, r) && Safe(server.State())
  {
    ghost var start := server.State();
    var loaded := Arrive(server, req, env);
    r := Err(NotFound);
    if loaded.Ok? {
      r := TransactDelete(server, req, loaded.value, env);
    }
    Leave(server, env);
    ScheduleRuns(start, req, env);
    ExecIsSafe(start, Schedule(req, env));
    if r.Ok? && !env.auditStored {
      return Err(StorageFailure);
    }
  }
}
