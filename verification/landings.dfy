/**
 * What one service call leaves and answers, without the functions that decide it: the error of a
 * refused call, and the row an accepted one stores. The steps of others may fill its gaps.
 */
module Landings {
  import opened Wrappers
  import opened Constants
  import opened Model
  import opened Services
  import opened Contracts
  import opened Repository
  import opened Protocol
  import opened Safety
  import opened Serializability
  import opened Effects
  import opened Calls

  /** No other request takes a step after the commit of this one. */
  predicate LastToAct(env: Surroundings) {
    env.after == [] && env.last == []
  }

  /** The database right after the commit of a call. */
  function Landing(before: System, req: Request, env: Surroundings): Tables {
    Exec(before, Arrival(req, env) + [Commit(env.rid, env.fault)]).db
  }

  /** The error of a call that has no effect: its guards saw the row as it was when the call came. */
  function CallRefusal(before: System, req: Request, env: Surroundings): Option<Error> {
    if !LiveAt(before.db, req.key) then Some(NotFound)
    else CommitRefusal(Exec(before, env.between).db, req, before.db.rows[req.key], env.fault)
  }

  /** The database at the end when no others follow: the late audit row, if one is due, may be missing. */
  function WithLateRow(db: Tables, due: bool, a: Audit, stored: bool): Tables {
    if due && stored then db.(audits := db.audits + [a]) else db
  }

  /** The late audit row that is due to a call on a row. */
  function RowDue(req: Request, seen: Row): Audit {
    LateRow(req.key, req.command.actor, req.command.requestId, ActionTold(req.command.op),
            seen.status, StatusTold(req.command.op, seen.status), ChangeDetail(req.key.entity, req.command.op))
  }

  /** An update or a transition. */
  ghost predicate Lands(before: System, end: System, req: Request, env: Surroundings, r: Result<Row, Error>) {
    match CallRefusal(before, req, env)
    case Some(e) => r == Err(e)
    case None =>
      var key, cmd, at, after := req.key, req.command, Exec(before, env.between).db, Landing(before, req, env);
      && LiveAt(before.db, key)
      && StoredOne(at, after, key, cmd.actor, cmd.requestId, ActionTold(cmd.op), before.db.rows[key].status,
                   ChangeReason(key.entity, cmd.op), ChangeDetail(key.entity, cmd.op))
      && after.rows[key].version == req.expected + 1 && Became(before.db.rows[key], after.rows[key], cmd)
      && (LastToAct(env) ==> end.db == WithLateRow(after, !KeepsRevisions(key.entity),
                                                   RowDue(req, before.db.rows[key]), env.auditStored))
      && r == if env.rereadFails || (cmd.op.MoveTo? && !KeepsRevisions(key.entity) && !env.auditStored)
              then Err(StorageFailure)
              else if LiveAt(end.db, key) then Ok(end.db.rows[key]) else Err(NotFound)
  }

  ghost predicate LandsDeletion(before: System, end: System, req: Request, env: Surroundings, r: Result<(), Error>) {
    match CallRefusal(before, req, env)
    case Some(e) => r == Err(e)
    case None =>
      var key, at, after := req.key, Exec(before, env.between).db, Landing(before, req, env);
      && LiveAt(before.db, key) && LiveAt(at, key)
      && after == Tables(at.rows[key := at.rows[key].(deleted := true)], at.revisions, at.audits)
      && (LastToAct(env) ==> end.db == WithLateRow(after, true, RowDue(req, before.db.rows[key]), env.auditStored))
      && r == if env.auditStored then Ok(()) else Err(StorageFailure)
  }

  function BirthLanding(before: System, key: Key, input: CreateInput, env: Surroundings): Tables {
    Exec(before, env.between + [Create(env.rid, key, input, env.fault)]).db
  }

  /** What a creation stores, and what is left of it when no others follow. */
  ghost predicate Bears(before: System, end: System, key: Key, input: CreateInput, env: Surroundings) {
    var at, after := Exec(before, env.between).db, BirthLanding(before, key, input, env);
    && key !in at.rows
    && StoredOne(at, after, key, input.actor, input.requestId, CreateAction, Other(""),
                 BirthReason(key.entity), BirthDetail(key.entity))
    && NewlyBorn(key.entity, after.rows[key], input)
    && (LastToAct(env) ==>
          end.db == WithLateRow(after, !KeepsRevisions(key.entity),
                                LateRow(key, input.actor, input.requestId, CreateAction, Other(""),
                                        after.rows[key].status, BirthDetail(key.entity)), env.auditStored))
  }

  /** The answer of a creation: certificates and authorizations are read back, parts and tasks are not. */
  ghost predicate LandsBirth(before: System, end: System, key: Key, input: CreateInput, env: Surroundings,
                             r: Result<Row, Error>) {
    match CreateRefusal(Exec(before, env.between).db, key, input, env.fault)
    case Some(e) => r == Err(e)
    case None =>
      && Bears(before, end, key, input, env)
      && r == if !KeepsRevisions(key.entity) then Ok(BirthLanding(before, key, input, env).rows[key])
              else if env.rereadFails then Err(StorageFailure)
              else if LiveAt(end.db, key) then Ok(end.db.rows[key]) else Err(NotFound)
  }

  // ---------- The calls land ----------

  lemma ArrivalIsSafe(before: System, req: Request, env: Surroundings)
    requires Safe(before) && env.rid !in before.inflight && Separate(env) && Live(before.db.rows, req.key)
    ensures DatabaseSafe(Exec(before, env.between).db)
    ensures ProgressSafe(Exec(before, env.between).db, Loaded(req, before.db.rows[req.key]))
  {
    hide Exec, RecordSafe;
    ExecIsSafe(before, Arrival(req, env));
    ArrivalReadsOnly(before, req, env);
    assert ProgressSafe(Exec(before, Arrival(req, env)).db, Exec(before, Arrival(req, env)).inflight[env.rid]);
  }

  /** The verdict of a call is the one it has to get. */
  lemma VerdictKeepsPromise(before: System, req: Request, env: Surroundings)
    requires Safe(before) && env.rid !in before.inflight && Separate(env)
    ensures var v := Verdict(before, req, env);
      if v.Err? then CallRefusal(before, req, env) == Some(v.error) else CallRefusal(before, req, env) == None
  {
    hide Exec, CommitResult, CommitRefusal, DatabaseSafe;
    if Live(before.db.rows, req.key) {
      ArrivalIsSafe(before, req, env);
      CommitsKeepPromise(Exec(before, env.between).db, req, before.db.rows[req.key], env.fault);
    }
  }

  lemma LandingIsVerdict(before: System, req: Request, env: Surroundings)
    requires env.rid !in before.inflight && Separate(env) && Verdict(before, req, env).Ok?
    ensures Landing(before, req, env) == Verdict(before, req, env).value
  {
    hide CommitResult, LateAudit, Exec;
    ExecAppend(before, Arrival(req, env), Commit(env.rid, env.fault));
    ArrivalReadsOnly(before, req, env);
  }

  lemma NobodyAfter(before: System, db: Tables, late: Option<Audit>, env: Surroundings)
    requires LastToAct(env)
    ensures OneCommit(before, db, late, env).db
         == if late.Some? then WithLateRow(db, true, late.value, env.auditStored) else db
  {
    var committed := Exec(before, env.between).(db := db);
    assert Exec(committed, []) == committed && env.after + env.last == [];
    if late.Some? {
      var audited := Audited(committed, late.value, env.auditStored);
      assert Exec(audited, []) == audited;
    }
  }

  lemma RowIsDue(req: Request, seen: Row)
    ensures LateAudit(req, seen) == RowDue(req, seen)
  {
    LateAuditTells(req, seen);
  }

  lemma CallLands(before: System, end: System, req: Request, env: Surroundings, r: Result<Row, Error>)
    requires Safe(before) && env.rid !in before.inflight && Separate(env) && !req.command.op.Remove?
    requires Served(before, end, req, env, r)
    ensures Lands(before, end, req, env, r)
  {
    hide Exec, CommitResult, Served, OneCommit, CallRefusal, Landing, Became, StoredOne, LateAudit, RowDue;
    hide DatabaseSafe, ChangeReason, ChangeDetail;
    VerdictKeepsPromise(before, req, env);
    ErrorAfterCommit(before, end, req, env, r);
    if Verdict(before, req, env).Ok? {
      LandingIsVerdict(before, req, env);
      ArrivalIsSafe(before, req, env);
      CommitsKeepPromise(Exec(before, env.between).db, req, before.db.rows[req.key], env.fault);
      if LastToAct(env) {
        NobodyAfter(before, Verdict(before, req, env).value, LateAuditOf(before, req), env);
        RowIsDue(req, before.db.rows[req.key]);
      }
    }
  }

  lemma DeletionCommits(db: Tables, req: Request, snapshot: Row, fault: Fault)
    requires req.command.op.Remove? && CommitResult(db, req, snapshot, fault).Ok?
    ensures LiveAt(db, req.key)
    ensures CommitResult(db, req, snapshot, fault).value
         == Tables(db.rows[req.key := db.rows[req.key].(deleted := true)], db.revisions, db.audits)
  {
  }

  lemma DeletionLands(before: System, end: System, req: Request, env: Surroundings, r: Result<(), Error>)
    requires Safe(before) && env.rid !in before.inflight && Separate(env) && req.command.op.Remove?
    requires Deleted(before, end, req, env, r)
    ensures LandsDeletion(before, end, req, env, r)
  {
    hide Exec, Deleted, CommitResult, OneCommit, CallRefusal, Landing, LateAudit, RowDue, DatabaseSafe;
    VerdictKeepsPromise(before, req, env);
    ErrorAfterDeletion(before, end, req, env, r);
    if Verdict(before, req, env).Ok? {
      LandingIsVerdict(before, req, env);
      ArrivalIsSafe(before, req, env);
      DeletionCommits(Exec(before, env.between).db, req, before.db.rows[req.key], env.fault);
      if LastToAct(env) {
        NobodyAfter(before, Verdict(before, req, env).value, LateAuditOf(before, req), env);
        RowIsDue(req, before.db.rows[req.key]);
      }
    }
  }

  lemma BirthLandingIsVerdict(before: System, key: Key, input: CreateInput, env: Surroundings)
    requires env.rid !in before.inflight && Separate(env)
    requires CreateRow(Exec(before, env.between).db, key, input, env.fault).Ok?
    ensures BirthLanding(before, key, input, env)
         == CreateRow(Exec(before, env.between).db, key, input, env.fault).value
  {
    hide CreateRow, Exec, LateAuditFor, CreateStamp;
    ExecAppend(before, env.between, Create(env.rid, key, input, env.fault));
    SparedRequestStays(before, env.between, env.rid);
  }

  lemma BirthRowIsDue(key: Key, input: CreateInput, row: Row)
    requires NewlyBorn(key.entity, row, input)
    ensures LateAuditFor(key, InitialStatus(key.entity), CreateStamp(key.entity, input))
         == LateRow(key, input.actor, input.requestId, CreateAction, Other(""), row.status, BirthDetail(key.entity))
  {
    CreateStampTells(key.entity, input);
    LateAuditRowsTell(key, InitialStatus(key.entity), CreateStamp(key.entity, input));
    hide CreateStamp, LateRow, BirthDetail, StoresFields;
  }

  /** The effect of a creation, whatever its answer. */
  lemma BirthBears(before: System, end: System, key: Key, input: CreateInput, env: Surroundings)
    requires Safe(before) && env.rid !in before.inflight && Separate(env)
    requires end == Exec(before, CreateSchedule(key, input, env))
    ensures var v := CreateRow(Exec(before, env.between).db, key, input, env.fault);
      var refusal := CreateRefusal(Exec(before, env.between).db, key, input, env.fault);
      if v.Err? then refusal == Some(v.error) else refusal == None && Bears(before, end, key, input, env)
    ensures var v := CreateRow(Exec(before, env.between).db, key, input, env.fault);
      v.Ok? ==> v.value == BirthLanding(before, key, input, env)
  {
    hide CreateRow, Exec, OneCommit, CreateRefusal, NewlyBorn, SerialStep, BirthLanding, CreateSchedule, StoredOne;
    hide CreateStamp, LateAuditFor, InitialStatus, CompleteInput, BirthDetail, BirthReason, CodeInUse, CodeTaken;
    ExecIsSafe(before, env.between);
    var at := Exec(before, env.between).db;
    CreationsKeepPromise(at, key, input, env.fault);
    if CreateRow(at, key, input, env.fault).Ok? {
      BirthEffect(at, key, input);
      BirthLandingIsVerdict(before, key, input, env);
      CommittedCreateIsOneCommit(before, key, input, env);
      if LastToAct(env) {
        NobodyAfter(before, CreateRow(at, key, input, env.fault).value, LateAuditOfBirth(key, input), env);
        BirthRowIsDue(key, input, BirthLanding(before, key, input, env).rows[key]);
      }
    }
  }

  lemma CreationLands(before: System, end: System, key: Key, input: CreateInput, env: Surroundings,
                      r: Result<Row, Error>)
    requires Safe(before) && env.rid !in before.inflight && Separate(env) && Versioned(key.entity)
    requires Created(before, end, key, input, env, r)
    ensures LandsBirth(before, end, key, input, env, r)
  {
    hide CreateRow, Exec, OneCommit, CreateRefusal, Bears, BirthLanding, CreateSchedule;
    BirthBears(before, end, key, input, env);
    ErrorAfterCreate(before, end, key, input, env, r);
  }

  /** A creation of a part or a task, which answers what it has stored. */
  lemma PlainCreationLands(before: System, end: System, key: Key, input: CreateInput, env: Surroundings,
                           r: Result<Row, Error>)
    requires Safe(before) && env.rid !in before.inflight && Separate(env) && !Versioned(key.entity)
    requires end == Exec(before, CreateSchedule(key, input, env))
    requires r == match CreateOutcome(Exec(before, env.between).db, key, input, env.fault)
      case Err(e) => Err(e)
      case Ok(_) => Ok(NewRow(key.entity, input))
    ensures LandsBirth(before, end, key, input, env, r)
  {
    BirthBears(before, end, key, input, env);
    hide Exec, CreateRefusal, Bears, BirthLanding, CreateSchedule, NewRow;
    var at := Exec(before, env.between).db;
    if CreateRow(at, key, input, env.fault).Ok? {
      StoredTells(at, key, NewRow(key.entity, input), CreateStamp(key.entity, input));
    }
  }
}
