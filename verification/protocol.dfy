/**
 * Any number of requests in flight on one database. A request reads a snapshot of its row in
 * one database step and commits in a later one; the steps of different requests interleave in
 * every possible way. A schedule is a list of steps, and Exec runs it.
 */
module Protocol {
  import opened Wrappers
  import opened Constants
  import opened Model
  import opened Services
  import opened Repository

  /** How far a request has come: received, snapshot read, or committed with its audit row still to be written. */
  datatype Progress =
    | Waiting(request: Request)
    | Loaded(request: Request, snapshot: Row)
    | AuditDue(audit: Audit)

  /** The database, the requests in flight, and every (record, version) pair a response has carried. */
  datatype System = System(db: Tables, inflight: map<nat, Progress>, seen: set<(Key, nat)>)

  datatype Step =
    | Create(rid: nat, key: Key, input: CreateInput, fault: Fault)
    | Issue(rid: nat, request: Request)
    | Read(rid: nat)
    | Commit(rid: nat, fault: Fault)
    | WriteAudit(rid: nat, stored: bool)
    | Abort(rid: nat)
    | Respond(key: Key)

  function CreateRow(db: Tables, key: Key, input: CreateInput, fault: Fault): Result<Tables, Error> {
    if !ValidBusinessFields(input.code, input.fields) then Err(InvalidInput)
    else CreateVersion(db, key, NewRow(key.entity, input), CreateStamp(key.entity, input), fault)
  }

  /** The guards on the snapshot, then the conditional write of the row they produce. */
  function CommitResult(db: Tables, req: Request, snapshot: Row, fault: Fault): Result<Tables, Error> {
    match Decide(snapshot, req.command)
    case Err(e) => Err(e)
    case Ok(item) =>
      if req.command.op.Remove? then SoftDelete(db, req.key, fault)
      else UpdateVersion(db, req.key, req.expected, item.(version := req.expected + 1),
                         ChangeStamp(req.key.entity, req.command, snapshot.status), fault)
  }

  /** Deletions, and every change of a part or an inspection task, are audited after their commit. */
  predicate AuditedLater(req: Request) {
    req.command.op.Remove? || !Versioned(req.key.entity)
  }

  /** That audit row, with the before state taken from the snapshot. */
  function LateAudit(req: Request, snapshot: Row): Audit {
    var after := match req.command.op
      case UpdateFields(_) => snapshot.status
      case MoveTo(target, _) => target
      case Remove => Other("deleted");
    LateAuditFor(req.key, after, ChangeStamp(req.key.entity, req.command, snapshot.status))
  }

  function Drop(s: System, rid: nat): System {
    s.(inflight := s.inflight - {rid})
  }

  function ApplyCreate(s: System, rid: nat, key: Key, input: CreateInput, fault: Fault): System {
    match CreateRow(s.db, key, input, fault)
    case Err(_) => s
    case Ok(db) =>
      if Versioned(key.entity) then s.(db := db)
      else
        var audit := LateAuditFor(key, InitialStatus(key.entity), CreateStamp(key.entity, input));
        s.(db := db, inflight := s.inflight[rid := AuditDue(audit)])
  }

  function ApplyCommit(s: System, rid: nat, req: Request, snapshot: Row, fault: Fault): System {
    match CommitResult(s.db, req, snapshot, fault)
    case Err(_) => Drop(s, rid)
    case Ok(db) =>
      if AuditedLater(req) then s.(db := db, inflight := s.inflight[rid := AuditDue(LateAudit(req, snapshot))])
      else Drop(s, rid).(db := db)
  }

  /** One step; a step that its request cannot take now changes nothing. */
  function Apply(s: System, step: Step): System {
    match step
    case Create(rid, key, input, fault) =>
      if rid in s.inflight then s else ApplyCreate(s, rid, key, input, fault)
    case Issue(rid, request) =>
      if rid in s.inflight then s else s.(inflight := s.inflight[rid := Waiting(request)])
    case Read(rid) =>
      if rid in s.inflight && s.inflight[rid].Waiting? then
        var req := s.inflight[rid].request;
        if Live(s.db.rows, req.key) then s.(inflight := s.inflight[rid := Loaded(req, s.db.rows[req.key])])
        else Drop(s, rid)
      else s
    case Commit(rid, fault) =>
      if rid in s.inflight && s.inflight[rid].Loaded? then
        ApplyCommit(s, rid, s.inflight[rid].request, s.inflight[rid].snapshot, fault)
      else s
    case WriteAudit(rid, stored) =>
      if rid in s.inflight && s.inflight[rid].AuditDue? then
        var audits := if stored then s.db.audits + [s.inflight[rid].audit] else s.db.audits;
        Drop(s, rid).(db := s.db.(audits := audits))
      else s
    case Abort(rid) => Drop(s, rid)
    case Respond(key) =>
      if Live(s.db.rows, key) then s.(seen := s.seen + {(key, s.db.rows[key].version)}) else s
  }

  function Exec(s: System, steps: seq<Step>): System {
    if steps == [] then s else Apply(Exec(s, steps[..|steps| - 1]), steps[|steps| - 1])
  }

  lemma ExecAppend(s: System, steps: seq<Step>, step: Step)
    ensures Exec(s, steps + [step]) == Apply(Exec(s, steps), step)
  {
    assert (steps + [step])[..|steps|] == steps;
  }

  lemma TwoSteps(s: System, a: Step, b: Step)
    ensures Exec(s, [a, b]) == Apply(Apply(s, a), b)
  {
    assert [a, b][..1] == [a] && [a][..0] == [];
    assert Exec(s, [a]) == Apply(s, a);
  }

  lemma {:induction false} ExecConcat(s: System, first: seq<Step>, second: seq<Step>)
    ensures Exec(s, first + second) == Exec(Exec(s, first), second)
  {
    if second == [] {
      assert first + second == first;
    } else {
      var init, last := second[..|second| - 1], second[|second| - 1];
      assert first + second == (first + init) + [last];
      ExecConcat(s, first, init);
      ExecAppend(s, first + init, last);
    }
  }

  function SeedNote(entity: Entity): string {
    if entity == CertificateRecord then "initial demonstration certificate" else "initial demonstration authorization"
  }

  function SeedRevision(key: Key, row: Row): Revision {
    Revision(key, row.version, row.status, row.fields.evidence, "system-seed", "seed-gb-515", SeedAction,
             SeedNote(key.entity))
  }

  /** What the seed functions leave behind; without any row, the empty database. */
  ghost predicate Seeded(db: Tables) {
    && db.audits == []
    && (forall key :: key in db.rows ==>
          db.rows[key].version == 1 && !db.rows[key].deleted && ControlMatches(key.entity, db.rows[key].control))
    && (forall key {:trigger RevisionsOf(db.revisions, key)} ::
          RevisionsOf(db.revisions, key)
          == if key in db.rows && Versioned(key.entity) then [SeedRevision(key, db.rows[key])] else [])
  }

  ghost predicate Init(s: System) {
    Seeded(s.db) && s.inflight == map[] && s.seen == {}
  }

  // ---------- What a client is assumed to do ----------

  /** A version sent with a request was received in an earlier response. */
  predicate Observed(s: System, step: Step) {
    step.Issue? && !step.request.command.op.Remove? ==> (step.request.key, step.request.expected) in s.seen
  }

  predicate ObservedRun(s: System, steps: seq<Step>) {
    forall i :: 0 <= i < |steps| ==> Observed(Exec(s, steps[..i]), steps[i])
  }

  /** The authentication middleware lets no request through without a user name. */
  predicate Authenticated(steps: seq<Step>) {
    forall i :: 0 <= i < |steps| ==>
      && (steps[i].Create? ==> steps[i].input.actor != "")
      && (steps[i].Issue? ==> steps[i].request.command.actor != "")
  }

  lemma RunPrefix(s: System, steps: seq<Step>, n: nat)
    requires n <= |steps|
    ensures ObservedRun(s, steps) ==> ObservedRun(s, steps[..n])
    ensures Authenticated(steps) ==> Authenticated(steps[..n])
  {
    assert forall i :: 0 <= i < n ==> steps[..n][..i] == steps[..i];
  }
}
