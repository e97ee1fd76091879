/** The services of aircraft parts and inspection tasks: the same lock, no revisions, and audit rows written later. */
module PlainRecords {
  import opened Wrappers
  import opened Text
  import opened Constants
  import opened Model
  import opened Services
  import opened Repository
  import opened Protocol
  import opened Safety
  import opened Backend
  import opened Calls
  import opened Landings

  class PlainRecordService {
    const server: Server
    const entity: Entity

    constructor (server: Server, entity: Entity)
      requires !Versioned(entity)
      ensures this.server == server && this.entity == entity
    {
      this.server := server;
      this.entity := entity;
    }

    /** Answers with the item it stored, whatever becomes of the audit row. */
    method Create(id: nat, input: CreateInput, env: Surroundings) returns (r: Result<Row, Error>)
      requires !Versioned(entity) && env.rid !in server.inflight && Separate(env)
      modifies server
      ensures var key := Key(entity, id);
        && server.State() == Exec(old(server.State()), CreateSchedule(key, input, env))
        && r == match CreateOutcome(Exec(old(server.State()), env.between).db, key, input, env.fault)
          case Err(e) => Err(e)
          case Ok(_) => Ok(NewRow(entity, input))
      ensures Safe(old(server.State())) ==>
        LandsBirth(old(server.State()), server.State(), Key(entity, id), input, env, r)
    {
      var key := Key(entity, id);
      hide Exec, IndexTaken, CodeTaken, CreateStamp, RevisionFor;
      ghost var start := server.State();
      server.Others(env.between);
      SparedRequestStays(start, env.between, env.rid);
      r := Err(InvalidInput);
      if ValidBusinessFields(input.code, input.fields) {
        var control := if entity == AircraftPart then Part else Task;
        var item := Row(ToUpper(TrimSpace(input.code)), Normalized(input.fields), InitialStatus(entity), 1, input.now,
                        control, false);
        var done := server.InsertRow(key, item, env.fault);
        if done.Ok? {
          var audit := LateAuditFor(key, item.status, CreateStamp(entity, input));
          server.inflight := server.inflight[env.rid := AuditDue(audit)];
          r := Ok(item);
        } else {
          r := Err(done.error);
        }
      }
      Leave(server, env);
      CreateScheduleRuns(start, key, input, env);
      if Safe(start) {
        hide LandsBirth, NewRow;
        PlainCreationLands(start, server.State(), key, input, env, r);
      }
    }

    /** Parts and tasks have no lock: they may be edited in every status. */
    method Edit(loaded: Row, cmd: Command, input: Fields) returns (r: Result<Row, Error>)
      requires loaded.control.Part? || loaded.control.Task?
      ensures r == DecideUpdate(loaded, cmd, input)
    {
      var current := loaded;
      if !ValidBusinessFields(current.code, input) {
        return Err(InvalidInput);
      }
      current := current.(fields := current.fields.(name := TrimSpace(input.name),
                                                    description := TrimSpace(input.description)));
      current := current.(fields := current.fields.(facility := TrimSpace(input.facility),
                                                    owner := TrimSpace(input.owner)));
      current := current.(fields := current.fields.(category := TrimSpace(input.category),
                                                    riskLevel := input.riskLevel));
      current := current.(fields := current.fields.(metricValue := input.metricValue,
                                                    metricUnit := TrimSpace(input.metricUnit)));
      current := current.(fields := current.fields.(effectiveAt := input.effectiveAt,
                                                    evidence := TrimSpace(input.evidence)));
      current := current.(fields := current.fields.(relatedCode := ToUpper(TrimSpace(input.relatedCode))));
      current := current.(updatedAt := cmd.now);
      return Ok(current);
    }

    method Update(id: nat, expected: nat, input: Fields, actor: string, role: Role, requestId: string, now: int,
                  env: Surroundings)
      returns (r: Result<Row, Error>)
      requires !Versioned(entity) && Safe(server.State()) && env.rid !in server.inflight && Separate(env)
      modifies server
      ensures Served(old(server.State()), server.State(),
                     Request(Key(entity, id), expected,
                             Command(UpdateFields(input), actor, role, requestId, now)), env, r)
      ensures Lands(old(server.State()), server.State(),
                    Request(Key(entity, id), expected,
                            Command(UpdateFields(input), actor, role, requestId, now)), env, r)
      ensures Safe(server.State())
    {
      hide Exec, CommitResult, DecideUpdate;
      var req := Request(Key(entity, id), expected, Command(UpdateFields(input), actor, role, requestId, now));
      ghost var start := server.State();
      var loaded := Arrive(server, req, env);
      var done: Result<(), Error> := Err(NotFound);
      if loaded.Ok? {
        var decided := Edit(loaded.value, req.command, input);
        done := WriteThrough(server, req, loaded.value, decided, env);
      }
      Leave(server, env);
      ScheduleRuns(start, req, env);
      ExecIsSafe(start, Schedule(req, env));
      r := Conclude(server, req.key, done, false, env);
      CallLands(start, server.State(), req, env, r);
    }

    /** The only guard of a transition is the graph. */
    method Move(loaded: Row, cmd: Command, target: Status, reason: string) returns (r: Result<Row, Error>)
      requires !Versioned(entity) && ControlMatches(entity, loaded.control)
      ensures r == DecideTransition(loaded, cmd, target, reason)
    {
      var current := loaded;
      if !CanTransition(GraphOf(entity), current.status, target) {
        return Err(InvalidTransition);
      }
      current := current.(status := target);
      current := current.(updatedAt := cmd.now);
      return Ok(current);
    }

    method Transition(id: nat, target: Status, expected: nat, reason: string, actor: string, role: Role,
                      requestId: string, now: int, env: Surroundings)
      returns (r: Result<Row, Error>)
      requires !Versioned(entity) && Safe(server.State()) && env.rid !in server.inflight && Separate(env)
      modifies server
      ensures Served(old(server.State()), server.State(),
                     Request(Key(entity, id), expected,
                             Command(MoveTo(target, reason), actor, role, requestId, now)), env, r)
      ensures Lands(old(server.State()), server.State(),
                    Request(Key(entity, id), expected,
                            Command(MoveTo(target, reason), actor, role, requestId, now)), env, r)
      ensures Safe(server.State())
    {
      hide Exec, CommitResult, DecideTransition;
      var req := Request(Key(entity, id), expected, Command(MoveTo(target, reason), actor, role, requestId, now));
      ghost var start := server.State();
      var loaded := Arrive(server, req, env);
      var done: Result<(), Error> := Err(NotFound);
      if loaded.Ok? {
        var decided := Move(loaded.value, req.command, target, reason);
        done := WriteThrough(server, req, loaded.value, decided, env);
      }
      Leave(server, env);
      ScheduleRuns(start, req, env);
      ExecIsSafe(start, Schedule(req, env));
      r := Conclude(server, req.key, done, true, env);
      CallLands(start, server.State(), req, env, r);
    }

    method Delete(id: nat, actor: string, role: Role, requestId: string, now: int, env: Surroundings)
      returns (r: Result<(), Error>)
      requires Safe(server.State()) && env.rid !in server.inflight && Separate(env)
      modifies server
      ensures Deleted(old(server.State()), server.State(),
                      Request(Key(entity, id), 0, Command(Remove, actor, role, requestId, now)), env, r)
      ensures LandsDeletion(old(server.State()), server.State(),
                            Request(Key(entity, id), 0, Command(Remove, actor, role, requestId, now)), env, r)
      ensures Safe(server.State())
    {
      var req := Request(Key(entity, id), 0, Command(Remove, actor, role, requestId, now));
      ghost var start := server.State();
      r := ServeDelete(server, req, env);
      DeletionLands(start, server.State(), req, env, r);
    }
  }
}
