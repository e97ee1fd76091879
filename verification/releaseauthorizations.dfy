/** The release-authorization service. */
module ReleaseAuthorizations {
  import opened Wrappers
  import opened Text
  import opened Constants
  import opened Model
  import opened Services
  import opened Repository
  import opened Protocol
  import opened Safety
  import opened Backend
  import opened Calls
  import opened Landings

  class ReleaseAuthorizationService {
    const server: Server

    constructor (server: Server)
      ensures this.server == server
    {
      this.server := server;
    }

    method Create(id: nat, input: CreateInput, env: Surroundings) returns (r: Result<Row, Error>)
      requires env.rid !in server.inflight && Separate(env)
      modifies server
      ensures Created(old(server.State()), server.State(), Key(ReleaseAuthorization, id), input, env, r)
      ensures Safe(old(server.State())) ==>
        LandsBirth(old(server.State()), server.State(), Key(ReleaseAuthorization, id), input, env, r)
    {
      var key := Key(ReleaseAuthorization, id);
      hide Exec, Stored, IndexTaken, CodeTaken, CreateStamp;
      ghost var start := server.State();
      server.Others(env.between);
      SparedRequestStays(start, env.between, env.rid);
      var done: Result<(), Error> := Err(InvalidInput);
      if ValidBusinessFields(input.code, input.fields) {
        var item := Row(ToUpper(TrimSpace(input.code)), Normalized(input.fields), Draft, 1, input.now,
                        Authorization("", "", ""), false);
        done := server.CreateVersion(key, item, CreateStamp(ReleaseAuthorization, input), env.fault);
      }
      Leave(server, env);
      CreateScheduleRuns(start, key, input, env);
      r := Conclude(server, key, done, false, env);
      if Safe(start) {
        hide Created, LandsBirth;
        CreationLands(start, server.State(), key, input, env, r);
      }
    }

    /** The guards of an edit, then the new fields one after the other. */
    method Edit(loaded: Row, cmd: Command, input: Fields) returns (r: Result<Row, Error>)
      requires loaded.control.Authorization?
      ensures r == DecideUpdate(loaded, cmd, input)
    {
      var current := loaded;
      if current.status != Draft {
        return Err(Locked);
      }
      if !ValidBusinessFields(current.code, input) {
        return Err(InvalidInput);
      }
      current := current.(fields := current.fields.(name := TrimSpace(input.name),
                                                    description := TrimSpace(input.description)));
      current := current.(fields := current.fields.(facility := TrimSpace(input.facility),
                                                    owner := TrimSpace(input.owner)));
      current := current.(fields := current.fields.(category := TrimSpace(input.category),
                                                    riskLevel := input.riskLevel));
      current := current.(fields := current.fields.(metricValue := input.metricValue,
                                                    metricUnit := TrimSpace(input.metricUnit)));
      current := current.(fields := current.fields.(effectiveAt := input.effectiveAt,
                                                    evidence := TrimSpace(input.evidence)));
      current := current.(fields := current.fields.(relatedCode := ToUpper(TrimSpace(input.relatedCode))));
      current := current.(updatedAt := cmd.now);
      return Ok(current);
    }

    method Update(id: nat, expected: nat, input: Fields, actor: string, role: Role, requestId: string, now: int,
                  env: Surroundings)
      returns (r: Result<Row, Error>)
      requires Safe(server.State()) && env.rid !in server.inflight && Separate(env)
      modifies server
      ensures Served(old(server.State()), server.State(),
                     Request(Key(ReleaseAuthorization, id), expected,
                             Command(UpdateFields(input), actor, role, requestId, now)), env, r)
      ensures Lands(old(server.State()), server.State(),
                    Request(Key(ReleaseAuthorization, id), expected,
                            Command(UpdateFields(input), actor, role, requestId, now)), env, r)
      ensures Safe(server.State())
    {
      hide Exec, CommitResult, DecideUpdate;
      var req := Request(Key(ReleaseAuthorization, id), expected,
                         Command(UpdateFields(input), actor, role, requestId, now));
      ghost var start := server.State();
      var loaded := Arrive(server, req, env);
      var done: Result<(), Error> := Err(NotFound);
      if loaded.Ok? {
        var decided := Edit(loaded.value, req.command, input);
        done := Transact(server, req, loaded.value, decided, env);
      }
      Leave(server, env);
      ScheduleRuns(start, req, env);
      ExecIsSafe(start, Schedule(req, env));
      r := Conclude(server, req.key, done, false, env);
      CallLands(start, server.State(), req, env, r);
    }

    /** The guards of a transition in the order they are tried, and the duty columns they set. */
    method Review(loaded: Row, cmd: Command, target: Status, reason: string) returns (r: Result<Row, Error>)
      requires loaded.control.Authorization?
      ensures r == DecideAuthorization(loaded, cmd, target, reason)
    {
      var current := loaded;
      if !CanTransition(RELEASE_AUTHORIZATION_TRANSITIONS, current.status, target) {
        return Err(InvalidTransition);
      }
      if !IsOperatorRole(cmd.role) {
        return Err(Forbidden);
      }
      if target == Constants.Status.Review {
        current := current.(control := current.control.(submittedBy := cmd.actor));
        current := current.(control := current.control.(reviewedBy := "", reviewReason := ""));
      }
      if target == Approved || target == Restricted || target == Revoked || target == Draft {
        if !IsReviewerRole(cmd.role) {
          return Err(Forbidden);
        }
        if current.control.submittedBy != "" && cmd.actor == current.control.submittedBy {
          return Err(SeparationOfDuty);
        }
        current := current.(control := current.control.(reviewedBy := cmd.actor));
        current := current.(control := current.control.(reviewReason := TrimSpace(reason)));
      }
      current := current.(status := target);
      current := current.(updatedAt := cmd.now);
      return Ok(current);
    }

    method Transition(id: nat, target: Status, expected: nat, reason: string, actor: string, role: Role,
                      requestId: string, now: int, env: Surroundings)
      returns (r: Result<Row, Error>)
      requires Safe(server.State()) && env.rid !in server.inflight && Separate(env)
      modifies server
      ensures Served(old(server.State()), server.State(),
                     Request(Key(ReleaseAuthorization, id), expected,
                             Command(MoveTo(target, reason), actor, role, requestId, now)), env, r)
      ensures Lands(old(server.State()), server.State(),
                    Request(Key(ReleaseAuthorization, id), expected,
                            Command(MoveTo(target, reason), actor, role, requestId, now)), env, r)
      ensures Safe(server.State())
    {
      hide Exec, CommitResult, DecideAuthorization;
      var req := Request(Key(ReleaseAuthorization, id), expected,
                         Command(MoveTo(target, reason), actor, role, requestId, now));
      ghost var start := server.State();
      var loaded := Arrive(server, req, env);
      var done: Result<(), Error> := Err(NotFound);
      if loaded.Ok? {
        var decided := Review(loaded.value, req.command, target, reason);
        done := Transact(server, req, loaded.value, decided, env);
      }
      Leave(server, env);
      ScheduleRuns(start, req, env);
      ExecIsSafe(start, Schedule(req, env));
      r := Conclude(server, req.key, done, false, env);
      CallLands(start, server.State(), req, env, r);
    }

    method Delete(id: nat, actor: string, role: Role, requestId: string, now: int, env: Surroundings)
      returns (r: Result<(), Error>)
      requires Safe(server.State()) && env.rid !in server.inflight && Separate(env)
      modifies server
      ensures Deleted(old(server.State()), server.State(),
                      Request(Key(ReleaseAuthorization, id), 0, Command(Remove, actor, role, requestId, now)), env, r)
      ensures LandsDeletion(old(server.State()), server.State(),
                            Request(Key(ReleaseAuthorization, id), 0, Command(Remove, actor, role, requestId, now)),
                            env, r)
      ensures Safe(server.State())
    {
      var req := Request(Key(ReleaseAuthorization, id), 0, Command(Remove, actor, role, requestId, now));
      ghost var start := server.State();
      r := ServeDelete(server, req, env);
      DeletionLands(start, server.State(), req, env, r);
    }
  }
}
