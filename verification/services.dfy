/**
 * What each service decides about the row it has just read: the guards in the order the code
 * tries them, then the changed row. The version is left alone here; the caller stamps it.
 */
module Services {
  import opened Wrappers
  import opened Text
  import opened Constants
  import opened Model

  function GraphOf(entity: Entity): Graph {
    match entity
    case AircraftPart => AIRCRAFT_PART_TRANSITIONS
    case InspectionTask => INSPECTION_TASK_TRANSITIONS
    case CertificateRecord => CERTIFICATE_RECORD_TRANSITIONS
    case ReleaseAuthorization => RELEASE_AUTHORIZATION_TRANSITIONS
  }

  /** Certificates and authorizations may be edited and deleted only as drafts. */
  predicate IsLocked(row: Row) {
    (row.control.Certificate? || row.control.Authorization?) && row.status != Draft
  }

  function DecideUpdate(row: Row, cmd: Command, input: Fields): Result<Row, Error> {
    if IsLocked(row) then Err(Locked)
    else if !ValidBusinessFields(row.code, input) then Err(InvalidInput)
    else
      var control := if row.control.Certificate? then Certificate(cmd.actor, "") else row.control;
      Ok(row.(fields := Normalized(input), control := control, updatedAt := cmd.now))
  }

  function DecideAuthorization(row: Row, cmd: Command, target: Status, reason: string): Result<Row, Error>
    requires row.control.Authorization?
  {
    if !CanTransition(RELEASE_AUTHORIZATION_TRANSITIONS, row.status, target) then Err(InvalidTransition)
    else if !IsOperatorRole(cmd.role) then Err(Forbidden)
    else
      var control := if target == Review then Authorization(cmd.actor, "", "") else row.control;
      if target == Approved || target == Restricted || target == Revoked || target == Draft then
        if !IsReviewerRole(cmd.role) then Err(Forbidden)
        else if control.submittedBy != "" && cmd.actor == control.submittedBy then Err(SeparationOfDuty)
        else
          var reviewed := control.(reviewedBy := cmd.actor, reviewReason := TrimSpace(reason));
          Ok(row.(status := target, control := reviewed, updatedAt := cmd.now))
      else Ok(row.(status := target, control := control, updatedAt := cmd.now))
  }

  function DecideCertificate(row: Row, cmd: Command, target: Status): Result<Row, Error>
    requires row.control.Certificate?
  {
    if !CanTransition(CERTIFICATE_RECORD_TRANSITIONS, row.status, target) then Err(InvalidTransition)
    else if !IsOperatorRole(cmd.role) then Err(Forbidden)
    else if target == Valid || target == Revoked then
      if !IsReviewerRole(cmd.role) then Err(Forbidden)
      else if cmd.actor == row.control.preparedBy then Err(SeparationOfDuty)
      else Ok(row.(status := target, control := row.control.(verifiedBy := cmd.actor), updatedAt := cmd.now))
    else Ok(row.(status := target, updatedAt := cmd.now))
  }

  function DecidePlain(graph: Graph, row: Row, cmd: Command, target: Status): Result<Row, Error> {
    if !CanTransition(graph, row.status, target) then Err(InvalidTransition)
    else Ok(row.(status := target, updatedAt := cmd.now))
  }

  function DecideTransition(row: Row, cmd: Command, target: Status, reason: string): Result<Row, Error> {
    match row.control
    case Part => DecidePlain(AIRCRAFT_PART_TRANSITIONS, row, cmd, target)
    case Task => DecidePlain(INSPECTION_TASK_TRANSITIONS, row, cmd, target)
    case Certificate(_, _) => DecideCertificate(row, cmd, target)
    case Authorization(_, _, _) => DecideAuthorization(row, cmd, target, reason)
  }

  /** The guards of a request evaluated on a row, and the row it would store or remove. */
  function Decide(row: Row, cmd: Command): Result<Row, Error> {
    match cmd.op
    case UpdateFields(input) => DecideUpdate(row, cmd, input)
    case MoveTo(target, reason) => DecideTransition(row, cmd, target, reason)
    case Remove => if IsLocked(row) then Err(Locked) else Ok(row.(deleted := true))
  }

  function NewRow(entity: Entity, input: CreateInput): Row {
    var control :=
      match entity
      case AircraftPart => Part
      case InspectionTask => Task
      case CertificateRecord => Certificate(input.actor, "")
      case ReleaseAuthorization => Authorization("", "", "");
    Row(ToUpper(TrimSpace(input.code)), Normalized(input.fields), InitialStatus(entity), 1, input.now, control, false)
  }

  /** What a service call never touches, and where its target status comes from. */
  lemma DecideFrame(row: Row, cmd: Command)
    requires Decide(row, cmd).Ok? && !cmd.op.Remove?
    ensures var item := Decide(row, cmd).value;
      && item.code == row.code && item.version == row.version && item.deleted == row.deleted
      && (item.control.Part? <==> row.control.Part?)
      && (item.control.Task? <==> row.control.Task?)
      && (item.control.Certificate? <==> row.control.Certificate?)
      && (item.control.Authorization? <==> row.control.Authorization?)
      && (cmd.op.UpdateFields? ==> item.status == row.status)
      && (cmd.op.MoveTo? ==> item.fields == row.fields && item.status == cmd.op.target)
  {
  }

  lemma NormalizedIsIdempotent(f: Fields)
    ensures Normalized(Normalized(f)) == Normalized(f)
  {
    TrimSpaceIsIdempotent(f.name);
    TrimSpaceIsIdempotent(f.description);
    TrimSpaceIsIdempotent(f.facility);
    TrimSpaceIsIdempotent(f.owner);
    TrimSpaceIsIdempotent(f.category);
    TrimSpaceIsIdempotent(f.metricUnit);
    TrimSpaceIsIdempotent(f.evidence);
    CodeIsIdempotent(f.relatedCode);
  }

  /** Sending back the fields of an accepted edit is accepted again and leaves them as they are. */
  lemma ResendingKeepsFields(row: Row, input: Fields, cmd: Command, again: Command)
    requires cmd.op == UpdateFields(input) && Decide(row, cmd).Ok?
    requires again.op == UpdateFields(Decide(row, cmd).value.fields)
    ensures Decide(Decide(row, cmd).value, again).Ok?
    ensures Decide(Decide(row, cmd).value, again).value.fields == Decide(row, cmd).value.fields
  {
    NormalizedIsIdempotent(input);
    TrimSpaceIsIdempotent(input.name);
    TrimSpaceIsIdempotent(input.facility);
    TrimSpaceIsIdempotent(input.owner);
  }
}
