/** The stored entities, their revisions and audit rows, and what a request asks for. */
module Model {
  import opened Constants
  import opened Text

  datatype Entity = AircraftPart | InspectionTask | CertificateRecord | ReleaseAuthorization

  /** A table and the primary key of a row in it. */
  datatype Key = Key(entity: Entity, id: nat)

  /** The business fields a client may edit, the same for the four entities. */
  datatype Fields = Fields(
    name: string, description: string, facility: string, owner: string, category: string,
    riskLevel: string, metricValue: real, metricUnit: string, effectiveAt: int,
    evidence: string, relatedCode: string)

  /** The columns in which the four entities differ; the case tells the entity of a row. */
  datatype Control =
    | Part
    | Task
    | Certificate(preparedBy: string, verifiedBy: string)
    | Authorization(submittedBy: string, reviewedBy: string, reviewReason: string)

  datatype Row = Row(
    code: string, fields: Fields, status: Status, version: nat, updatedAt: int,
    control: Control, deleted: bool)

  datatype Action = CreateAction | UpdateAction | TransitionAction | DeleteAction | SeedAction

  datatype Revision = Revision(
    key: Key, version: nat, status: Status, evidence: string,
    actor: string, requestId: string, action: Action, reason: string)

  datatype Audit = Audit(
    key: Key, actor: string, requestId: string, action: Action,
    before: Status, after: Status, detail: string)

  datatype Error =
    | NotFound | Locked | InvalidInput | InvalidTransition | Forbidden | SeparationOfDuty
    | VersionConflict | StorageFailure

  datatype Op =
    | UpdateFields(fields: Fields)
    | MoveTo(target: Status, reason: string)
    | Remove

  /** One call of a service, without the version the client sends. */
  datatype Command = Command(op: Op, actor: string, role: Role, requestId: string, now: int)

  datatype Request = Request(key: Key, expected: nat, command: Command)

  datatype CreateInput = CreateInput(code: string, fields: Fields, actor: string, requestId: string, now: int)

  /** Only certificates and authorizations keep revisions. */
  predicate Versioned(entity: Entity) {
    entity == CertificateRecord || entity == ReleaseAuthorization
  }

  predicate ControlMatches(entity: Entity, control: Control) {
    match entity
    case AircraftPart => control.Part?
    case InspectionTask => control.Task?
    case CertificateRecord => control.Certificate?
    case ReleaseAuthorization => control.Authorization?
  }

  function InitialStatus(entity: Entity): Status {
    match entity
    case AircraftPart => Received
    case InspectionTask => Planned
    case CertificateRecord => Draft
    case ReleaseAuthorization => Draft
  }

  /** The fields as they are stored. */
  function Normalized(f: Fields): Fields {
    f.(name := TrimSpace(f.name), description := TrimSpace(f.description), facility := TrimSpace(f.facility),
       owner := TrimSpace(f.owner), category := TrimSpace(f.category), metricUnit := TrimSpace(f.metricUnit),
       evidence := TrimSpace(f.evidence), relatedCode := ToUpper(TrimSpace(f.relatedCode)))
  }

  predicate ValidBusinessFields(code: string, f: Fields) {
    TrimSpace(code) != "" && TrimSpace(f.name) != "" && TrimSpace(f.facility) != "" && TrimSpace(f.owner) != ""
  }
}
