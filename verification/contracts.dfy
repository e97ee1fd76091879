/**
 * What the calls of the services promise, case by case, in constructors and literal texts: the
 * statuses a record may move between, who may move it, which error a refused call answers with,
 * which input ends up in which column, and what is written into revisions and audit rows. None of
 * it is said through the functions that decide; of the program only trimming and upper case are
 * used, whose meaning stands in text.dfy. The lemmas at the end compare the two.
 */
module Contracts {
  import opened Wrappers
  import opened Text
  import opened Constants
  import opened Model
  import opened Services
  import opened Repository

  // ---------- Movement ----------

  /** The transitions of the four entities. */
  predicate Edge(entity: Entity, from: Status, to: Status) {
    match entity
    case AircraftPart =>
      || (from == Received && to in {Inspection, Hold})
      || (from == Inspection && to in {Hold, Released, Received})
      || (from == Hold && to in {Released, Retired, Inspection})
      || (from == Released && to in {Retired, Hold})
      || (from == Retired && to == Released)
    case InspectionTask =>
      || (from == Planned && to == Running)
      || (from == Running && to in {Passed, Failed})
      || (from == Failed && to == Running)
    case CertificateRecord =>
      || (from == Draft && to == Valid)
      || (from == Valid && to in {Expired, Revoked})
      || (from == Expired && to == Revoked)
    case ReleaseAuthorization =>
      || (from == Draft && to == Review)
      || (from == Review && to in {Approved, Restricted, Draft})
      || (from == Approved && to in {Restricted, Revoked})
      || (from == Restricted && to == Revoked)
  }

  /** Transitions of certificates and authorizations take more than a viewer, and decisions take a reviewer. */
  predicate RoleAllows(entity: Entity, role: Role, target: Status) {
    match entity
    case CertificateRecord => role != Viewer && (target in {Valid, Revoked} ==> role in {Reviewer, Admin})
    case ReleaseAuthorization =>
      role != Viewer && (target in {Approved, Restricted, Revoked, Draft} ==> role in {Reviewer, Admin})
    case _ => true
  }

  /** Who prepared a certificate may not publish or revoke it; who submitted an authorization may not decide on it. */
  predicate DutiesSeparate(control: Control, actor: string, target: Status) {
    match control
    case Certificate(preparedBy, _) => target in {Valid, Revoked} ==> actor != preparedBy
    case Authorization(submittedBy, _, _) =>
      target in {Approved, Restricted, Revoked, Draft} && submittedBy != "" ==> actor != submittedBy
    case _ => true
  }

  // ---------- Refusals ----------

  /** The error the guards answer with: of several that apply, the first in this order. */
  function Refusal(entity: Entity, row: Row, cmd: Command): Option<Error> {
    match cmd.op
    case UpdateFields(input) =>
      if entity in {CertificateRecord, ReleaseAuthorization} && row.status != Draft then Some(Locked)
      else if HasText(row.code) && HasText(input.name) && HasText(input.facility) && HasText(input.owner) then None
      else Some(InvalidInput)
    case MoveTo(target, _) =>
      if !Edge(entity, row.status, target) then Some(InvalidTransition)
      else if !RoleAllows(entity, cmd.role, target) then Some(Forbidden)
      else if !DutiesSeparate(row.control, cmd.actor, target) then Some(SeparationOfDuty)
      else None
    case Remove =>
      if entity in {CertificateRecord, ReleaseAuthorization} && row.status != Draft then Some(Locked) else None
  }

  // ---------- Columns ----------

  /** Each business field is stored from the input field of the same name. */
  predicate StoresFields(stored: Fields, input: Fields) {
    && stored.name == TrimSpace(input.name)
    && stored.description == TrimSpace(input.description)
    && stored.facility == TrimSpace(input.facility)
    && stored.owner == TrimSpace(input.owner)
    && stored.category == TrimSpace(input.category)
    && stored.riskLevel == input.riskLevel
    && stored.metricValue == input.metricValue
    && stored.metricUnit == TrimSpace(input.metricUnit)
    && stored.effectiveAt == input.effectiveAt
    && stored.evidence == TrimSpace(input.evidence)
    && stored.relatedCode == ToUpper(TrimSpace(input.relatedCode))
  }

  /** An accepted edit, apart from the version. Whoever edits a certificate becomes its preparer. */
  predicate Edited(before: Row, after: Row, input: Fields, actor: string, now: int) {
    && StoresFields(after.fields, input)
    && after.code == before.code && after.status == before.status && after.deleted == before.deleted
    && after.updatedAt == now
    && after.control == if before.control.Certificate? then Certificate(actor, "") else before.control
  }

  /** An accepted transition, apart from the version. */
  predicate Moved(before: Row, after: Row, target: Status, reason: string, actor: string, now: int) {
    && after.code == before.code && after.fields == before.fields && after.deleted == before.deleted
    && after.status == target && after.updatedAt == now
    && after.control ==
         match before.control
         case Part => Part
         case Task => Task
         case Certificate(preparedBy, verifiedBy) =>
           Certificate(preparedBy, if target in {Valid, Revoked} then actor else verifiedBy)
         case Authorization(submittedBy, reviewedBy, reviewReason) =>
           if target == Review then Authorization(actor, "", "")
           else Authorization(submittedBy, actor, TrimSpace(reason))
  }

  /** What a call makes of a row, apart from the version. */
  predicate Became(before: Row, after: Row, cmd: Command) {
    match cmd.op
    case UpdateFields(input) => Edited(before, after, input, cmd.actor, cmd.now)
    case MoveTo(target, reason) => Moved(before, after, target, reason, cmd.actor, cmd.now)
    case Remove => after == before.(deleted := true)
  }

  /** The row of an accepted creation. */
  predicate NewlyBorn(entity: Entity, row: Row, input: CreateInput) {
    && row.code == ToUpper(TrimSpace(input.code))
    && StoresFields(row.fields, input.fields)
    && row.version == 1 && row.updatedAt == input.now && !row.deleted
    && match entity
       case AircraftPart => row.status == Received && row.control == Part
       case InspectionTask => row.status == Planned && row.control == Task
       case CertificateRecord => row.status == Draft && row.control == Certificate(input.actor, "")
       case ReleaseAuthorization => row.status == Draft && row.control == Authorization("", "", "")
  }

  predicate CompleteInput(input: CreateInput) {
    HasText(input.code) && HasText(input.fields.name) && HasText(input.fields.facility) && HasText(input.fields.owner)
  }

  // ---------- Texts ----------

  /** A name in an audit row of a transaction: the one given, or the substitute for a blank one. */
  predicate Names(stored: string, given: string, substitute: string) {
    if HasText(given) then stored == given else stored == substitute
  }

  function EmptyOr(given: string, substitute: string): string {
    if given == "" then substitute else given
  }

  /** An audit row written after a commit. */
  function LateRow(key: Key, actor: string, requestId: string, action: Action,
                   before: Status, after: Status, detail: string): Audit {
    Audit(key, EmptyOr(actor, "system"), EmptyOr(requestId, "untracked"), action, before, after, detail)
  }

  /** The state an audit row names as the one after a call. */
  function StatusTold(op: Op, before: Status): Status {
    match op
    case UpdateFields(_) => before
    case MoveTo(target, _) => target
    case Remove => Other("deleted")
  }

  function BirthReason(entity: Entity): string {
    if entity == CertificateRecord then "certificate prepared" else "authorization drafted"
  }

  function BirthDetail(entity: Entity): string {
    match entity
    case AircraftPart => "created 航空部件"
    case InspectionTask => "created 检查任务"
    case CertificateRecord => "certificate version 1 prepared"
    case ReleaseAuthorization => "authorization version 1 drafted"
  }

  /** The reason in the revision of a certificate or an authorization. */
  function ChangeReason(entity: Entity, op: Op): string {
    match op
    case UpdateFields(_) =>
      if entity == CertificateRecord then "draft certificate fields updated" else "draft authorization fields updated"
    case MoveTo(_, reason) => TrimSpace(reason)
    case Remove => ""
  }

  function ChangeDetail(entity: Entity, op: Op): string {
    match op
    case UpdateFields(_) =>
      (match entity
       case CertificateRecord => "draft certificate fields updated"
       case ReleaseAuthorization => "draft authorization fields updated"
       case _ => "updated business fields")
    case MoveTo(_, reason) => if entity in {CertificateRecord, ReleaseAuthorization} then TrimSpace(reason) else reason
    case Remove =>
      match entity
      case AircraftPart => "soft deleted 航空部件"
      case InspectionTask => "soft deleted 检查任务"
      case CertificateRecord => "soft deleted 证书记录"
      case ReleaseAuthorization => "soft deleted 放行授权"
  }

  function ActionTold(op: Op): Action {
    if op.UpdateFields? then UpdateAction else if op.MoveTo? then TransitionAction else DeleteAction
  }

  // ---------- The services keep the promises ----------

  lemma PartEdges(from: Status, to: Status)
    ensures CanTransition(AIRCRAFT_PART_TRANSITIONS, from, to) <==> Edge(AircraftPart, from, to)
  {
  }

  lemma TaskEdges(from: Status, to: Status)
    ensures CanTransition(INSPECTION_TASK_TRANSITIONS, from, to) <==> Edge(InspectionTask, from, to)
  {
  }

  lemma CertificateEdges(from: Status, to: Status)
    ensures CanTransition(CERTIFICATE_RECORD_TRANSITIONS, from, to) <==> Edge(CertificateRecord, from, to)
  {
  }

  lemma AuthorizationEdges(from: Status, to: Status)
    ensures CanTransition(RELEASE_AUTHORIZATION_TRANSITIONS, from, to) <==> Edge(ReleaseAuthorization, from, to)
  {
  }

  lemma GraphsHaveTheseEdges(entity: Entity, from: Status, to: Status)
    ensures CanTransition(GraphOf(entity), from, to) <==> Edge(entity, from, to)
  {
    hide CanTransition, Edge;
    PartEdges(from, to);
    TaskEdges(from, to);
    CertificateEdges(from, to);
    AuthorizationEdges(from, to);
  }

  lemma FieldsAreStored(input: Fields)
    ensures StoresFields(Normalized(input), input)
  {
  }

  lemma CompleteIff(code: string, f: Fields)
    ensures ValidBusinessFields(code, f) <==>
      HasText(code) && HasText(f.name) && HasText(f.facility) && HasText(f.owner)
  {
    BlankIff(code);
    BlankIff(f.name);
    BlankIff(f.facility);
    BlankIff(f.owner);
  }

  lemma EditsKeepPromise(entity: Entity, row: Row, cmd: Command)
    requires ControlMatches(entity, row.control) && cmd.op.UpdateFields?
    ensures var r := Decide(row, cmd);
      if r.Err? then Refusal(entity, row, cmd) == Some(r.error)
      else Refusal(entity, row, cmd) == None && Became(row, r.value, cmd)
  {
    hide ValidBusinessFields, Normalized, HasText, StoresFields;
    CompleteIff(row.code, cmd.op.fields);
    FieldsAreStored(cmd.op.fields);
  }

  lemma AuthorizationTargets(from: Status, to: Status)
    requires Edge(ReleaseAuthorization, from, to)
    ensures to in {Review, Approved, Restricted, Revoked, Draft}
  {
  }

  lemma AuthorizationMovesKeepPromise(row: Row, cmd: Command)
    requires row.control.Authorization? && cmd.op.MoveTo?
    ensures var r := Decide(row, cmd);
      if r.Err? then Refusal(ReleaseAuthorization, row, cmd) == Some(r.error)
      else Refusal(ReleaseAuthorization, row, cmd) == None && Became(row, r.value, cmd)
  {
    hide CanTransition, Edge, TrimSpace, DecideUpdate;
    GraphsHaveTheseEdges(ReleaseAuthorization, row.status, cmd.op.target);
    if Edge(ReleaseAuthorization, row.status, cmd.op.target) {
      AuthorizationTargets(row.status, cmd.op.target);
    }
  }

  lemma CertificateMovesKeepPromise(row: Row, cmd: Command)
    requires row.control.Certificate? && cmd.op.MoveTo?
    ensures var r := Decide(row, cmd);
      if r.Err? then Refusal(CertificateRecord, row, cmd) == Some(r.error)
      else Refusal(CertificateRecord, row, cmd) == None && Became(row, r.value, cmd)
  {
    hide CanTransition, Edge, DecideUpdate;
    GraphsHaveTheseEdges(CertificateRecord, row.status, cmd.op.target);
  }

  lemma PlainMovesKeepPromise(entity: Entity, row: Row, cmd: Command)
    requires entity in {AircraftPart, InspectionTask} && ControlMatches(entity, row.control) && cmd.op.MoveTo?
    ensures var r := Decide(row, cmd);
      if r.Err? then Refusal(entity, row, cmd) == Some(r.error)
      else Refusal(entity, row, cmd) == None && Became(row, r.value, cmd)
  {
    hide CanTransition, Edge, DecideUpdate;
    GraphsHaveTheseEdges(entity, row.status, cmd.op.target);
  }

  lemma RemovalsKeepPromise(entity: Entity, row: Row, cmd: Command)
    requires ControlMatches(entity, row.control) && cmd.op.Remove?
    ensures var r := Decide(row, cmd);
      if r.Err? then Refusal(entity, row, cmd) == Some(r.error)
      else Refusal(entity, row, cmd) == None && Became(row, r.value, cmd)
  {
  }

  /**
   * For every entity, row and call: the guards refuse exactly what is to be refused, with the error
   * that is to be given, and what they let through becomes the row it is to become.
   */
  lemma DecisionsKeepPromise(entity: Entity, row: Row, cmd: Command)
    requires ControlMatches(entity, row.control)
    ensures var r := Decide(row, cmd);
      if r.Err? then Refusal(entity, row, cmd) == Some(r.error)
      else Refusal(entity, row, cmd) == None && Became(row, r.value, cmd)
  {
    hide Refusal, Became, DecideUpdate, DecideTransition;
    match cmd.op {
      case UpdateFields(_) => EditsKeepPromise(entity, row, cmd);
      case MoveTo(_, _) =>
        match entity {
          case CertificateRecord => CertificateMovesKeepPromise(row, cmd);
          case ReleaseAuthorization => AuthorizationMovesKeepPromise(row, cmd);
          case _ => PlainMovesKeepPromise(entity, row, cmd);
        }
      case Remove => RemovalsKeepPromise(entity, row, cmd);
    }
  }

  lemma BirthsKeepPromise(entity: Entity, input: CreateInput)
    ensures ValidBusinessFields(input.code, input.fields) <==> CompleteInput(input)
    ensures NewlyBorn(entity, NewRow(entity, input), input)
  {
    CompleteIff(input.code, input.fields);
    FieldsAreStored(input.fields);
    hide Normalized, StoresFields;
  }

  // ---------- The rows beside a change ----------

  lemma NamesAreStored(given: string, substitute: string)
    ensures Names(OrElse(given, substitute), given, substitute)
  {
    BlankIff(given);
  }

  lemma AuditRowsTell(key: Key, after: Status, stamp: Stamp)
    ensures var a := AuditFor(key, after, stamp);
      && Names(a.actor, stamp.actor, "system") && Names(a.requestId, stamp.requestId, "untracked")
      && a == Audit(key, a.actor, a.requestId, stamp.action, stamp.before, after, stamp.detail)
  {
    NamesAreStored(stamp.actor, "system");
    NamesAreStored(stamp.requestId, "untracked");
  }

  /** An audit row written after a commit replaces an empty name only, not one of white space. */
  lemma LateAuditRowsTell(key: Key, after: Status, stamp: Stamp)
    ensures LateAuditFor(key, after, stamp)
         == LateRow(key, stamp.actor, stamp.requestId, stamp.action, stamp.before, after, stamp.detail)
  {
  }

  lemma ChangeStampTells(entity: Entity, cmd: Command, before: Status)
    ensures var reason := ChangeStamp(entity, cmd, before).reason;
      && ChangeStamp(entity, cmd, before)
         == Stamp(cmd.actor, cmd.requestId, ActionTold(cmd.op), before, reason, ChangeDetail(entity, cmd.op))
      && (entity in {CertificateRecord, ReleaseAuthorization} ==> reason == ChangeReason(entity, cmd.op))
  {
  }

  lemma CreateStampTells(entity: Entity, input: CreateInput)
    ensures var reason := CreateStamp(entity, input).reason;
      && CreateStamp(entity, input)
         == Stamp(input.actor, input.requestId, CreateAction, Other(""), reason, BirthDetail(entity))
      && (entity in {CertificateRecord, ReleaseAuthorization} ==> reason == BirthReason(entity))
  {
  }
}
