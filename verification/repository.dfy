/** The database tables and the transactions the repositories run on them. */
module Repository {
  import opened Wrappers
  import opened Text
  import opened Constants
  import opened Model

  /** Rows by key, and the two append-only tables in insertion order. */
  datatype Tables = Tables(rows: map<Key, Row>, revisions: seq<Revision>, audits: seq<Audit>)

  /** Which database write of a request fails, if any. */
  datatype Fault = NoFault | RowWriteFails | RevisionWriteFails | AuditWriteFails

  /** Who changes a row, and the texts stored beside the change. */
  datatype Stamp = Stamp(actor: string, requestId: string, action: Action, before: Status, reason: string,
                         detail: string)

  predicate Live(rows: map<Key, Row>, key: Key) {
    key in rows && !rows[key].deleted
  }

  function RevisionsOf(log: seq<Revision>, key: Key): seq<Revision> {
    if log == [] then [] else
      var last := log[|log| - 1];
      var rest := RevisionsOf(log[..|log| - 1], key);
      if last.key == key then rest + [last] else rest
  }

  /** The audit rows of a record except those of its deletion. */
  function ChangeAudits(log: seq<Audit>, key: Key): seq<Audit> {
    if log == [] then [] else
      var last := log[|log| - 1];
      var rest := ChangeAudits(log[..|log| - 1], key);
      if last.key == key && last.action != DeleteAction then rest + [last] else rest
  }

  function OrElse(s: string, default: string): string {
    if TrimSpace(s) == "" then default else s
  }

  function RevisionFor(key: Key, item: Row, stamp: Stamp): Revision {
    Revision(key, item.version, item.status, item.fields.evidence, stamp.actor, stamp.requestId, stamp.action,
             stamp.reason)
  }

  /** Audit rows of the transactions; a blank actor or request id is replaced. */
  function AuditFor(key: Key, after: Status, stamp: Stamp): Audit {
    Audit(key, OrElse(stamp.actor, "system"), OrElse(stamp.requestId, "untracked"), stamp.action, stamp.before, after,
          stamp.detail)
  }

  /** Audit rows written after a commit: only an empty actor or request id is replaced. */
  function LateAuditFor(key: Key, after: Status, stamp: Stamp): Audit {
    Audit(key, if stamp.actor == "" then "system" else stamp.actor,
          if stamp.requestId == "" then "untracked" else stamp.requestId,
          stamp.action, stamp.before, after, stamp.detail)
  }

  function CreateStamp(entity: Entity, input: CreateInput): Stamp {
    var (reason, detail) :=
      match entity
      case AircraftPart => ("", "created 航空部件")
      case InspectionTask => ("", "created 检查任务")
      case CertificateRecord => ("certificate prepared", "certificate version 1 prepared")
      case ReleaseAuthorization => ("authorization drafted", "authorization version 1 drafted");
    Stamp(input.actor, input.requestId, CreateAction, Other(""), reason, detail)
  }

  function ActionOf(op: Op): Action {
    match op
    case UpdateFields(_) => UpdateAction
    case MoveTo(_, _) => TransitionAction
    case Remove => DeleteAction
  }

  function UpdateNote(entity: Entity): string {
    match entity
    case CertificateRecord => "draft certificate fields updated"
    case ReleaseAuthorization => "draft authorization fields updated"
    case _ => "updated business fields"
  }

  function RevisionReason(entity: Entity, op: Op): string {
    match op
    case UpdateFields(_) => UpdateNote(entity)
    case MoveTo(_, reason) => TrimSpace(reason)
    case Remove => ""
  }

  function DeletionNote(entity: Entity): string {
    match entity
    case AircraftPart => "soft deleted 航空部件"
    case InspectionTask => "soft deleted 检查任务"
    case CertificateRecord => "soft deleted 证书记录"
    case ReleaseAuthorization => "soft deleted 放行授权"
  }

  /** Parts and tasks audit the reason of a transition as it came. */
  function AuditDetail(entity: Entity, op: Op): string {
    match op
    case UpdateFields(_) => UpdateNote(entity)
    case MoveTo(_, reason) => if Versioned(entity) then TrimSpace(reason) else reason
    case Remove => DeletionNote(entity)
  }

  function ChangeStamp(entity: Entity, cmd: Command, before: Status): Stamp {
    Stamp(cmd.actor, cmd.requestId, ActionOf(cmd.op), before, RevisionReason(entity, cmd.op),
          AuditDetail(entity, cmd.op))
  }

  /** The row, and for a versioned entity its revision and audit row, stored together. */
  function Stored(db: Tables, key: Key, item: Row, stamp: Stamp): Tables {
    var rows := db.rows[key := item];
    if Versioned(key.entity) then
      Tables(rows, db.revisions + [RevisionFor(key, item, stamp)], db.audits + [AuditFor(key, item.status, stamp)])
    else db.(rows := rows)
  }

  /** The unique index on (record, version) of a revision table. */
  predicate IndexTaken(log: seq<Revision>, key: Key, version: nat) {
    exists i :: 0 <= i < |log| && log[i].key == key && log[i].version == version
  }

  /** The unique index on the code column; soft-deleted rows keep their entry. */
  predicate CodeTaken(rows: map<Key, Row>, entity: Entity, code: string) {
    exists key :: key in rows && key.entity == entity && rows[key].code == code
  }

  /** One conditional UPDATE of a live row at an expected version; code and deletion mark are not written. */
  function OptimisticUpdate(rows: map<Key, Row>, key: Key, expected: nat, item: Row): Result<map<Key, Row>, Error> {
    if Live(rows, key) && rows[key].version == expected
    then Ok(rows[key := item.(code := rows[key].code, deleted := false)])
    else Err(VersionConflict)
  }

  /** The update transaction: all of its writes, or none. */
  function UpdateVersion(db: Tables, key: Key, expected: nat, item: Row, stamp: Stamp,
                         fault: Fault): Result<Tables, Error>
  {
    if fault == RowWriteFails then Err(StorageFailure)
    else
      match OptimisticUpdate(db.rows, key, expected, item)
      case Err(e) => Err(e)
      case Ok(rows) =>
        if !Versioned(key.entity) then Ok(db.(rows := rows))
        else if fault != NoFault || IndexTaken(db.revisions, key, item.version) then Err(StorageFailure)
        else Ok(Stored(db, key, rows[key], stamp))
  }

  /** The create transaction; the database has picked the key. */
  function CreateVersion(db: Tables, key: Key, item: Row, stamp: Stamp, fault: Fault): Result<Tables, Error> {
    if fault == RowWriteFails || key in db.rows || CodeTaken(db.rows, key.entity, item.code) then Err(StorageFailure)
    else if Versioned(key.entity) && (fault != NoFault || IndexTaken(db.revisions, key, item.version))
    then Err(StorageFailure)
    else Ok(Stored(db, key, item, stamp))
  }

  function SoftDelete(db: Tables, key: Key, fault: Fault): Result<Tables, Error> {
    if fault == RowWriteFails then Err(StorageFailure)
    else if !Live(db.rows, key) then Err(NotFound)
    else Ok(db.(rows := db.rows[key := db.rows[key].(deleted := true)]))
  }

  lemma RevisionsOfAppend(log: seq<Revision>, r: Revision, key: Key)
    ensures RevisionsOf(log + [r], key) == RevisionsOf(log, key) + (if r.key == key then [r] else [])
  {
    assert (log + [r])[..|log|] == log;
  }

  lemma ChangeAuditsAppend(log: seq<Audit>, a: Audit, key: Key)
    ensures ChangeAudits(log + [a], key)
         == ChangeAudits(log, key) + (if a.key == key && a.action != DeleteAction then [a] else [])
  {
    assert (log + [a])[..|log|] == log;
  }

  /** RevisionsOf holds exactly the entries of its record, in both directions. */
  lemma {:induction false} RevisionsOfMembers(log: seq<Revision>, key: Key)
    ensures forall r :: r in RevisionsOf(log, key) <==> r in log && r.key == key
  {
    if log == [] {
    } else {
      var init, last := log[..|log| - 1], log[|log| - 1];
      assert log == init + [last];
      RevisionsOfMembers(init, key);
      assert forall r :: r in log <==> r in init || r == last;
    }
  }
}
