/**
 * What the database holds after a call that another call has not disturbed: every column of the
 * row, the revision and the audit row, spelled out. With Serializability this describes every run.
 */
module Effects {
  import opened Wrappers
  import opened Text
  import opened Constants
  import opened Model
  import opened Services
  import opened Contracts
  import opened Repository
  import opened History
  import opened Protocol
  import opened Safety
  import opened Serializability

  /** Certificates and authorizations keep revisions and write their audit rows in the transaction. */
  predicate KeepsRevisions(entity: Entity) {
    entity == CertificateRecord || entity == ReleaseAuthorization
  }

  /** Deleted rows keep their codes. */
  predicate CodeInUse(db: Tables, entity: Entity, code: string) {
    exists key :: key in db.rows && key.entity == entity && db.rows[key].code == code
  }

  predicate Tells(a: Audit, key: Key, actor: string, requestId: string, action: Action,
                  before: Status, after: Status, detail: string) {
    && a.key == key && Names(a.actor, actor, "system") && Names(a.requestId, requestId, "untracked")
    && a.action == action && a.before == before && a.after == after && a.detail == detail
  }

  /** One row has been stored, with its revision and its audit row where the entity has them there. */
  ghost predicate StoredOne(db: Tables, after: Tables, key: Key, actor: string, requestId: string, action: Action,
                            before: Status, reason: string, detail: string) {
    && key in after.rows && after.rows == db.rows[key := after.rows[key]]
    && var item := after.rows[key];
      if KeepsRevisions(key.entity) then
        && after.revisions == db.revisions + [Revision(key, item.version, item.status, item.fields.evidence,
                                                       actor, requestId, action, reason)]
        && |after.audits| == |db.audits| + 1 && after.audits[..|db.audits|] == db.audits
        && Tells(after.audits[|db.audits|], key, actor, requestId, action, before, item.status, detail)
      else after.revisions == db.revisions && after.audits == db.audits
  }

  lemma StoredTells(db: Tables, key: Key, item: Row, stamp: Stamp)
    ensures Stored(db, key, item, stamp).rows == db.rows[key := item]
    ensures StoredOne(db, Stored(db, key, item, stamp), key, stamp.actor, stamp.requestId, stamp.action,
                      stamp.before, stamp.reason, stamp.detail)
  {
    AuditRowsTell(key, item.status, stamp);
  }

  lemma ChangeEffect(db: Tables, key: Key, cmd: Command)
    requires Legal(db, Changed(key, cmd)) && ControlMatches(key.entity, db.rows[key].control)
    ensures var row, after := db.rows[key], SerialStep(db, Changed(key, cmd));
      && Refusal(key.entity, row, cmd) == None
      && StoredOne(db, after, key, cmd.actor, cmd.requestId, ActionTold(cmd.op), row.status,
                   ChangeReason(key.entity, cmd.op), ChangeDetail(key.entity, cmd.op))
      && after.rows[key].version == row.version + 1 && Became(row, after.rows[key], cmd)
  {
    var row := db.rows[key];
    DecisionsKeepPromise(key.entity, row, cmd);
    ChangeStampTells(key.entity, cmd, row.status);
    StoredTells(db, key, NextRow(row, cmd), ChangeStamp(key.entity, cmd, row.status));
    hide Decide, Stored, ChangeStamp, Refusal, Tells, ChangeReason, ChangeDetail, Became;
  }

  lemma BirthEffect(db: Tables, key: Key, input: CreateInput)
    requires Legal(db, Born(key, input))
    ensures var after := SerialStep(db, Born(key, input));
      && CompleteInput(input) && key !in db.rows && key in after.rows
      && !CodeInUse(db, key.entity, ToUpper(TrimSpace(input.code)))
      && StoredOne(db, after, key, input.actor, input.requestId, CreateAction, Other(""),
                   BirthReason(key.entity), BirthDetail(key.entity))
      && NewlyBorn(key.entity, after.rows[key], input)
  {
    BirthsKeepPromise(key.entity, input);
    CreateStampTells(key.entity, input);
    StoredTells(db, key, NewRow(key.entity, input), CreateStamp(key.entity, input));
    hide Stored, CreateStamp, CompleteInput, ValidBusinessFields, Tells, NewlyBorn;
  }

  lemma RemovalEffect(db: Tables, key: Key)
    requires Legal(db, Removed(key))
    ensures key in db.rows && !db.rows[key].deleted
    ensures SerialStep(db, Removed(key))
         == Tables(db.rows[key := db.rows[key].(deleted := true)], db.revisions, db.audits)
  {
  }

  /** The audit row a call owes after its commit tells the call, and the status its guards saw. */
  lemma LateAuditTells(req: Request, snapshot: Row)
    ensures LateAudit(req, snapshot)
         == LateRow(req.key, req.command.actor, req.command.requestId, ActionTold(req.command.op),
                    snapshot.status, StatusTold(req.command.op, snapshot.status),
                    ChangeDetail(req.key.entity, req.command.op))
  {
    ChangeStampTells(req.key.entity, req.command, snapshot.status);
    LateAuditRowsTell(req.key, StatusTold(req.command.op, snapshot.status),
                      ChangeStamp(req.key.entity, req.command, snapshot.status));
    hide ChangeStamp, LateRow, ChangeDetail;
  }

  // ---------- Transactions ----------

  predicate LiveAt(db: Tables, key: Key) {
    key in db.rows && !db.rows[key].deleted
  }

  /** Why the update transaction of a safe database fails. */
  function WriteRefusal(db: Tables, key: Key, expected: nat, fault: Fault): Option<Error> {
    if fault == RowWriteFails then Some(StorageFailure)
    else if !(LiveAt(db, key) && db.rows[key].version == expected) then Some(VersionConflict)
    else if KeepsRevisions(key.entity) && fault != NoFault then Some(StorageFailure)
    else None
  }

  function RemovalRefusal(db: Tables, key: Key, fault: Fault): Option<Error> {
    if fault == RowWriteFails then Some(StorageFailure) else if !LiveAt(db, key) then Some(NotFound) else None
  }

  /** Why a creation on a safe database fails. */
  function CreateRefusal(db: Tables, key: Key, input: CreateInput, fault: Fault): Option<Error> {
    if !CompleteInput(input) then Some(InvalidInput)
    else if fault == RowWriteFails || key in db.rows || CodeInUse(db, key.entity, ToUpper(TrimSpace(input.code)))
    then Some(StorageFailure)
    else if KeepsRevisions(key.entity) && fault != NoFault then Some(StorageFailure)
    else None
  }

  /** The answer of a commit, its guards tried on the snapshot and its writes on the database. */
  function CommitRefusal(db: Tables, req: Request, snapshot: Row, fault: Fault): Option<Error> {
    match Refusal(req.key.entity, snapshot, req.command)
    case Some(e) => Some(e)
    case None =>
      if req.command.op.Remove? then RemovalRefusal(db, req.key, fault)
      else WriteRefusal(db, req.key, req.expected, fault)
  }

  /**
   * A commit on a safe database fails exactly when it has to, with the error it has to give, and
   * otherwise leaves the row, the revision and the audit row the call asks for and nothing else.
   */
  lemma CommitsKeepPromise(db: Tables, req: Request, snapshot: Row, fault: Fault)
    requires DatabaseSafe(db) && ProgressSafe(db, Loaded(req, snapshot))
    ensures var r := CommitResult(db, req, snapshot, fault);
      if r.Err? then CommitRefusal(db, req, snapshot, fault) == Some(r.error)
      else CommitRefusal(db, req, snapshot, fault) == None
    ensures CommitResult(db, req, snapshot, fault).Ok? && req.command.op.Remove? ==>
      && req.key in db.rows
      && CommitResult(db, req, snapshot, fault).value
         == Tables(db.rows[req.key := db.rows[req.key].(deleted := true)], db.revisions, db.audits)
    ensures CommitResult(db, req, snapshot, fault).Ok? && !req.command.op.Remove? ==>
      var after, cmd := CommitResult(db, req, snapshot, fault).value, req.command;
      && StoredOne(db, after, req.key, cmd.actor, cmd.requestId, ActionTold(cmd.op), snapshot.status,
                   ChangeReason(req.key.entity, cmd.op), ChangeDetail(req.key.entity, cmd.op))
      && after.rows[req.key].version == req.expected + 1 && Became(snapshot, after.rows[req.key], cmd)
  {
    var key, cmd := req.key, req.command;
    DecisionsKeepPromise(key.entity, snapshot, cmd);
    assert RecordSafe(db, key);
    if Versioned(key.entity) && key in db.rows {
      NextVersionIsFree(db, key, db.rows[key].version + 1);
    }
    hide RecordSafe, DatabaseSafe, Decide, ChangeStamp, Refusal, Stored, Chain, RevisionsOf, ChangeAudits,
         Tells, ChangeReason, ChangeDetail, Became;
    if CommitResult(db, req, snapshot, fault).Ok? && !cmd.op.Remove? {
      CommitWrites(db, req, snapshot, fault);
      ChangeStampTells(key.entity, cmd, snapshot.status);
      StoredTells(db, key, Written(db, req, Decide(snapshot, cmd).value),
                  ChangeStamp(key.entity, cmd, snapshot.status));
    }
  }

  lemma CreationsKeepPromise(db: Tables, key: Key, input: CreateInput, fault: Fault)
    requires DatabaseSafe(db)
    ensures var r := CreateRow(db, key, input, fault);
      if r.Err? then CreateRefusal(db, key, input, fault) == Some(r.error)
      else
        && CreateRefusal(db, key, input, fault) == None
        && Legal(db, Born(key, input)) && r.value == SerialStep(db, Born(key, input))
  {
    BirthsKeepPromise(key.entity, input);
    assert RecordSafe(db, key);
    if Versioned(key.entity) && key !in db.rows {
      NextVersionIsFree(db, key, 1);
    }
    hide RecordSafe, CompleteInput, ValidBusinessFields, Stored, CreateStamp;
  }
}
