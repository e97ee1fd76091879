/**
 * What the stored history of one record says: predicates on its row, its revisions and its
 * audit rows, and the proofs that one atomic service call keeps each of them.
 */
module History {
  import opened Text
  import opened Constants
  import opened Model
  import opened Services
  import opened Contracts
  import opened Repository

  type Revisions = seq<Revision>

  // ---------- Version chain ----------

  /** Revisions are numbered 1, 2, ... up to the row's version, and the last one shows the row. */
  ghost predicate Chain(row: Row, revs: Revisions) {
    && 1 <= row.version == |revs|
    && (forall i :: 0 <= i < |revs| ==> revs[i].version == i + 1)
    && revs[|revs| - 1].status == row.status
    && revs[|revs| - 1].evidence == row.fields.evidence
  }

  /** The record was made by a Create call and not by the seed functions. */
  ghost predicate BornByCreate(revs: Revisions) {
    revs != [] && revs[0].action == CreateAction
  }

  // ---------- Replay ----------

  datatype Replayed = Replayed(
    status: Status, version: nat, evidence: string, submittedBy: string, reviewedBy: string, reviewReason: string)

  /** Rebuilds an authorization from its revisions alone. */
  function Replay(revs: Revisions): Replayed {
    if revs == [] then Replayed(Draft, 0, "", "", "", "") else
      var r := revs[|revs| - 1];
      var v := Replay(revs[..|revs| - 1]).(status := r.status, version := r.version, evidence := r.evidence);
      if r.action != TransitionAction then v
      else if r.status == Review then v.(submittedBy := r.actor, reviewedBy := "", reviewReason := "")
      else v.(reviewedBy := r.actor, reviewReason := r.reason)
  }

  ghost predicate ReplayMatches(row: Row, revs: Revisions) {
    && row.control.Authorization?
    && Replay(revs) == Replayed(row.status, row.version, row.fields.evidence,
                                row.control.submittedBy, row.control.reviewedBy, row.control.reviewReason)
  }

  // ---------- Dual control ----------

  /** revs[j] is the last revision whose status is in the set. */
  ghost predicate IsLatest(revs: Revisions, j: int, statuses: set<Status>) {
    0 <= j < |revs| && revs[j].status in statuses && forall m :: j < m < |revs| ==> revs[m].status !in statuses
  }

  ghost predicate NoDraftAfter(revs: Revisions, j: int) {
    forall m :: j < m < |revs| && 0 <= m ==> revs[m].status != Draft
  }

  /** A revision in which a reviewer has spoken: any transition except the submission. */
  ghost predicate IsDecision(r: Revision) {
    r.action == TransitionAction && r.status in {Approved, Restricted, Revoked, Draft}
  }

  /**
   * A decision r taken after the revisions `before`: a submission exists, the latest one was
   * made by somebody else and carries the same evidence, and unless r sends the record back to
   * draft no draft lies between the two.
   */
  ghost predicate Independent(before: Revisions, r: Revision) {
    exists j :: && IsLatest(before, j, {Review})
                && before[j].action == TransitionAction
                && before[j].actor != r.actor
                && before[j].evidence == r.evidence
                && NoDraftAfter(before, j)
  }

  ghost predicate DualControl(revs: Revisions) {
    forall i :: 0 <= i < |revs| && IsDecision(revs[i]) ==> Independent(revs[..i], revs[i])
  }

  /** Outside draft, the row names the actor and holds the evidence of the latest submission. */
  ghost predicate Submitted(row: Row, revs: Revisions)
    requires row.control.Authorization?
  {
    exists j :: && IsLatest(revs, j, {Review})
                && revs[j].action == TransitionAction
                && revs[j].actor == row.control.submittedBy != ""
                && revs[j].evidence == row.fields.evidence
                && NoDraftAfter(revs, j)
  }

  ghost predicate AuthorizationHistory(row: Row, revs: Revisions) {
    && ReplayMatches(row, revs)
    && DualControl(revs)
    && (row.status != Draft ==> Submitted(row, revs))
  }

  // ---------- Certificate publication ----------

  /** The preparer wrote the latest draft; from publication on somebody else is the verifier. */
  ghost predicate CertificateHistory(row: Row, revs: Revisions) {
    && row.control.Certificate?
    && (exists j :: IsLatest(revs, j, {Draft}) && revs[j].actor == row.control.preparedBy)
    && (row.control.verifiedBy == "" <==> row.status == Draft)
    && (row.status != Draft ==>
          && row.control.verifiedBy != row.control.preparedBy
          && exists j :: IsLatest(revs, j, {Valid, Revoked}) && revs[j].actor == row.control.verifiedBy)
  }

  // ---------- Path and audit trail ----------

  /** One revision after another: an edit of a draft, or an edge of the graph with the evidence untouched. */
  ghost predicate Follows(entity: Entity, previous: Revision, next: Revision) {
    || (next.action == UpdateAction && previous.status == Draft && next.status == Draft)
    || (next.action == TransitionAction && Edge(entity, previous.status, next.status)
        && next.evidence == previous.evidence)
  }

  ghost predicate Path(entity: Entity, revs: Revisions) {
    && (revs != [] ==> revs[0].status == InitialStatus(entity))
    && forall i :: 0 < i < |revs| ==> Follows(entity, revs[i - 1], revs[i])
  }

  /** The audit row at a position tells what the revision there tells, and the status before it. */
  ghost predicate AuditAgrees(audits: seq<Audit>, revs: Revisions, i: nat)
    requires i < |revs| == |audits|
  {
    && audits[i].action == revs[i].action
    && audits[i].after == revs[i].status
    && audits[i].before == (if i == 0 then Other("") else revs[i - 1].status)
    && Names(audits[i].actor, revs[i].actor, "system")
    && Names(audits[i].requestId, revs[i].requestId, "untracked")
  }

  /** Audit rows and revisions correspond one to one and in order. */
  ghost predicate AuditsAgree(audits: seq<Audit>, revs: Revisions) {
    |audits| == |revs| && forall i :: 0 <= i < |revs| ==> AuditAgrees(audits, revs, i)
  }

  /** Everything above for one record. */
  ghost predicate RecordHistory(key: Key, row: Row, revs: Revisions, audits: seq<Audit>) {
    Versioned(key.entity) && BornByCreate(revs) ==>
      && Path(key.entity, revs)
      && AuditsAgree(audits, revs)
      && (key.entity == ReleaseAuthorization ==> AuthorizationHistory(row, revs))
      && (key.entity == CertificateRecord ==> CertificateHistory(row, revs))
  }

  lemma PlainRecordsHaveNoHistory(key: Key, row: Row, revs: Revisions, audits: seq<Audit>)
    requires !Versioned(key.entity)
    ensures RecordHistory(key, row, revs, audits)
  {
  }

  lemma DeletionKeepsHistory(key: Key, row: Row, revs: Revisions, audits: seq<Audit>)
    requires RecordHistory(key, row, revs, audits)
    ensures RecordHistory(key, row.(deleted := true), revs, audits)
  {
  }

  // ---------- One atomic call keeps them ----------

  /** The row an atomic call stores: the decision on the current row, one version later. */
  function NextRow(row: Row, cmd: Command): Row
    requires Decide(row, cmd).Ok?
  {
    Decide(row, cmd).value.(version := row.version + 1)
  }

  function NextRevision(key: Key, row: Row, cmd: Command): Revision
    requires Decide(row, cmd).Ok?
  {
    RevisionFor(key, NextRow(row, cmd), ChangeStamp(key.entity, cmd, row.status))
  }

  /** A call that changes a certificate or an authorization, on the row it is applied to. */
  ghost predicate Changes(key: Key, row: Row, cmd: Command) {
    && Versioned(key.entity)
    && ControlMatches(key.entity, row.control)
    && !cmd.op.Remove?
    && Decide(row, cmd).Ok?
  }

  /** The four effects an accepted call can have on an authorization. */
  lemma AuthorizationCall(row: Row, cmd: Command)
    requires row.control.Authorization? && !cmd.op.Remove? && Decide(row, cmd).Ok?
    ensures var item := Decide(row, cmd).value;
      && item.control.Authorization?
      && (cmd.op.UpdateFields? ==> row.status == Draft == item.status && item.control == row.control)
      && (cmd.op.MoveTo? ==> item.status == cmd.op.target && item.fields == row.fields)
      && (cmd.op.MoveTo? && cmd.op.target == Review ==>
            row.status == Draft && item.control == Authorization(cmd.actor, "", ""))
      && (cmd.op.MoveTo? && cmd.op.target != Review ==>
            && row.status != Draft && cmd.op.target in {Approved, Restricted, Revoked, Draft}
            && (row.control.submittedBy != "" ==> cmd.actor != row.control.submittedBy)
            && item.control == Authorization(row.control.submittedBy, cmd.actor, TrimSpace(cmd.op.reason)))
  {
  }

  /** The effects an accepted call can have on a certificate. */
  lemma CertificateCall(row: Row, cmd: Command)
    requires row.control.Certificate? && !cmd.op.Remove? && Decide(row, cmd).Ok?
    ensures var item := Decide(row, cmd).value;
      && item.control.Certificate?
      && (cmd.op.UpdateFields? ==> row.status == Draft == item.status && item.control == Certificate(cmd.actor, ""))
      && (cmd.op.MoveTo? ==> item.status == cmd.op.target && item.fields == row.fields && item.status != Draft)
      && (cmd.op.MoveTo? && cmd.op.target in {Valid, Revoked} ==>
            cmd.actor != row.control.preparedBy && item.control == Certificate(row.control.preparedBy, cmd.actor))
      && (cmd.op.MoveTo? && cmd.op.target !in {Valid, Revoked} ==> row.status != Draft && item.control == row.control)
  {
  }

  lemma ChainExtends(row: Row, revs: Revisions, item: Row, r: Revision)
    requires Chain(row, revs) && item.version == row.version + 1
    requires r.version == item.version && r.status == item.status && r.evidence == item.fields.evidence
    ensures Chain(item, revs + [r])
  {
  }

  lemma LatestExtends(revs: Revisions, r: Revision, j: int, statuses: set<Status>)
    ensures r.status in statuses ==> IsLatest(revs + [r], |revs|, statuses)
    ensures r.status !in statuses && IsLatest(revs, j, statuses) ==> IsLatest(revs + [r], j, statuses)
  {
  }

  lemma MovesFollowEdges(entity: Entity, row: Row, cmd: Command)
    requires ControlMatches(entity, row.control) && cmd.op.MoveTo? && Decide(row, cmd).Ok?
    ensures Edge(entity, row.status, cmd.op.target)
  {
    hide Decide, Edge;
    DecisionsKeepPromise(entity, row, cmd);
  }

  lemma PathExtends(key: Key, row: Row, revs: Revisions, cmd: Command)
    requires Changes(key, row, cmd) && Chain(row, revs) && Path(key.entity, revs)
    ensures Path(key.entity, revs + [NextRevision(key, row, cmd)])
  {
    DecideFrame(row, cmd);
    if cmd.op.MoveTo? {
      MovesFollowEdges(key.entity, row, cmd);
    }
    hide Edge;
    assert Follows(key.entity, revs[|revs| - 1], NextRevision(key, row, cmd));
  }

  lemma ReplayExtends(key: Key, row: Row, revs: Revisions, cmd: Command)
    requires key.entity == ReleaseAuthorization && Changes(key, row, cmd) && ReplayMatches(row, revs)
    ensures ReplayMatches(NextRow(row, cmd), revs + [NextRevision(key, row, cmd)])
  {
    hide Decide;
    AuthorizationCall(row, cmd);
    var r := NextRevision(key, row, cmd);
    assert (revs + [r])[..|revs|] == revs;
  }

  /** The guards make every decision independent of the latest submission. */
  lemma DecisionIsIndependent(key: Key, row: Row, revs: Revisions, cmd: Command)
    requires key.entity == ReleaseAuthorization && Changes(key, row, cmd)
    requires row.status != Draft ==> Submitted(row, revs)
    requires IsDecision(NextRevision(key, row, cmd))
    ensures Independent(revs, NextRevision(key, row, cmd))
  {
    hide Decide;
    AuthorizationCall(row, cmd);
    var j :| && IsLatest(revs, j, {Review})
             && revs[j].action == TransitionAction
             && revs[j].actor == row.control.submittedBy != ""
             && revs[j].evidence == row.fields.evidence
             && NoDraftAfter(revs, j);
    assert revs[j].actor != cmd.actor;
  }

  lemma DualControlExtends(key: Key, row: Row, revs: Revisions, cmd: Command)
    requires key.entity == ReleaseAuthorization && Changes(key, row, cmd) && DualControl(revs)
    requires row.status != Draft ==> Submitted(row, revs)
    ensures DualControl(revs + [NextRevision(key, row, cmd)])
  {
    hide Decide, Independent, IsDecision;
    var r := NextRevision(key, row, cmd);
    var longer := revs + [r];
    if IsDecision(r) {
      DecisionIsIndependent(key, row, revs, cmd);
    }
    forall i | 0 <= i < |longer| && IsDecision(longer[i])
      ensures Independent(longer[..i], longer[i])
    {
      assert longer[..i] == if i < |revs| then revs[..i] else revs;
    }
  }

  lemma SubmittedExtends(key: Key, row: Row, revs: Revisions, cmd: Command)
    requires key.entity == ReleaseAuthorization && Changes(key, row, cmd) && cmd.actor != ""
    requires row.status != Draft ==> Submitted(row, revs)
    requires NextRow(row, cmd).status != Draft
    ensures NextRow(row, cmd).control.Authorization?
    ensures Submitted(NextRow(row, cmd), revs + [NextRevision(key, row, cmd)])
  {
    hide Decide;
    AuthorizationCall(row, cmd);
    var item, r := NextRow(row, cmd), NextRevision(key, row, cmd);
    if item.status == Review {
      LatestExtends(revs, r, |revs|, {Review});
      assert NoDraftAfter(revs + [r], |revs|);
    } else {
      var j :| && IsLatest(revs, j, {Review})
               && revs[j].action == TransitionAction
               && revs[j].actor == row.control.submittedBy != ""
               && revs[j].evidence == row.fields.evidence
               && NoDraftAfter(revs, j);
      LatestExtends(revs, r, j, {Review});
      assert NoDraftAfter(revs + [r], j);
    }
  }

  lemma CertificateExtends(key: Key, row: Row, revs: Revisions, cmd: Command)
    requires key.entity == CertificateRecord && Changes(key, row, cmd) && cmd.actor != ""
    requires CertificateHistory(row, revs)
    ensures CertificateHistory(NextRow(row, cmd), revs + [NextRevision(key, row, cmd)])
  {
    hide Decide;
    CertificateCall(row, cmd);
    var item, r := NextRow(row, cmd), NextRevision(key, row, cmd);
    var j :| IsLatest(revs, j, {Draft}) && revs[j].actor == row.control.preparedBy;
    LatestExtends(revs, r, j, {Draft});
    LatestExtends(revs, r, |revs|, {Valid, Revoked});
    if row.status != Draft {
      var v :| IsLatest(revs, v, {Valid, Revoked}) && revs[v].actor == row.control.verifiedBy;
      LatestExtends(revs, r, v, {Valid, Revoked});
    }
    var n := if item.status == Draft then |revs| else j;
    assert IsLatest(revs + [r], n, {Draft}) && (revs + [r])[n].actor == item.control.preparedBy;
  }

  ghost function NextAudit(key: Key, row: Row, cmd: Command): Audit
    requires Decide(row, cmd).Ok?
  {
    AuditFor(key, NextRow(row, cmd).status, ChangeStamp(key.entity, cmd, row.status))
  }

  lemma AuditsAppend(audits: seq<Audit>, revs: Revisions, a: Audit, r: Revision)
    requires AuditsAgree(audits, revs) && revs != []
    requires a.action == r.action && a.after == r.status && a.before == revs[|revs| - 1].status
    requires Names(a.actor, r.actor, "system") && Names(a.requestId, r.requestId, "untracked")
    ensures AuditsAgree(audits + [a], revs + [r])
  {
    hide Names;
    var audits', revs' := audits + [a], revs + [r];
    forall i | 0 <= i < |revs'| ensures AuditAgrees(audits', revs', i) {
      if i < |revs| {
        assert AuditAgrees(audits, revs, i);
      }
    }
  }

  lemma AuditsExtend(key: Key, row: Row, revs: Revisions, audits: seq<Audit>, cmd: Command)
    requires Changes(key, row, cmd) && Chain(row, revs) && AuditsAgree(audits, revs)
    ensures AuditsAgree(audits + [NextAudit(key, row, cmd)], revs + [NextRevision(key, row, cmd)])
  {
    hide Decide, AuditsAgree, OrElse, Names;
    AuditRowsTell(key, NextRow(row, cmd).status, ChangeStamp(key.entity, cmd, row.status));
    AuditsAppend(audits, revs, NextAudit(key, row, cmd), NextRevision(key, row, cmd));
  }

  lemma AuthorizationExtends(key: Key, row: Row, revs: Revisions, cmd: Command)
    requires key.entity == ReleaseAuthorization && Changes(key, row, cmd) && cmd.actor != ""
    requires AuthorizationHistory(row, revs)
    ensures AuthorizationHistory(NextRow(row, cmd), revs + [NextRevision(key, row, cmd)])
  {
    hide Decide, ReplayMatches, DualControl, Submitted;
    ReplayExtends(key, row, revs, cmd);
    DualControlExtends(key, row, revs, cmd);
    if NextRow(row, cmd).status != Draft {
      SubmittedExtends(key, row, revs, cmd);
    }
  }

  /** One atomic call on a record carries all of its history predicates to the next version. */
  lemma RecordHistoryExtends(key: Key, row: Row, revs: Revisions, audits: seq<Audit>, cmd: Command)
    requires Changes(key, row, cmd) && cmd.actor != "" && Chain(row, revs)
    requires RecordHistory(key, row, revs, audits)
    ensures RecordHistory(key, NextRow(row, cmd), revs + [NextRevision(key, row, cmd)],
                          audits + [NextAudit(key, row, cmd)])
  {
    hide Decide, Path, AuditsAgree, AuthorizationHistory, CertificateHistory;
    var item, r, a := NextRow(row, cmd), NextRevision(key, row, cmd), NextAudit(key, row, cmd);
    assert BornByCreate(revs + [r]) == BornByCreate(revs);
    if BornByCreate(revs) {
      PathExtends(key, row, revs, cmd);
      AuditsExtend(key, row, revs, audits, cmd);
      if key.entity == ReleaseAuthorization {
        AuthorizationExtends(key, row, revs, cmd);
      } else {
        CertificateExtends(key, row, revs, cmd);
      }
    }
  }

  /** A record just created satisfies them. */
  lemma RecordHistoryStarts(key: Key, input: CreateInput)
    requires Versioned(key.entity) && input.actor != ""
    ensures var row := NewRow(key.entity, input);
      var stamp := CreateStamp(key.entity, input);
      && Chain(row, [RevisionFor(key, row, stamp)])
      && RecordHistory(key, row, [RevisionFor(key, row, stamp)], [AuditFor(key, row.status, stamp)])
  {
    var row, stamp := NewRow(key.entity, input), CreateStamp(key.entity, input);
    var revs := [RevisionFor(key, row, stamp)];
    AuditRowsTell(key, row.status, stamp);
    assert AuditsAgree([AuditFor(key, row.status, stamp)], revs);
    assert revs[..0] == [];
    assert IsLatest(revs, 0, {Draft});
  }
}
