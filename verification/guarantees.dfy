/** The promises of the version-controlled services, for every reachable state of every run. */
module Guarantees {
  import opened Wrappers
  import opened Constants
  import opened Model
  import opened Services
  import opened Contracts
  import opened Repository
  import opened History
  import opened Protocol
  import opened Safety
  import opened Serializability

  // ---------- History predicates over whole runs ----------

  ghost predicate HistorySafe(db: Tables) {
    forall key {:trigger RevisionsOf(db.revisions, key)} :: key in db.rows ==>
      RecordHistory(key, db.rows[key], RevisionsOf(db.revisions, key), ChangeAudits(db.audits, key))
  }

  ghost predicate ActorsNamed(s: System) {
    forall rid :: rid in s.inflight ==>
      match s.inflight[rid]
      case Waiting(req) => req.command.actor != ""
      case Loaded(req, _) => req.command.actor != ""
      case AuditDue(_) => true
  }

  ghost predicate EventNamed(e: Event) {
    match e
    case Born(_, input) => input.actor != ""
    case Changed(_, cmd) => cmd.actor != ""
    case _ => true
  }

  lemma StoredChange(db: Tables, key: Key, cmd: Command, other: Key)
    requires DatabaseSafe(db) && HistorySafe(db) && Legal(db, Changed(key, cmd)) && cmd.actor != "" && other in db.rows
    ensures var after := SerialStep(db, Changed(key, cmd));
      RecordHistory(other, after.rows[other], RevisionsOf(after.revisions, other), ChangeAudits(after.audits, other))
  {
    hide RecordHistory, Decide;
    assert RecordSafe(db, key);
    assert RecordHistory(other, db.rows[other], RevisionsOf(db.revisions, other), ChangeAudits(db.audits, other));
    if Versioned(key.entity) {
      RevisionsOfAppend(db.revisions, NextRevision(key, db.rows[key], cmd), other);
      ChangeAuditsAppend(db.audits, NextAudit(key, db.rows[key], cmd), other);
      if other == key {
        RecordHistoryExtends(key, db.rows[key], RevisionsOf(db.revisions, key), ChangeAudits(db.audits, key), cmd);
      }
    } else if other == key {
      var after := SerialStep(db, Changed(key, cmd));
      PlainRecordsHaveNoHistory(key, after.rows[key], RevisionsOf(after.revisions, key),
                                ChangeAudits(after.audits, key));
    }
  }

  lemma StoredBirth(db: Tables, key: Key, input: CreateInput, other: Key)
    requires DatabaseSafe(db) && HistorySafe(db) && key !in db.rows && input.actor != ""
    requires other in db.rows || other == key
    ensures var after := Stored(db, key, NewRow(key.entity, input), CreateStamp(key.entity, input));
      RecordHistory(other, after.rows[other], RevisionsOf(after.revisions, other), ChangeAudits(after.audits, other))
  {
    if Versioned(key.entity) {
      var row, stamp := NewRow(key.entity, input), CreateStamp(key.entity, input);
      var r, a := RevisionFor(key, row, stamp), AuditFor(key, row.status, stamp);
      RevisionsOfAppend(db.revisions, r, other);
      ChangeAuditsAppend(db.audits, a, other);
      if other == key {
        assert RecordSafe(db, key);
        assert RevisionsOf(db.revisions + [r], key) == [r] && ChangeAudits(db.audits + [a], key) == [a];
        RecordHistoryStarts(key, input);
      }
    }
  }

  lemma PlainOrUnchanged(db: Tables, a: Audit, key: Key)
    requires HistorySafe(db) && key in db.rows && Legal(db, Recorded(a))
    ensures RecordHistory(key, db.rows[key], RevisionsOf(db.revisions, key), ChangeAudits(db.audits + [a], key))
  {
    ChangeAuditsAppend(db.audits, a, key);
    assert RecordHistory(key, db.rows[key], RevisionsOf(db.revisions, key), ChangeAudits(db.audits, key));
  }

  lemma EventKeepsHistory(db: Tables, e: Event)
    requires DatabaseSafe(db) && HistorySafe(db) && Legal(db, e) && EventNamed(e)
    ensures HistorySafe(SerialStep(db, e))
  {
    hide RecordHistory, Decide;
    var after := SerialStep(db, e);
    forall key | key in after.rows
      ensures RecordHistory(key, after.rows[key], RevisionsOf(after.revisions, key), ChangeAudits(after.audits, key))
    {
      match e {
        case Born(k, input) => StoredBirth(db, k, input, key);
        case Changed(k, cmd) => StoredChange(db, k, cmd, key);
        case Removed(k) =>
          assert RevisionsOf(db.revisions, key) == RevisionsOf(after.revisions, key);
          DeletionKeepsHistory(key, db.rows[key], RevisionsOf(db.revisions, key), ChangeAudits(db.audits, key));
        case Recorded(a) =>
          assert RevisionsOf(db.revisions, key) == RevisionsOf(after.revisions, key);
          ChangeAuditsAppend(db.audits, a, key);
          PlainOrUnchanged(db, a, key);
      }
    }
  }

  lemma SeededHasNoHistory(db: Tables)
    requires Seeded(db)
    ensures HistorySafe(db)
  {
  }

  lemma StepKeepsActorsNamed(s: System, step: Step)
    requires ActorsNamed(s) && Authenticated([step])
    ensures ActorsNamed(Apply(s, step))
    ensures EventOf(s, step).Some? ==> EventNamed(EventOf(s, step).value)
  {
    hide CommitResult, CreateRow, LateAudit;
    assert [step][0] == step;
  }

  lemma {:induction false} RunKeepsHistory(s: System, steps: seq<Step>)
    requires Init(s) && ObservedRun(s, steps) && Authenticated(steps)
    ensures HistorySafe(Exec(s, steps).db) && ActorsNamed(Exec(s, steps))
  {
    if steps == [] {
      SeededHasNoHistory(s.db);
    } else {
      var n := |steps| - 1;
      RunPrefix(s, steps, n);
      RunKeepsHistory(s, steps[..n]);
      RunKeepsVersionsReceived(s, steps[..n]);
      var before, last := Exec(s, steps[..n]), steps[n];
      StepRefines(before, last);
      StepKeepsActorsNamed(before, last);
      if EventOf(before, last).Some? {
        EventKeepsHistory(before.db, EventOf(before, last).value);
      }
    }
  }

  /** The rows, revisions and audit rows of one record after a run. */
  function RowOf(s: System, steps: seq<Step>, key: Key): Row
    requires key in Exec(s, steps).db.rows
  {
    Exec(s, steps).db.rows[key]
  }

  function RevisionsAfter(s: System, steps: seq<Step>, key: Key): seq<Revision> {
    RevisionsOf(Exec(s, steps).db.revisions, key)
  }

  function AuditsAfter(s: System, steps: seq<Step>, key: Key): seq<Audit> {
    ChangeAudits(Exec(s, steps).db.audits, key)
  }

  // ---------- The promises ----------

  /** Holds for every schedule, with any versions, interleavings and failures. */
  lemma VersionChainAlways(s: System, steps: seq<Step>, key: Key)
    requires Init(s) && Versioned(key.entity)
    ensures key in Exec(s, steps).db.rows ==> Chain(RowOf(s, steps, key), RevisionsAfter(s, steps, key))
    ensures key !in Exec(s, steps).db.rows ==> RevisionsAfter(s, steps, key) == []
    ensures key in Exec(s, steps).db.rows && BornByCreate(RevisionsAfter(s, steps, key))
            ==> |AuditsAfter(s, steps, key)| == RowOf(s, steps, key).version
  {
    InitIsSafe(s);
    ExecIsSafe(s, steps);
    assert RecordSafe(Exec(s, steps).db, key);
  }

  /** No two revisions of a record share a version. */
  lemma RevisionIndexIsUnique(s: System, steps: seq<Step>, key: Key, i: nat, j: nat)
    requires Init(s) && Versioned(key.entity)
    requires i < j < |RevisionsAfter(s, steps, key)|
    ensures RevisionsAfter(s, steps, key)[i].version < RevisionsAfter(s, steps, key)[j].version
  {
    VersionChainAlways(s, steps, key);
  }

  lemma AuthorizationReplays(s: System, steps: seq<Step>, key: Key)
    requires Init(s) && ObservedRun(s, steps) && Authenticated(steps)
    requires key.entity == ReleaseAuthorization && BornByCreate(RevisionsAfter(s, steps, key))
    ensures key in Exec(s, steps).db.rows && ReplayMatches(RowOf(s, steps, key), RevisionsAfter(s, steps, key))
  {
    VersionChainAlways(s, steps, key);
    RunKeepsHistory(s, steps);
  }

  lemma AuthorizationDualControl(s: System, steps: seq<Step>, key: Key)
    requires Init(s) && ObservedRun(s, steps) && Authenticated(steps)
    requires key.entity == ReleaseAuthorization && BornByCreate(RevisionsAfter(s, steps, key))
    ensures DualControl(RevisionsAfter(s, steps, key))
  {
    VersionChainAlways(s, steps, key);
    RunKeepsHistory(s, steps);
  }

  lemma CertificatePublication(s: System, steps: seq<Step>, key: Key)
    requires Init(s) && ObservedRun(s, steps) && Authenticated(steps)
    requires key.entity == CertificateRecord && BornByCreate(RevisionsAfter(s, steps, key))
    ensures key in Exec(s, steps).db.rows && CertificateHistory(RowOf(s, steps, key), RevisionsAfter(s, steps, key))
  {
    VersionChainAlways(s, steps, key);
    RunKeepsHistory(s, steps);
  }

  lemma AuditTrailAgrees(s: System, steps: seq<Step>, key: Key)
    requires Init(s) && ObservedRun(s, steps) && Authenticated(steps)
    requires Versioned(key.entity) && BornByCreate(RevisionsAfter(s, steps, key))
    ensures AuditsAgree(AuditsAfter(s, steps, key), RevisionsAfter(s, steps, key))
    ensures Path(key.entity, RevisionsAfter(s, steps, key))
  {
    VersionChainAlways(s, steps, key);
    RunKeepsHistory(s, steps);
  }

  // ---------- Roles ----------

  /** Who may move a certificate or an authorization, and where to. */
  predicate Permitted(entity: Entity, cmd: Command) {
    cmd.op.MoveTo? && entity in {CertificateRecord, ReleaseAuthorization} ==>
      && cmd.role in {Operator, Reviewer, Admin}
      && (cmd.op.target in {Approved, Restricted, Revoked, Draft, Valid} ==> cmd.role in {Reviewer, Admin})
  }

  lemma DecisionIsPermitted(entity: Entity, row: Row, cmd: Command)
    requires ControlMatches(entity, row.control) && Decide(row, cmd).Ok?
    ensures Permitted(entity, cmd)
  {
    hide Decide;
    DecisionsKeepPromise(entity, row, cmd);
  }

  lemma StepIsPermitted(s: System, step: Step)
    requires Safe(s) && EventOf(s, step).Some? && EventOf(s, step).value.Changed?
    ensures Permitted(EventOf(s, step).value.key.entity, EventOf(s, step).value.command)
  {
    hide Decide, Permitted;
    var p := s.inflight[step.rid];
    assert ProgressSafe(s.db, p);
    CommitWrites(s.db, p.request, p.snapshot, step.fault);
    DecisionIsPermitted(p.request.key.entity, p.snapshot, p.request.command);
  }

  /** No schedule and no version a client sends lets anybody but a reviewer approve, publish or revoke. */
  lemma {:induction false} RolesRespected(s: System, steps: seq<Step>, i: nat)
    requires Init(s) && i < |Log(s, steps)| && Log(s, steps)[i].Changed?
    ensures Permitted(Log(s, steps)[i].key.entity, Log(s, steps)[i].command)
  {
    if steps == [] {
    } else {
      var init, last := steps[..|steps| - 1], steps[|steps| - 1];
      if i < |Log(s, init)| {
        RolesRespected(s, init, i);
      } else {
        hide EventOf, Permitted;
        InitIsSafe(s);
        ExecIsSafe(s, init);
        StepIsPermitted(Exec(s, init), last);
      }
    }
  }

  // ---------- Attribution ----------

  /** Who acted, in which request, and how. */
  datatype Signature = Signature(actor: string, requestId: string, action: Action)

  function Signatures(revs: seq<Revision>): seq<Signature> {
    seq(|revs|, i requires 0 <= i < |revs| => Signature(revs[i].actor, revs[i].requestId, revs[i].action))
  }

  /** The signatures of the events that created or changed a record, in order. */
  ghost function Acts(events: seq<Event>, key: Key): seq<Signature> {
    if events == [] then []
    else
      var rest := Acts(events[..|events| - 1], key);
      match events[|events| - 1]
      case Born(k, input) => if k == key then rest + [Signature(input.actor, input.requestId, CreateAction)] else rest
      case Changed(k, cmd) =>
        var action := if cmd.op.MoveTo? then TransitionAction else UpdateAction;
        if k == key then rest + [Signature(cmd.actor, cmd.requestId, action)] else rest
      case _ => rest
  }

  function SignatureOf(stamp: Stamp): Signature {
    Signature(stamp.actor, stamp.requestId, stamp.action)
  }

  lemma StoredSigns(db: Tables, written: Key, item: Row, stamp: Stamp, key: Key)
    ensures Signatures(RevisionsOf(Stored(db, written, item, stamp).revisions, key))
         == Signatures(RevisionsOf(db.revisions, key))
            + if written == key && Versioned(key.entity) then [SignatureOf(stamp)] else []
  {
    if Versioned(written.entity) {
      RevisionsOfAppend(db.revisions, RevisionFor(written, item, stamp), key);
    }
  }

  ghost function ActOf(e: Event, key: Key): seq<Signature> {
    match e
    case Born(k, input) => if k == key then [SignatureOf(CreateStamp(k.entity, input))] else []
    case Changed(k, cmd) => if k == key then [SignatureOf(ChangeStamp(k.entity, cmd, Other("")))] else []
    case _ => []
  }

  lemma ActsAppend(events: seq<Event>, e: Event, key: Key)
    requires e.Changed? ==> !e.command.op.Remove?
    ensures Acts(events + [e], key) == Acts(events, key) + ActOf(e, key)
  {
    assert (events + [e])[..|events|] == events;
  }

  lemma StampSignature(entity: Entity, cmd: Command, before: Status, other: Status)
    ensures SignatureOf(ChangeStamp(entity, cmd, before)) == SignatureOf(ChangeStamp(entity, cmd, other))
  {
  }

  /** What an event adds to the signatures of a record. */
  lemma EventSigns(s: System, step: Step, key: Key)
    requires Versioned(key.entity) && EventOf(s, step).Some?
    ensures var e := EventOf(s, step).value;
      && (e.Changed? ==> !e.command.op.Remove?)
      && Signatures(RevisionsOf(Apply(s, step).db.revisions, key))
          == Signatures(RevisionsOf(s.db.revisions, key)) + ActOf(e, key)
  {
    hide Signatures, RevisionsOf, Decide, Stored, ChangeStamp, CreateStamp, SignatureOf, LateAudit;
    var e := EventOf(s, step).value;
    if e.Born? {
      StoredSigns(s.db, e.key, NewRow(e.key.entity, e.input), CreateStamp(e.key.entity, e.input), key);
    } else if e.Changed? {
      var req, snapshot := s.inflight[step.rid].request, s.inflight[step.rid].snapshot;
      CommitWrites(s.db, req, snapshot, step.fault);
      StoredSigns(s.db, req.key, Written(s.db, req, Decide(snapshot, req.command).value),
                  ChangeStamp(req.key.entity, req.command, snapshot.status), key);
      StampSignature(req.key.entity, req.command, snapshot.status, Other(""));
    }
  }

  lemma SilentStep(s: System, step: Step)
    requires EventOf(s, step) == None
    ensures Apply(s, step).db == s.db
  {
    hide CommitResult, CreateRow, LateAudit;
  }

  /**
   * Attribution, for every schedule and any client: the revisions of a record that was not
   * seeded are signed, in order, by exactly the calls that created and changed it.
   */
  lemma {:induction false} RevisionsAreAttributed(s: System, steps: seq<Step>, key: Key)
    requires Init(s) && Versioned(key.entity) && key !in s.db.rows
    ensures Signatures(RevisionsAfter(s, steps, key)) == Acts(Log(s, steps), key)
  {
    if steps == [] {
      assert RevisionsOf(s.db.revisions, key) == [];
    } else {
      hide Apply, EventOf, Acts, Signatures, RevisionsOf, ActOf;
      var before, last := Exec(s, steps[..|steps| - 1]), steps[|steps| - 1];
      RevisionsAreAttributed(s, steps[..|steps| - 1], key);
      if EventOf(before, last).Some? {
        EventSigns(before, last, key);
        ActsAppend(Log(s, steps[..|steps| - 1]), EventOf(before, last).value, key);
      } else {
        SilentStep(before, last);
      }
    }
  }

  // ---------- Freeze and bounded life ----------

  ghost predicate OutsideDraft(s: System, steps: seq<Step>, key: Key, n: nat)
    requires n <= |steps|
  {
    var rows := Exec(s, steps[..n]).db.rows;
    key in rows && rows[key].status != Draft
  }

  /** What one event does to a record: nothing, a deletion mark, or one atomic call on its row. */
  lemma EventOnRecord(db: Tables, e: Event, key: Key)
    requires Legal(db, e) && key in db.rows
    ensures var row, after := db.rows[key], SerialStep(db, e).rows[key];
      || Content(after) == Content(row)
      || (e.Changed? && e.key == key && after == NextRow(row, e.command))
  {
  }

  /** The same for one step of a run. */
  lemma StepOnRecord(s: System, steps: seq<Step>, key: Key)
    requires Init(s) && ObservedRun(s, steps) && steps != []
    requires key in Exec(s, steps[..|steps| - 1]).db.rows
    ensures key in Exec(s, steps).db.rows
    ensures var row, after := RowOf(s, steps[..|steps| - 1], key), RowOf(s, steps, key);
      || Content(after) == Content(row)
      || exists cmd: Command :: !cmd.op.Remove? && Decide(row, cmd).Ok? && after == NextRow(row, cmd)
    ensures ControlMatches(key.entity, RowOf(s, steps[..|steps| - 1], key).control)
  {
    var n := |steps| - 1;
    RunPrefix(s, steps, n);
    RunKeepsVersionsReceived(s, steps[..n]);
    var before := Exec(s, steps[..n]);
    assert RecordSafe(before.db, key);
    StepRefines(before, steps[n]);
    if EventOf(before, steps[n]).Some? {
      EventOnRecord(before.db, EventOf(before, steps[n]).value, key);
    }
  }

  lemma AtomicCallFreezes(entity: Entity, row: Row, cmd: Command)
    requires Versioned(entity) && ControlMatches(entity, row.control) && !cmd.op.Remove? && Decide(row, cmd).Ok?
    requires NextRow(row, cmd).status != Draft
    ensures NextRow(row, cmd).fields == row.fields
  {
    DecideFrame(row, cmd);
  }

  /** One step of a run on the fields of a record that is not a draft after it. */
  lemma StepFreezes(s: System, steps: seq<Step>, key: Key)
    requires Init(s) && ObservedRun(s, steps) && Versioned(key.entity) && steps != []
    requires key in Exec(s, steps[..|steps| - 1]).db.rows
    ensures key in Exec(s, steps).db.rows
    ensures RowOf(s, steps, key).status != Draft ==>
      RowOf(s, steps, key).fields == RowOf(s, steps[..|steps| - 1], key).fields
  {
    StepOnRecord(s, steps, key);
    hide Exec, Init, ObservedRun, Decide;
    var row, after := RowOf(s, steps[..|steps| - 1], key), RowOf(s, steps, key);
    if Content(after) != Content(row) {
      var cmd: Command :| !cmd.op.Remove? && Decide(row, cmd).Ok? && after == NextRow(row, cmd);
      if after.status != Draft {
        AtomicCallFreezes(key.entity, row, cmd);
      }
    }
  }

  /**
   * From the moment `from`, as long as the record is not a draft again, its business fields and
   * evidence stay what they were: taking for `from` the last moment it was a draft, what is
   * approved is exactly what was submitted, whatever edits are racing.
   */
  lemma {:induction false} EvidenceFrozen(s: System, steps: seq<Step>, key: Key, from: nat)
    requires Init(s) && ObservedRun(s, steps) && Versioned(key.entity)
    requires from <= |steps| && key in Exec(s, steps[..from]).db.rows
    requires forall n :: from < n <= |steps| ==> OutsideDraft(s, steps, key, n)
    ensures key in Exec(s, steps).db.rows
    ensures RowOf(s, steps, key).fields == RowOf(s, steps[..from], key).fields
    decreases |steps|
  {
    hide Exec, Init, ObservedRun;
    if from == |steps| {
      assert steps[..from] == steps;
    } else {
      var init := steps[..|steps| - 1];
      RunPrefix(s, steps, |steps| - 1);
      assert init[..from] == steps[..from];
      forall n | from < n <= |init| ensures OutsideDraft(s, init, key, n) {
        assert OutsideDraft(s, steps, key, n);
        assert init[..n] == steps[..n];
      }
      EvidenceFrozen(s, init, key, from);
      assert OutsideDraft(s, steps, key, |steps|) && steps[..|steps|] == steps;
      StepFreezes(s, steps, key);
    }
  }

  predicate IsReleased(entity: Entity, status: Status) {
    match entity
    case ReleaseAuthorization => status == Approved || status == Restricted || status == Revoked
    case CertificateRecord => status == Valid || status == Expired || status == Revoked
    case _ => false
  }

  /** How many commits a released record can still see. */
  function Rank(status: Status): nat {
    match status
    case Approved => 2
    case Valid => 2
    case Restricted => 1
    case Expired => 1
    case _ => 0
  }

  lemma RankDecreases(entity: Entity, from: Status, to: Status)
    requires IsReleased(entity, from) && Edge(entity, from, to)
    ensures IsReleased(entity, to) && Rank(to) < Rank(from)
  {
  }

  lemma ReleasedCallDecreases(entity: Entity, row: Row, cmd: Command)
    requires ControlMatches(entity, row.control) && !cmd.op.Remove? && Decide(row, cmd).Ok?
    requires IsReleased(entity, row.status)
    ensures IsReleased(entity, NextRow(row, cmd).status) && Rank(NextRow(row, cmd).status) < Rank(row.status)
  {
    DecideFrame(row, cmd);
    RankDecreases(entity, row.status, NextRow(row, cmd).status);
  }

  /** One step of a run on a released record. */
  lemma StepRanks(s: System, steps: seq<Step>, key: Key)
    requires Init(s) && ObservedRun(s, steps) && steps != []
    requires key in Exec(s, steps[..|steps| - 1]).db.rows
    requires IsReleased(key.entity, RowOf(s, steps[..|steps| - 1], key).status)
    ensures key in Exec(s, steps).db.rows && IsReleased(key.entity, RowOf(s, steps, key).status)
    ensures RowOf(s, steps, key).version + Rank(RowOf(s, steps, key).status)
         <= RowOf(s, steps[..|steps| - 1], key).version + Rank(RowOf(s, steps[..|steps| - 1], key).status)
  {
    StepOnRecord(s, steps, key);
    hide Exec, Init, ObservedRun, Decide, IsReleased, Rank;
    var row, after := RowOf(s, steps[..|steps| - 1], key), RowOf(s, steps, key);
    if Content(after) != Content(row) {
      var cmd: Command :| !cmd.op.Remove? && Decide(row, cmd).Ok? && after == NextRow(row, cmd);
      ReleasedCallDecreases(key.entity, row, cmd);
    }
  }

  /** Versions and ranks add up: every commit to a released record costs it rank. */
  lemma {:induction false} RankBoundsLife(s: System, steps: seq<Step>, key: Key, from: nat)
    requires Init(s) && ObservedRun(s, steps)
    requires from <= |steps| && key in Exec(s, steps[..from]).db.rows
    requires IsReleased(key.entity, RowOf(s, steps[..from], key).status)
    ensures key in Exec(s, steps).db.rows && IsReleased(key.entity, RowOf(s, steps, key).status)
    ensures RowOf(s, steps, key).version + Rank(RowOf(s, steps, key).status)
         <= RowOf(s, steps[..from], key).version + Rank(RowOf(s, steps[..from], key).status)
    decreases |steps|
  {
    hide Exec, Init, ObservedRun, IsReleased, Rank;
    if from == |steps| {
      assert steps[..from] == steps;
    } else {
      var init := steps[..|steps| - 1];
      RunPrefix(s, steps, |steps| - 1);
      assert init[..from] == steps[..from];
      RankBoundsLife(s, init, key, from);
      StepRanks(s, steps, key);
    }
  }

  /** How many calls have changed or deleted a record. */
  function Touches(events: seq<Event>, key: Key): nat {
    if events == [] then 0
    else
      var last := events[|events| - 1];
      Touches(events[..|events| - 1], key) + (if (last.Changed? || last.Removed?) && last.key == key then 1 else 0)
  }

  function Marks(row: Row): nat {
    row.version + if row.deleted then 1 else 0
  }

  lemma EventMarks(db: Tables, events: seq<Event>, e: Event, key: Key)
    requires Legal(db, e) && key in db.rows
    ensures key in SerialStep(db, e).rows
    ensures Touches(events + [e], key) - Touches(events, key)
         == Marks(SerialStep(db, e).rows[key]) - Marks(db.rows[key])
  {
    assert (events + [e])[..|events|] == events;
    hide Decide;
    if e.Changed? && e.key == key {
      DecideFrame(db.rows[key], e.command);
    }
  }

  /** Every commit to a record shows in its version or in its deletion mark. */
  lemma {:induction false} CommitsLeaveMarks(s: System, steps: seq<Step>, key: Key, from: nat)
    requires Init(s) && ObservedRun(s, steps)
    requires from <= |steps| && key in Exec(s, steps[..from]).db.rows
    ensures key in Exec(s, steps).db.rows
    ensures Touches(Log(s, steps), key) - Touches(Log(s, steps[..from]), key)
         == Marks(RowOf(s, steps, key)) - Marks(RowOf(s, steps[..from], key))
    decreases |steps|
  {
    if from == |steps| {
      assert steps[..from] == steps;
    } else {
      var init := steps[..|steps| - 1];
      var before, last := Exec(s, init), steps[|steps| - 1];
      hide Apply, Exec, Log, EventOf, Touches, Marks, Legal, SerialStep, Init, ObservedRun, VersionsReceived, Safe;
      RunPrefix(s, steps, |steps| - 1);
      RunKeepsVersionsReceived(s, init);
      LastStep(s, steps);
      assert init[..from] == steps[..from];
      CommitsLeaveMarks(s, init, key, from);
      StepRefines(before, last);
      if EventOf(before, last).Some? {
        EventMarks(before.db, Log(s, init), EventOf(before, last).value, key);
      }
    }
  }

  /**
   * A released record never becomes a draft or a review again, and at most two more versions and
   * one deletion are committed to it.
   */
  lemma BoundedLifeAfterRelease(s: System, steps: seq<Step>, key: Key, from: nat)
    requires Init(s) && ObservedRun(s, steps)
    requires from <= |steps| && key in Exec(s, steps[..from]).db.rows
    requires IsReleased(key.entity, RowOf(s, steps[..from], key).status)
    ensures key in Exec(s, steps).db.rows && IsReleased(key.entity, RowOf(s, steps, key).status)
    ensures RowOf(s, steps, key).version <= RowOf(s, steps[..from], key).version + 2
    ensures Touches(Log(s, steps), key) - Touches(Log(s, steps[..from]), key)
         <= if RowOf(s, steps, key).deleted then 3 else 2
  {
    hide Exec, Init, ObservedRun, IsReleased, Log;
    RankBoundsLife(s, steps, key, from);
    CommitsLeaveMarks(s, steps, key, from);
  }

  /** Along a path, what is once released stays released. */
  lemma {:induction false} PathStaysReleased(entity: Entity, revs: seq<Revision>, i: nat, j: nat)
    requires Versioned(entity) && Path(entity, revs) && i <= j < |revs| && IsReleased(entity, revs[i].status)
    ensures IsReleased(entity, revs[j].status)
  {
    if i == j {
    } else {
      PathStaysReleased(entity, revs, i, j - 1);
      assert Follows(entity, revs[j - 1], revs[j]);
    }
  }

  lemma {:induction false} PathStaysKnown(revs: seq<Revision>, j: nat)
    requires Path(ReleaseAuthorization, revs) && j < |revs|
    ensures revs[j].status in {Draft, Review} || IsReleased(ReleaseAuthorization, revs[j].status)
  {
    if j == 0 {
    } else {
      PathStaysKnown(revs, j - 1);
      assert Follows(ReleaseAuthorization, revs[j - 1], revs[j]);
    }
  }

  /** A path that has not reached release has only drafts and reviews, and every transition on it changes sides. */
  lemma PathBeforeRelease(revs: seq<Revision>, i: nat)
    requires Path(ReleaseAuthorization, revs) && i < |revs|
    requires !IsReleased(ReleaseAuthorization, revs[|revs| - 1].status)
    ensures revs[i].status in {Draft, Review}
  {
    PathStaysKnown(revs, i);
    if IsReleased(ReleaseAuthorization, revs[i].status) {
      PathStaysReleased(ReleaseAuthorization, revs, i, |revs| - 1);
    }
  }

  lemma TransitionChangesSides(revs: seq<Revision>, i: nat)
    requires Path(ReleaseAuthorization, revs) && 0 < i < |revs|
    requires revs[i - 1].status in {Draft, Review} && revs[i].status in {Draft, Review}
    ensures if revs[i].action == UpdateAction then revs[i - 1].status == Draft == revs[i].status
            else revs[i - 1].status != revs[i].status
  {
    assert Follows(ReleaseAuthorization, revs[i - 1], revs[i]);
  }

  /** Before release an authorization only goes to and fro between draft and review. */
  lemma BeforeReleaseOnlyDraftAndReview(s: System, steps: seq<Step>, key: Key, i: nat)
    requires Init(s) && ObservedRun(s, steps) && Authenticated(steps)
    requires key.entity == ReleaseAuthorization && BornByCreate(RevisionsAfter(s, steps, key))
    requires i < |RevisionsAfter(s, steps, key)|
    requires key in Exec(s, steps).db.rows ==> !IsReleased(key.entity, RowOf(s, steps, key).status)
    ensures RevisionsAfter(s, steps, key)[i].status in {Draft, Review}
    ensures var revs := RevisionsAfter(s, steps, key);
      0 < i ==> if revs[i].action == UpdateAction then revs[i - 1].status == Draft == revs[i].status
                else revs[i - 1].status != revs[i].status
  {
    hide Exec, Init, ObservedRun, Authenticated;
    var revs := RevisionsAfter(s, steps, key);
    VersionChainAlways(s, steps, key);
    AuditTrailAgrees(s, steps, key);
    hide IsReleased, Path, AuditsAgree;
    PathBeforeRelease(revs, i);
    if 0 < i {
      PathBeforeRelease(revs, i - 1);
      TransitionChangesSides(revs, i);
    }
  }
}
