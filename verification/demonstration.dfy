/** The records the program seeds, the start that seeds them, and later starts on the same database. */
module Demonstration {
  import opened Wrappers
  import opened Constants
  import opened Model
  import opened Repository
  import opened Protocol
  import opened Safety
  import opened Guarantees
  import opened Deletions
  import opened Counterexamples
  import opened Backend
  import opened Seeding

  // ---------- The records ----------

  const HOUR: int := 3_600_000_000_000

  function TitleOf(entity: Entity): string {
    match entity
    case AircraftPart => "航空部件"
    case InspectionTask => "检查任务"
    case CertificateRecord => "证书记录"
    case ReleaseAuthorization => "放行授权"
  }

  function CodeOf(entity: Entity, i: nat): string
    requires i < 3
  {
    var prefix :=
      match entity
      case AircraftPart => "AP-00"
      case InspectionTask => "IT-00"
      case CertificateRecord => "CR-00"
      case ReleaseAuthorization => "RA-00";
    prefix + ["123"[i]]
  }

  function StatusOf(entity: Entity, i: nat): Status
    requires i < 3
  {
    match entity
    case AircraftPart => [Received, Inspection, Hold][i]
    case InspectionTask => [Planned, Running, Passed][i]
    case CertificateRecord => [Draft, Valid, Expired][i]
    case ReleaseAuthorization => [Draft, Review, Approved][i]
  }

  function ControlOf(entity: Entity, i: nat): Control
    requires i < 3
  {
    match entity
    case AircraftPart => Part
    case InspectionTask => Task
    case CertificateRecord => Certificate("operator", if i == 0 then "" else "reviewer")
    case ReleaseAuthorization =>
      [Authorization("", "", ""), Authorization("operator", "", ""),
       Authorization("operator", "reviewer", "演示数据双人复核通过")][i]
  }

  function Example(entity: Entity, now: int, i: nat): Row
    requires i < 3
  {
    var fields := Fields(
      TitleOf(entity) + "示例" + ["一二三"[i]], "用于启动验证和主要流程演示的" + TitleOf(entity) + "记录",
      "航空部件适航放行区域" + ["123"[i]], ["运行一组", "质量复核组", "安全主管组"][i], ["常规", "重点", "复核"][i],
      ["low", "medium", "high"][i], [12.5, 25.0, 37.5][i], ["unit", "%", "score"][i], now + 3 * i * HOUR,
      "已完成基础证据核对", "REL-515-0" + ["123"[i]]);
    Row(CodeOf(entity, i), fields, StatusOf(entity, i), 1, now, ControlOf(entity, i), false)
  }

  function Examples(entity: Entity, now: int): (items: seq<Row>)
    ensures |items| == 3
  {
    [Example(entity, now, 0), Example(entity, now, 1), Example(entity, now, 2)]
  }

  lemma ExamplesAreGood(entity: Entity, now: int, i: nat, j: nat)
    requires i < 3 && j < 3
    ensures Examples(entity, now)[i] == Example(entity, now, i)
    ensures GoodSeed(entity, Example(entity, now, i))
    ensures i != j ==> CodeOf(entity, i) != CodeOf(entity, j)
  {
    assert CodeOf(entity, i)[5] == "123"[i] && CodeOf(entity, j)[5] == "123"[j];
  }

  // The seeded codes and statuses, table by table.

  lemma ExampleParts(now: int)
    ensures Examples(AircraftPart, now)[0].code == "AP-001"
    ensures Examples(AircraftPart, now)[0].status == Received
    ensures Examples(AircraftPart, now)[1].code == "AP-002"
    ensures Examples(AircraftPart, now)[1].status == Inspection
    ensures Examples(AircraftPart, now)[2].code == "AP-003"
    ensures Examples(AircraftPart, now)[2].status == Hold
  {
  }

  lemma ExampleTasks(now: int)
    ensures Examples(InspectionTask, now)[0].code == "IT-001"
    ensures Examples(InspectionTask, now)[0].status == Planned
    ensures Examples(InspectionTask, now)[1].code == "IT-002"
    ensures Examples(InspectionTask, now)[1].status == Running
    ensures Examples(InspectionTask, now)[2].code == "IT-003"
    ensures Examples(InspectionTask, now)[2].status == Passed
  {
  }

  lemma ExampleCertificates(now: int)
    ensures Examples(CertificateRecord, now)[0].code == "CR-001"
    ensures Examples(CertificateRecord, now)[0].status == Draft
    ensures Examples(CertificateRecord, now)[1].code == "CR-002"
    ensures Examples(CertificateRecord, now)[1].status == Valid
    ensures Examples(CertificateRecord, now)[2].code == "CR-003"
    ensures Examples(CertificateRecord, now)[2].status == Expired
  {
  }

  lemma ExampleAuthorizations(now: int)
    ensures Examples(ReleaseAuthorization, now)[0].code == "RA-001"
    ensures Examples(ReleaseAuthorization, now)[0].status == Draft
    ensures Examples(ReleaseAuthorization, now)[1].code == "RA-002"
    ensures Examples(ReleaseAuthorization, now)[1].status == Review
    ensures Examples(ReleaseAuthorization, now)[2].code == "RA-003"
    ensures Examples(ReleaseAuthorization, now)[2].status == Approved
  {
  }

  /** The business fields of the rows differ by position only. */
  lemma ExampleFields(entity: Entity, now: int)
    ensures forall i :: 0 <= i < 3 ==>
      var f := Examples(entity, now)[i].fields;
      && f.facility == "航空部件适航放行区域" + ["1", "2", "3"][i]
      && f.owner == ["运行一组", "质量复核组", "安全主管组"][i]
      && f.category == ["常规", "重点", "复核"][i] && f.riskLevel == ["low", "medium", "high"][i]
      && f.metricValue == [12.5, 25.0, 37.5][i] && f.metricUnit == ["unit", "%", "score"][i]
      && f.effectiveAt == now + i * 10_800_000_000_000
      && f.evidence == "已完成基础证据核对" && f.relatedCode == "REL-515-0" + ["1", "2", "3"][i]
      && var title :=
           match entity
           case AircraftPart => "航空部件"
           case InspectionTask => "检查任务"
           case CertificateRecord => "证书记录"
           case ReleaseAuthorization => "放行授权";
         && f.name == title + "示例" + ["一", "二", "三"][i]
         && f.description == "用于启动验证和主要流程演示的" + title + "记录"
  {
    forall i | 0 <= i < 3 ensures Examples(entity, now)[i] == Example(entity, now, i) {
    }
  }

  /** What the promises demand of created records the seeded ones show too: duties are separate, drafts are open. */
  lemma ExamplesSeparateDuties(now: int, i: nat)
    requires i < 3
    ensures var row := Examples(CertificateRecord, now)[i];
      && row.control.Certificate? && row.control.preparedBy == "operator"
      && row.control.verifiedBy == if row.status == Draft then "" else "reviewer"
    ensures var row := Examples(ReleaseAuthorization, now)[i];
      && row.control.Authorization?
      && row.control.submittedBy == (if row.status == Draft then "" else "operator")
      && row.control.reviewedBy == (if row.status == Approved then "reviewer" else "")
      && row.control.reviewReason == (if row.status == Approved then "演示数据双人复核通过" else "")
  {
  }

  // ---------- A start ----------

  /** What the database does to the seeding of one table: the keys it picks, and what fails. */
  datatype Plan = Plan(ids: (nat, nat, nat), countFails: bool, fault: Fault, at: nat)

  function Ids(plan: Plan): (ids: seq<nat>)
    ensures |ids| == 3
  {
    [plan.ids.0, plan.ids.1, plan.ids.2]
  }

  predicate Smooth(plan: Plan) {
    && plan.ids.0 != plan.ids.1 && plan.ids.0 != plan.ids.2 && plan.ids.1 != plan.ids.2
    && !plan.countFails && plan.fault == NoFault
  }

  predicate Untouched(rows: map<Key, Row>, entity: Entity) {
    forall key :: key in rows ==> key.entity != entity
  }

  /** The rows of one table are the examples, under the keys of the plan. */
  predicate HoldsExamples(rows: map<Key, Row>, entity: Entity, now: int, plan: Plan) {
    forall i :: 0 <= i < 3 ==>
      Key(entity, Ids(plan)[i]) in rows && rows[Key(entity, Ids(plan)[i])] == Example(entity, now, i)
  }

  /** What seeding one table keeps: the other tables, and a seeded database. */
  ghost predicate SeedsOnly(before: Tables, after: Tables, entity: Entity) {
    && (forall key :: key in before.rows ==> key in after.rows && after.rows[key] == before.rows[key])
    && (forall key :: key in after.rows && key.entity != entity ==> key in before.rows)
    && (Seeded(before) ==> Seeded(after))
  }

  lemma ExamplesFit(db: Tables, entity: Entity, now: int, plan: Plan)
    requires Seeded(db) && Untouched(db.rows, entity) && Smooth(plan)
    ensures Fits(db, entity, Ids(plan), Examples(entity, now))
  {
    var ids, items := Ids(plan), Examples(entity, now);
    InitIsSafe(System(db, map[], {}));
    SeedRevisionsFit(db, entity, ids, items);
    forall i | 0 <= i < |items| ensures RowFits(db.rows, entity, ids, items, i) {
      forall k | 0 <= k < i ensures ids[k] != ids[i] && items[k].code != items[i].code {
        ExamplesAreGood(entity, now, i, k);
        ExamplesAreGood(entity, now, k, i);
      }
    }
  }

  lemma SeedingEffect(db: Tables, entity: Entity, now: int, plan: Plan)
    requires Fits(db, entity, Ids(plan), Examples(entity, now))
    ensures var after := WithSeeds(db, entity, Ids(plan), Examples(entity, now), 3);
      SeedsOnly(db, after, entity) && HoldsExamples(after.rows, entity, now, plan) && HasLive(after.rows, entity)
  {
    var ids, items := Ids(plan), Examples(entity, now);
    WithRowsHas(db.rows, entity, ids, items, 3);
    forall i | 0 <= i < 3 ensures items[i] == Example(entity, now, i) && GoodSeed(entity, items[i]) {
      ExamplesAreGood(entity, now, i, i);
    }
    if Seeded(db) {
      SeedsStaySeeded(db, entity, ids, items, 3);
    }
    assert Key(entity, ids[0]) in WithRows(db.rows, entity, ids, items, 3);
  }

  /** One seed function: its table is left alone, filled, or the start fails and nothing has changed. */
  ghost predicate TableSeeded(before: Tables, after: Tables, entity: Entity, now: int, plan: Plan, ok: bool) {
    && SeedsOnly(before, after, entity)
    && (if ok then HasLive(after.rows, entity) else after == before)
    && (Seeded(before) && Untouched(before.rows, entity) && Smooth(plan) ==>
          ok && HoldsExamples(after.rows, entity, now, plan))
    && (HasLive(before.rows, entity) && !plan.countFails ==> ok && after == before)
  }

  method SeedExamples(server: Server, entity: Entity, now: int, plan: Plan) returns (r: Result<(), Error>)
    modifies server`rows, server`revisions, server`audits
    ensures TableSeeded(old(server.Db()), server.Db(), entity, now, plan, r.Ok?)
  {
    ghost var before := server.Db();
    r := SeedTable(server, entity, Ids(plan), Examples(entity, now), plan.countFails, plan.fault, plan.at);
    if Fits(before, entity, Ids(plan), Examples(entity, now)) {
      SeedingEffect(before, entity, now, plan);
    }
    if Seeded(before) && Untouched(before.rows, entity) && Smooth(plan) {
      ExamplesFit(before, entity, now, plan);
    }
  }

  /** A start that has come past some of the tables. */
  ghost predicate Started(before: Tables, after: Tables, done: set<Entity>, now: int, plan: Entity -> Plan, ok: bool) {
    && (forall key :: key in before.rows ==> key in after.rows && after.rows[key] == before.rows[key])
    && (forall key :: key in after.rows && key.entity !in done ==> key in before.rows)
    && (Seeded(before) ==> Seeded(after))
    && (ok ==> forall entity :: entity in done ==> HasLive(after.rows, entity))
    && (Seeded(before) && before.rows == map[] && (forall entity :: Smooth(plan(entity))) ==>
          ok && forall entity :: entity in done ==> HoldsExamples(after.rows, entity, now, plan(entity)))
    && ((forall entity :: HasLive(before.rows, entity) && !plan(entity).countFails) ==> ok && after == before)
  }

  lemma LiveStays(before: map<Key, Row>, after: map<Key, Row>, entity: Entity)
    requires forall key :: key in before ==> key in after && after[key] == before[key]
    ensures HasLive(before, entity) ==> HasLive(after, entity)
  {
    if HasLive(before, entity) {
      var key :| key in before && key.entity == entity && !before[key].deleted;
      assert key in after;
    }
  }

  lemma ExamplesStay(before: map<Key, Row>, after: map<Key, Row>, entity: Entity, now: int, plan: Plan)
    requires forall key :: key in before ==> key in after && after[key] == before[key]
    ensures HoldsExamples(before, entity, now, plan) ==> HoldsExamples(after, entity, now, plan)
  {
    hide Example, Ids;
  }

  lemma OneTableMore(before: Tables, mid: Tables, after: Tables, done: set<Entity>, entity: Entity,
                     now: int, plan: Entity -> Plan, ok: bool)
    requires Started(before, mid, done, now, plan, true) && entity !in done
    requires TableSeeded(mid, after, entity, now, plan(entity), ok)
    ensures Started(before, after, done + {entity}, now, plan, ok)
  {
    forall e | e in done ensures HasLive(mid.rows, e) ==> HasLive(after.rows, e) {
      LiveStays(mid.rows, after.rows, e);
    }
    forall e | e in done
      ensures HoldsExamples(mid.rows, e, now, plan(e)) ==> HoldsExamples(after.rows, e, now, plan(e))
    {
      ExamplesStay(mid.rows, after.rows, e, now, plan(e));
    }
    hide Seeded, Smooth, HasLive, HoldsExamples;
  }

  const ALL: set<Entity> := {AircraftPart, InspectionTask, CertificateRecord, ReleaseAuthorization}

  lemma AllEntities(entity: Entity)
    ensures entity in ALL
  {
  }

  /** The order in which the tables are seeded. */
  function Turn(entity: Entity): nat {
    match entity
    case AircraftPart => 0
    case InspectionTask => 1
    case CertificateRecord => 2
    case ReleaseAuthorization => 3
  }

  predicate SameTable(before: map<Key, Row>, after: map<Key, Row>, entity: Entity) {
    && (forall key :: key in before && key.entity == entity ==> key in after && after[key] == before[key])
    && (forall key :: key in after && key.entity == entity ==> key in before)
  }

  /** No table is filled when one before it in the order has been left empty. */
  lemma StartKeepsOrder(before: Tables, mid: Tables, after: Tables, done: set<Entity>, entity: Entity,
                        now: int, plan: Entity -> Plan, ok: bool)
    requires Started(before, mid, done, now, plan, true) && TableSeeded(mid, after, entity, now, plan(entity), ok)
    requires forall e :: e in done <==> Turn(e) < Turn(entity)
    ensures forall first, second :: Turn(first) < Turn(second) && !HasLive(after.rows, first) ==>
      SameTable(before.rows, after.rows, second)
  {
    hide Seeded, Smooth, Example, Ids, Fits;
    forall e | e in done ensures HasLive(after.rows, e) {
      LiveStays(mid.rows, after.rows, e);
    }
  }

  /** The four of them, one after the other, each in a transaction of its own; the first error ends the start. */
  method Seed(server: Server, now: int, plan: Entity -> Plan) returns (r: Result<(), Error>)
    modifies server`rows, server`revisions, server`audits
    ensures Started(old(server.Db()), server.Db(), ALL, now, plan, r.Ok?)
    ensures forall first, second :: Turn(first) < Turn(second) && !HasLive(server.rows, first) ==>
      SameTable(old(server.rows), server.rows, second)
  {
    hide Seeded, HasLive, Smooth, HoldsExamples, TableSeeded, SameTable;
    ghost var before := server.Db();
    assert Started(before, before, {}, now, plan, true);
    r := SeedExamples(server, AircraftPart, now, plan(AircraftPart));
    OneTableMore(before, before, server.Db(), {}, AircraftPart, now, plan, r.Ok?);
    StartKeepsOrder(before, before, server.Db(), {}, AircraftPart, now, plan, r.Ok?);
    if r.Err? {
      return;
    }
    ghost var parts := server.Db();
    r := SeedExamples(server, InspectionTask, now, plan(InspectionTask));
    OneTableMore(before, parts, server.Db(), {AircraftPart}, InspectionTask, now, plan, r.Ok?);
    StartKeepsOrder(before, parts, server.Db(), {AircraftPart}, InspectionTask, now, plan, r.Ok?);
    if r.Err? {
      return;
    }
    ghost var tasks := server.Db();
    r := SeedExamples(server, CertificateRecord, now, plan(CertificateRecord));
    OneTableMore(before, tasks, server.Db(), {AircraftPart, InspectionTask}, CertificateRecord, now, plan, r.Ok?);
    StartKeepsOrder(before, tasks, server.Db(), {AircraftPart, InspectionTask}, CertificateRecord, now, plan, r.Ok?);
    if r.Err? {
      return;
    }
    ghost var certificates := server.Db();
    r := SeedExamples(server, ReleaseAuthorization, now, plan(ReleaseAuthorization));
    OneTableMore(before, certificates, server.Db(), {AircraftPart, InspectionTask, CertificateRecord},
                 ReleaseAuthorization, now, plan, r.Ok?);
    StartKeepsOrder(before, certificates, server.Db(), {AircraftPart, InspectionTask, CertificateRecord},
                    ReleaseAuthorization, now, plan, r.Ok?);
    hide Started;
    assert {AircraftPart, InspectionTask, CertificateRecord} + {ReleaseAuthorization} == ALL;
  }

  /** The first start of the program, when nothing fails, reaches an initial state with all the examples. */
  method FirstStart(now: int, plan: Entity -> Plan) returns (server: Server)
    requires forall entity :: Smooth(plan(entity))
    ensures fresh(server) && Init(server.State())
    ensures forall entity :: HoldsExamples(server.rows, entity, now, plan(entity))
  {
    server := new Server();
    ghost var empty := server.State();
    var r := Seed(server, now, plan);
    forall entity ensures HoldsExamples(server.rows, entity, now, plan(entity)) {
      AllEntities(entity);
    }
  }

  // ---------- Later starts ----------

  /**
   * A table of certificates or authorizations that was seeded with a released record has a live
   * row at every later start, so that start leaves it alone and does not fail on it.
   */
  lemma ReleasedSeedKeepsTable(s: System, steps: seq<Step>, key: Key)
    requires Init(s) && ObservedRun(s, steps) && key in s.db.rows && IsReleased(key.entity, s.db.rows[key].status)
    ensures HasLive(Exec(s, steps).db.rows, key.entity)
  {
    assert steps[..0] == [] && Exec(s, []) == s;
    hide Exec, IsReleased, ObservedRun;
    ReleasedRecordStaysLive(s, steps, key, 0);
  }

  /** The examples hold such a record for both entities. */
  lemma ExamplesKeepTables(s: System, steps: seq<Step>, now: int, plan: Plan, entity: Entity)
    requires Init(s) && ObservedRun(s, steps) && Versioned(entity) && HoldsExamples(s.db.rows, entity, now, plan)
    ensures HasLive(Exec(s, steps).db.rows, entity)
  {
    var key := Key(entity, Ids(plan)[2]);
    assert key in s.db.rows && s.db.rows[key] == Example(entity, now, 2);
    hide Exec, ObservedRun, Init;
    ReleasedSeedKeepsTable(s, steps, key);
  }

  const PART: Key := Key(AircraftPart, 1)
  const REMOVAL: Request := Request(PART, 0, Command(Remove, "ann", Operator, "r", 0))

  lemma AfterRemoval(s: System, item: Row)
    requires GoodSeed(AircraftPart, item) && s.db.rows == map[PART := item] && s.inflight == map[]
    ensures Exec(s, Whole(1, REMOVAL)).db.rows == map[PART := item.(deleted := true)]
  {
    hide CreateRow, LateAudit;
    AfterReading(s, 1, REMOVAL);
    ExecAppend(s, [Issue(1, REMOVAL), Read(1)], Commit(1, NoFault));
    var t := Exec(s, [Issue(1, REMOVAL), Read(1)]);
    assert 1 in t.inflight && t.inflight[1] == Loaded(REMOVAL, item);
    assert CommitResult(t.db, REMOVAL, item, NoFault) == SoftDelete(t.db, PART, NoFault);
    hide Exec;
  }

  /**
   * Parts have no such protection. A start on an empty database seeds a part, a client deletes
   * it, and the next start fails, whichever key the database picks.
   */
  method RestartAfterDeletion(item: Row, id: nat) returns (first: Result<(), Error>, second: Result<(), Error>)
    requires GoodSeed(AircraftPart, item)
    ensures first.Ok? && second.Err?
  {
    var server := new Server();
    ghost var empty := server.Db();
    first := SeedTable(server, AircraftPart, [1], [item], false, NoFault, 0);
    assert Fits(empty, AircraftPart, [1], [item]);
    assert WithRows(empty.rows, AircraftPart, [1], [item], 0) == map[];
    assert server.rows == map[PART := item];
    AfterRemoval(server.State(), item);
    server.Others(Whole(1, REMOVAL));
    assert server.rows == map[PART := item.(deleted := true)];
    assert CodeTaken(server.rows, AircraftPart, item.code);
    assert !RowFits(server.rows, AircraftPart, [id], [item], 0);
    second := SeedTable(server, AircraftPart, [id], [item], false, NoFault, 0);
  }
}
