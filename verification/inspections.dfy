/** Retries of inspection tasks: what the committed transitions of one task add up to. */
module Inspections {
  import opened Constants
  import opened Model
  import opened Services
  import opened Repository
  import opened History
  import opened Protocol
  import opened Safety
  import opened Serializability
  import opened Guarantees

  predicate IsMove(e: Event, key: Key, target: Status) {
    e.Changed? && e.key == key && e.command.op.MoveTo? && e.command.op.target == target
  }

  /** How often the record has been moved into a status. */
  function Moves(events: seq<Event>, key: Key, target: Status): nat {
    if events == [] then 0
    else Moves(events[..|events| - 1], key, target) + (if IsMove(events[|events| - 1], key, target) then 1 else 0)
  }

  lemma MovesAppend(events: seq<Event>, e: Event, key: Key, target: Status)
    ensures Moves(events + [e], key, target) == Moves(events, key, target) + (if IsMove(e, key, target) then 1 else 0)
  {
    assert (events + [e])[..|events|] == events;
  }

  /** How often a task in a status has been run, passed and failed. */
  predicate Accounts(status: Status, runs: nat, passes: nat, failures: nat) {
    match status
    case Planned => runs == passes == failures == 0
    case Running => runs == failures + 1 && passes == 0
    case Failed => runs == failures && failures > 0 && passes == 0
    case Passed => runs == failures + 1 && passes == 1
    case _ => false
  }

  /** The accounts of one task in the log of a run; a task that does not exist yet counts as planned. */
  ghost predicate Balanced(db: Tables, events: seq<Event>, key: Key) {
    var status := if key in db.rows then db.rows[key].status else Planned;
    Accounts(status, Moves(events, key, Running), Moves(events, key, Passed), Moves(events, key, Failed))
  }

  lemma TaskEdges(from: Status, to: Status)
    ensures CanTransition(INSPECTION_TASK_TRANSITIONS, from, to) <==>
      || (from == Planned && to == Running)
      || (from == Running && (to == Passed || to == Failed))
      || (from == Failed && to == Running)
  {
  }

  /** An atomic call on a task keeps its status or follows one of four edges. */
  lemma TaskCall(row: Row, cmd: Command)
    requires row.control.Task? && !cmd.op.Remove? && Decide(row, cmd).Ok?
    ensures cmd.op.UpdateFields? ==> NextRow(row, cmd).status == row.status
    ensures cmd.op.MoveTo? ==>
      var to := NextRow(row, cmd).status;
      && cmd.op.target == to
      && (|| (row.status == Planned && to == Running)
          || (row.status == Running && (to == Passed || to == Failed))
          || (row.status == Failed && to == Running))
  {
    DecideFrame(row, cmd);
    if cmd.op.MoveTo? {
      TaskEdges(row.status, cmd.op.target);
    }
  }

  lemma UntouchedTask(db: Tables, e: Event, key: Key)
    requires key.entity == InspectionTask && Legal(db, e) && !(e.Changed? && e.key == key)
    ensures var after := SerialStep(db, e);
      key in after.rows ==> after.rows[key].status == if key in db.rows then db.rows[key].status else Planned
    ensures key in db.rows ==> key in SerialStep(db, e).rows
  {
    hide Decide;
  }

  lemma EventBalances(db: Tables, events: seq<Event>, e: Event, key: Key)
    requires key.entity == InspectionTask && Legal(db, e) && Balanced(db, events, key)
    requires key in db.rows ==> ControlMatches(key.entity, db.rows[key].control)
    ensures Balanced(SerialStep(db, e), events + [e], key)
  {
    MovesAppend(events, e, key, Running);
    MovesAppend(events, e, key, Passed);
    MovesAppend(events, e, key, Failed);
    hide Decide, Moves;
    if e.Changed? && e.key == key {
      TaskCall(db.rows[key], e.command);
      assert SerialStep(db, e).rows[key] == NextRow(db.rows[key], e.command);
    } else {
      UntouchedTask(db, e, key);
    }
  }

  /**
   * Every entry into running is left once by passing or failing, or is the one going on now;
   * a passed task has exactly one more run than failures. Field updates count for nothing.
   */
  lemma {:induction false} InspectionRetriesBalance(s: System, steps: seq<Step>, key: Key)
    requires Init(s) && ObservedRun(s, steps) && key.entity == InspectionTask
    requires key in s.db.rows ==> s.db.rows[key].status == Planned
    ensures Balanced(Exec(s, steps).db, Log(s, steps), key)
    ensures key in Exec(s, steps).db.rows ==>
      Moves(Log(s, steps), key, Running) - Moves(Log(s, steps), key, Passed) - Moves(Log(s, steps), key, Failed)
      == if RowOf(s, steps, key).status == Running then 1 else 0
  {
    if steps == [] {
    } else {
      var n := |steps| - 1;
      RunPrefix(s, steps, n);
      InspectionRetriesBalance(s, steps[..n], key);
      RunKeepsVersionsReceived(s, steps[..n]);
      var before := Exec(s, steps[..n]);
      assert RecordSafe(before.db, key);
      StepRefines(before, steps[n]);
      if EventOf(before, steps[n]).Some? {
        EventBalances(before.db, Log(s, steps[..n]), EventOf(before, steps[n]).value, key);
      }
    }
  }

  lemma PassedCallStays(row: Row, cmd: Command)
    requires row.control.Task? && row.status == Passed && !cmd.op.Remove? && Decide(row, cmd).Ok?
    ensures NextRow(row, cmd).status == Passed
  {
    DecideFrame(row, cmd);
  }

  /** A passed task never changes status again, however often its fields are edited. */
  lemma {:induction false} PassedIsFinal(s: System, steps: seq<Step>, key: Key, from: nat)
    requires Init(s) && ObservedRun(s, steps) && key.entity == InspectionTask
    requires from <= |steps| && key in Exec(s, steps[..from]).db.rows
    requires RowOf(s, steps[..from], key).status == Passed
    ensures key in Exec(s, steps).db.rows && RowOf(s, steps, key).status == Passed
    decreases |steps|
  {
    hide Exec, Init, ObservedRun, Decide;
    if from == |steps| {
      assert steps[..from] == steps;
    } else {
      var init := steps[..|steps| - 1];
      RunPrefix(s, steps, |steps| - 1);
      assert init[..from] == steps[..from];
      PassedIsFinal(s, init, key, from);
      StepOnRecord(s, steps, key);
      var row, after := RowOf(s, init, key), RowOf(s, steps, key);
      if Content(after) != Content(row) {
        var cmd: Command :| !cmd.op.Remove? && Decide(row, cmd).Ok? && after == NextRow(row, cmd);
        PassedCallStays(row, cmd);
      }
    }
  }
}
