/** Aircraft parts: their graph has cycles, so nothing is final, but nothing is released unseen either. */
module Parts {
  import opened Constants
  import opened Model
  import opened Services
  import opened Repository
  import opened History
  import opened Protocol
  import opened Safety
  import opened Serializability
  import opened Inspections

  /** A part that has been inspected or held, or is still where it arrived. */
  ghost predicate SeenBeforeRelease(db: Tables, events: seq<Event>, key: Key) {
    key in db.rows && db.rows[key].status != Received ==>
      Moves(events, key, Inspection) + Moves(events, key, Hold) > 0
  }

  lemma PartCall(row: Row, cmd: Command)
    requires row.control.Part? && !cmd.op.Remove? && Decide(row, cmd).Ok?
    ensures cmd.op.UpdateFields? ==> NextRow(row, cmd).status == row.status
    ensures cmd.op.MoveTo? ==>
      cmd.op.target == NextRow(row, cmd).status && (row.status == Received ==> cmd.op.target in {Inspection, Hold})
  {
    DecideFrame(row, cmd);
  }

  lemma UntouchedPart(db: Tables, e: Event, key: Key)
    requires key.entity == AircraftPart && Legal(db, e) && !(e.Changed? && e.key == key)
    ensures var after := SerialStep(db, e);
      key in after.rows ==> after.rows[key].status == if key in db.rows then db.rows[key].status else Received
  {
    hide Decide;
  }

  lemma EventSeesPart(db: Tables, events: seq<Event>, e: Event, key: Key)
    requires key.entity == AircraftPart && Legal(db, e) && SeenBeforeRelease(db, events, key)
    requires key in db.rows ==> ControlMatches(key.entity, db.rows[key].control)
    ensures SeenBeforeRelease(SerialStep(db, e), events + [e], key)
  {
    MovesAppend(events, e, key, Inspection);
    MovesAppend(events, e, key, Hold);
    hide Decide, Moves;
    if e.Changed? && e.key == key {
      PartCall(db.rows[key], e.command);
      assert SerialStep(db, e).rows[key] == NextRow(db.rows[key], e.command);
    } else {
      UntouchedPart(db, e, key);
    }
  }

  /** A part that arrived as received has been moved to inspection or hold before it is released or retired. */
  lemma {:induction false} PartsAreSeenBeforeRelease(s: System, steps: seq<Step>, key: Key)
    requires Init(s) && ObservedRun(s, steps) && key.entity == AircraftPart
    requires key in s.db.rows ==> s.db.rows[key].status == Received
    ensures SeenBeforeRelease(Exec(s, steps).db, Log(s, steps), key)
  {
    if steps == [] {
    } else {
      var n := |steps| - 1;
      RunPrefix(s, steps, n);
      PartsAreSeenBeforeRelease(s, steps[..n], key);
      RunKeepsVersionsReceived(s, steps[..n]);
      var before := Exec(s, steps[..n]);
      assert RecordSafe(before.db, key);
      hide Apply, EventOf, Legal, SerialStep, SeenBeforeRelease, Decide;
      StepRefines(before, steps[n]);
      if EventOf(before, steps[n]).Some? {
        EventSeesPart(before.db, Log(s, steps[..n]), EventOf(before, steps[n]).value, key);
      }
    }
  }
}
