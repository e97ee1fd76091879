/** The demonstration records a fresh database starts with. */
module Seeding {
  import opened Wrappers
  import opened Model
  import opened Repository
  import opened Protocol
  import opened Safety
  import opened Backend

  /** The records of one table as they are written down in the program. */
  predicate GoodSeed(entity: Entity, item: Row) {
    item.version == 1 && !item.deleted && ControlMatches(entity, item.control)
  }

  /** The revision of a seeded row names the program, not a person. */
  lemma SeedRevisionTells(key: Key, row: Row)
    ensures SeedRevision(key, row)
         == Revision(key, row.version, row.status, row.fields.evidence, "system-seed", "seed-gb-515", SeedAction,
                     if key.entity == CertificateRecord then "initial demonstration certificate"
                     else "initial demonstration authorization")
  {
  }

  predicate HasLive(rows: map<Key, Row>, entity: Entity) {
    exists key :: key in rows && key.entity == entity && !rows[key].deleted
  }

  // ---------- What the transaction is to do ----------

  /** The rows with the first n items stored under the keys the database picks for them. */
  function WithRows(rows: map<Key, Row>, entity: Entity, ids: seq<nat>, items: seq<Row>, n: nat): map<Key, Row>
    requires n <= |ids| == |items|
  {
    if n == 0 then rows
    else WithRows(rows, entity, ids, items, n - 1)[Key(entity, ids[n - 1]) := items[n - 1]]
  }

  /** The revisions with those of the first n items. */
  function WithRevisions(log: seq<Revision>, entity: Entity, ids: seq<nat>, items: seq<Row>, n: nat): seq<Revision>
    requires n <= |ids| == |items|
  {
    if n == 0 || !Versioned(entity) then log
    else WithRevisions(log, entity, ids, items, n - 1) + [SeedRevision(Key(entity, ids[n - 1]), items[n - 1])]
  }

  function WithSeeds(db: Tables, entity: Entity, ids: seq<nat>, items: seq<Row>, n: nat): Tables
    requires n <= |ids| == |items|
  {
    Tables(WithRows(db.rows, entity, ids, items, n), WithRevisions(db.revisions, entity, ids, items, n), db.audits)
  }

  /** Key and code of an item are free, in the table and among the items before it. */
  predicate RowFits(rows: map<Key, Row>, entity: Entity, ids: seq<nat>, items: seq<Row>, n: nat)
    requires n < |ids| == |items|
  {
    && Key(entity, ids[n]) !in rows && !CodeTaken(rows, entity, items[n].code)
    && forall k :: 0 <= k < n ==> ids[k] != ids[n] && items[k].code != items[n].code
  }

  predicate RevisionFits(log: seq<Revision>, entity: Entity, ids: seq<nat>, items: seq<Row>, n: nat)
    requires n < |ids| == |items|
  {
    Versioned(entity) ==> !IndexTaken(log, Key(entity, ids[n]), items[n].version)
  }

  predicate Fits(db: Tables, entity: Entity, ids: seq<nat>, items: seq<Row>)
    requires |ids| == |items|
  {
    forall i :: 0 <= i < |items| ==>
      RowFits(db.rows, entity, ids, items, i) && RevisionFits(db.revisions, entity, ids, items, i)
  }

  /** A write of the transaction fails for a reason of its own: that of a row or a revision at a position. */
  predicate Strikes(entity: Entity, items: seq<Row>, fault: Fault, at: nat) {
    at < |items| && (fault == RowWriteFails || (fault == RevisionWriteFails && Versioned(entity)))
  }

  lemma {:induction false} WithRowsHas(rows: map<Key, Row>, entity: Entity, ids: seq<nat>, items: seq<Row>, n: nat)
    requires n <= |ids| == |items| && forall i :: 0 <= i < n ==> RowFits(rows, entity, ids, items, i)
    ensures var all := WithRows(rows, entity, ids, items, n);
      && (forall key :: key in rows ==> key in all && all[key] == rows[key])
      && (forall k :: 0 <= k < n ==> Key(entity, ids[k]) in all && all[Key(entity, ids[k])] == items[k])
      && (forall key :: key in all ==> key in rows || exists k :: 0 <= k < n && key == Key(entity, ids[k]))
  {
    if n == 0 {
    } else {
      WithRowsHas(rows, entity, ids, items, n - 1);
      assert RowFits(rows, entity, ids, items, n - 1);
    }
  }

  /** Whether the next row can be inserted, seen from the table as it was before the transaction. */
  lemma NextRowFits(rows: map<Key, Row>, entity: Entity, ids: seq<nat>, items: seq<Row>, n: nat)
    requires n < |ids| == |items| && forall i :: 0 <= i < n ==> RowFits(rows, entity, ids, items, i)
    ensures var all := WithRows(rows, entity, ids, items, n);
      RowFits(rows, entity, ids, items, n) <==> Key(entity, ids[n]) !in all && !CodeTaken(all, entity, items[n].code)
  {
    WithRowsHas(rows, entity, ids, items, n);
    var all := WithRows(rows, entity, ids, items, n);
    forall k | 0 <= k < n ensures Key(entity, ids[k]) in all && all[Key(entity, ids[k])] == items[k] {
    }
  }

  lemma {:induction false} NextRevisionFits(log: seq<Revision>, entity: Entity, ids: seq<nat>, items: seq<Row>, n: nat,
                                            key: Key, version: nat)
    requires n <= |ids| == |items| && forall k :: 0 <= k < n ==> key != Key(entity, ids[k])
    ensures IndexTaken(WithRevisions(log, entity, ids, items, n), key, version) <==> IndexTaken(log, key, version)
  {
    if n == 0 || !Versioned(entity) {
    } else {
      NextRevisionFits(log, entity, ids, items, n - 1, key, version);
      var init := WithRevisions(log, entity, ids, items, n - 1);
      var last := SeedRevision(Key(entity, ids[n - 1]), items[n - 1]);
      assert forall i :: 0 <= i < |init| ==> (init + [last])[i] == init[i];
    }
  }

  // ---------- What it leaves ----------

  lemma SeedOneMore(db: Tables, key: Key, item: Row)
    requires Seeded(db) && key !in db.rows && GoodSeed(key.entity, item)
    ensures Seeded(Tables(db.rows[key := item],
                          db.revisions + if Versioned(key.entity) then [SeedRevision(key, item)] else [], db.audits))
  {
    var after := Tables(db.rows[key := item],
                        db.revisions + if Versioned(key.entity) then [SeedRevision(key, item)] else [], db.audits);
    forall other ensures RevisionsOf(after.revisions, other)
                      == if other in after.rows && Versioned(other.entity)
                         then [SeedRevision(other, after.rows[other])] else []
    {
      assert RevisionsOf(db.revisions, other)
          == if other in db.rows && Versioned(other.entity) then [SeedRevision(other, db.rows[other])] else [];
      if Versioned(key.entity) {
        RevisionsOfAppend(db.revisions, SeedRevision(key, item), other);
      } else {
        assert db.revisions + [] == db.revisions;
      }
    }
  }

  /** Seeding table after table leaves a state the promises about runs start from. */
  lemma {:induction false} SeedsStaySeeded(db: Tables, entity: Entity, ids: seq<nat>, items: seq<Row>, n: nat)
    requires Seeded(db) && n <= |ids| == |items| && Fits(db, entity, ids, items)
    requires forall i :: 0 <= i < |items| ==> GoodSeed(entity, items[i])
    ensures Seeded(WithSeeds(db, entity, ids, items, n))
  {
    if n == 0 {
    } else {
      assert forall i :: 0 <= i < |items| ==> RowFits(db.rows, entity, ids, items, i);
      hide Seeded, Fits, CodeTaken;
      SeedsStaySeeded(db, entity, ids, items, n - 1);
      NextRowFits(db.rows, entity, ids, items, n - 1);
      var before := WithSeeds(db, entity, ids, items, n - 1);
      SeedOneMore(before, Key(entity, ids[n - 1]), items[n - 1]);
      assert before.revisions + [] == before.revisions;
    }
  }

  /** The revision index turns down no seed that the table accepts. */
  lemma SeedRevisionsFit(db: Tables, entity: Entity, ids: seq<nat>, items: seq<Row>)
    requires DatabaseSafe(db) && |ids| == |items|
    ensures Fits(db, entity, ids, items) <==> forall i :: 0 <= i < |items| ==> RowFits(db.rows, entity, ids, items, i)
  {
    forall i | 0 <= i < |items| && RowFits(db.rows, entity, ids, items, i)
      ensures RevisionFits(db.revisions, entity, ids, items, i)
    {
      var key := Key(entity, ids[i]);
      assert RecordSafe(db, key);
      RevisionsOfMembers(db.revisions, key);
      forall k | 0 <= k < |db.revisions| && db.revisions[k].key == key
        ensures db.revisions[k] in RevisionsOf(db.revisions, key)
      {
      }
    }
  }

  /**
   * A start after any run never seeds a table a second time: soft-deleted rows keep their codes,
   * so the table either has live rows or refuses the same items.
   */
  lemma SeedsNeverFitAgain(s: System, steps: seq<Step>, entity: Entity, ids: seq<nat>, items: seq<Row>, again: seq<nat>)
    requires Init(s) && |ids| == |items| == |again| && items != []
    requires Key(entity, ids[0]) in s.db.rows && s.db.rows[Key(entity, ids[0])].code == items[0].code
    ensures !Fits(Exec(s, steps).db, entity, again, items)
  {
    assert Exec(s, steps[..0]) == s;
    hide Exec, Init;
    InitIsSafe(s);
    ExecGrowsRows(s, steps, 0);
    assert CodeTaken(Exec(s, steps).db.rows, entity, items[0].code);
    assert !RowFits(Exec(s, steps).db.rows, entity, again, items, 0);
  }

  // ---------- The seed functions ----------

  /** One batch insert of rows. It fails at position `at`, or because a key or a code is taken. */
  method CreateItems(server: Server, entity: Entity, ids: seq<nat>, items: seq<Row>, fault: Fault, at: nat)
    returns (r: Result<(), Error>)
    requires |ids| == |items|
    modifies server`rows
    ensures r.Ok? <==> !(fault == RowWriteFails && at < |items|)
                       && forall i :: 0 <= i < |items| ==> RowFits(old(server.rows), entity, ids, items, i)
    ensures r.Ok? ==> server.rows == WithRows(old(server.rows), entity, ids, items, |items|)
  {
    ghost var start := server.rows;
    r := Ok(());
    for i := 0 to |items|
      invariant r == Ok(())
      invariant server.rows == WithRows(start, entity, ids, items, i)
      invariant forall k :: 0 <= k < i ==> RowFits(start, entity, ids, items, k)
      invariant fault == RowWriteFails ==> i <= at
    {
      NextRowFits(start, entity, ids, items, i);
      hide RowFits, CodeTaken;
      r := server.InsertRow(Key(entity, ids[i]), items[i], if i == at then fault else NoFault);
      if r.Err? {
        assert !RowFits(start, entity, ids, items, i) || (i == at && fault == RowWriteFails);
        return;
      }
    }
  }

  /** One batch insert of the revisions of rows that have just been stored. */
  method CreateRevisions(server: Server, entity: Entity, ids: seq<nat>, items: seq<Row>, fault: Fault, at: nat)
    returns (r: Result<(), Error>)
    requires |ids| == |items| && Versioned(entity)
    requires forall i, k :: 0 <= k < i < |ids| ==> ids[k] != ids[i]
    modifies server`revisions
    ensures r.Ok? <==> !(fault == RevisionWriteFails && at < |items|)
                       && forall i :: 0 <= i < |items| ==> RevisionFits(old(server.revisions), entity, ids, items, i)
    ensures r.Ok? ==> server.revisions == WithRevisions(old(server.revisions), entity, ids, items, |items|)
  {
    ghost var start := server.revisions;
    r := Ok(());
    for i := 0 to |items|
      invariant r == Ok(())
      invariant server.revisions == WithRevisions(start, entity, ids, items, i)
      invariant forall k :: 0 <= k < i ==> RevisionFits(start, entity, ids, items, k)
      invariant fault == RevisionWriteFails ==> i <= at
    {
      var key := Key(entity, ids[i]);
      NextRevisionFits(start, entity, ids, items, i, key, items[i].version);
      hide IndexTaken;
      r := server.InsertRevision(SeedRevision(key, items[i]), if i == at then fault else NoFault);
      if r.Err? {
        assert !RevisionFits(start, entity, ids, items, i) || (i == at && fault == RevisionWriteFails);
        return;
      }
    }
  }

  /**
   * Fills one table unless it has live rows already, in one transaction: first all the rows, then
   * for a versioned entity a revision of each. The database picks the keys. Whatever fails undoes
   * the writes before it.
   */
  method SeedTable(server: Server, entity: Entity, ids: seq<nat>, items: seq<Row>, countFails: bool, fault: Fault,
                   at: nat)
    returns (r: Result<(), Error>)
    requires |ids| == |items|
    modifies server`rows, server`revisions, server`audits
    ensures r.Ok? <==> !countFails && (HasLive(old(server.rows), entity)
                                       || (Fits(old(server.Db()), entity, ids, items)
                                           && !Strikes(entity, items, fault, at)))
    ensures server.Db() == if r.Err? || HasLive(old(server.rows), entity) then old(server.Db())
                           else WithSeeds(old(server.Db()), entity, ids, items, |items|)
  {
    if countFails {
      return Err(StorageFailure);
    }
    if HasLive(server.rows, entity) {
      return Ok(());
    }
    var saved := server.Db();
    r := CreateItems(server, entity, ids, items, fault, at);
    if r.Ok? && Versioned(entity) {
      forall i, k | 0 <= k < i < |ids| ensures ids[k] != ids[i] {
        assert RowFits(saved.rows, entity, ids, items, i);
      }
      r := CreateRevisions(server, entity, ids, items, fault, at);
    }
    if r.Err? {
      server.Rollback(saved);
    }
  }
}
