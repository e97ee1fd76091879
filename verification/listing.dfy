/** Lists: paging over the stored rows, and the revisions attached to each item of a page. */
module Listing {
  import opened Wrappers
  import opened Model
  import opened Repository
  import opened Protocol
  import opened Safety

  // ---------- Sorted answers ----------

  ghost predicate StrictOrder<T(!new)>(less: (T, T) -> bool) {
    && (forall a :: !less(a, a))
    && (forall a, b, c :: less(a, b) && less(b, c) ==> less(a, c))
  }

  ghost predicate Sorted<T>(s: seq<T>, less: (T, T) -> bool) {
    forall i, j :: 0 <= i < j < |s| ==> less(s[i], s[j])
  }

  ghost predicate SameMembers<T(!new)>(a: seq<T>, b: seq<T>) {
    forall x :: x in a <==> x in b
  }

  lemma FirstIsLeast<T>(a: seq<T>, x: T, less: (T, T) -> bool)
    requires Sorted(a, less) && x in a
    ensures x == a[0] || less(a[0], x)
  {
    var i :| 0 <= i < |a| && a[i] == x;
    assert i > 0 ==> less(a[0], a[i]);
  }

  lemma SameFirst<T(!new)>(a: seq<T>, b: seq<T>, less: (T, T) -> bool)
    requires StrictOrder(less) && Sorted(a, less) && Sorted(b, less) && SameMembers(a, b)
    requires a != [] && b != []
    ensures a[0] == b[0]
  {
    assert a[0] in b && b[0] in a;
    FirstIsLeast(a, b[0], less);
    FirstIsLeast(b, a[0], less);
  }

  /** Under a strict order a set has one sorted listing only. */
  lemma {:induction false} SortedIsUnique<T(!new)>(a: seq<T>, b: seq<T>, less: (T, T) -> bool)
    requires StrictOrder(less) && Sorted(a, less) && Sorted(b, less) && SameMembers(a, b)
    ensures a == b
  {
    assert b != [] ==> b[0] in a;
    if a == [] {
    } else {
      assert a[0] in b;
      SameFirst(a, b, less);
      forall x ensures x in a[1..] <==> x in b[1..] {
        assert x in a <==> x == a[0] || x in a[1..];
        assert x in b <==> x == b[0] || x in b[1..];
        assert a[0] !in a[1..] && b[0] !in b[1..];
      }
      SortedIsUnique(a[1..], b[1..], less);
    }
  }

  // ---------- Paging ----------

  /** A listed row with its primary key. */
  datatype Entry = Entry(id: nat, row: Row)

  /** updated_at descending, then id descending. */
  predicate Precedes(a: Entry, b: Entry) {
    a.row.updatedAt > b.row.updatedAt || (a.row.updatedAt == b.row.updatedAt && a.id > b.id)
  }

  /** The live rows of a table that pass the search and status filters. */
  ghost predicate Selected(db: Tables, entity: Entity, matches: Row -> bool, e: Entry) {
    var key := Key(entity, e.id);
    Live(db.rows, key) && db.rows[key] == e.row && matches(e.row)
  }

  /** An answer of the database to the unpaged query. */
  ghost predicate AnswersQuery(list: seq<Entry>, db: Tables, entity: Entity, matches: Row -> bool) {
    && Sorted(list, Precedes)
    && forall e :: e in list <==> Selected(db, entity, matches, e)
  }

  datatype Page<T> = Page(items: seq<T>, total: nat, page: nat, pageSize: nat)

  /** Which of the queries of a listing fail. */
  datatype Faults = Faults(count: bool, find: bool, batch: bool)

  function Smaller(a: nat, b: nat): nat {
    if a < b then a else b
  }

  /** OFFSET and LIMIT. */
  function Slice<T>(all: seq<T>, offset: nat, limit: nat): (r: seq<T>)
    ensures |r| <= limit
  {
    var from := Smaller(offset, |all|);
    all[from..Smaller(from + limit, |all|)]
  }

  function PageOf<T>(all: seq<T>, page: nat, size: nat): (r: seq<T>)
    requires page >= 1
    ensures |r| <= size
  {
    Slice(all, (page - 1) * size, size)
  }

  /** The page and page size a query is answered with. */
  ghost predicate Normal(page: int, pageSize: int, p: nat, size: nat) {
    && p >= 1 && 1 <= size <= 100
    && (if 1 <= page then p == page else p == 1)
    && (if 1 <= pageSize <= 100 then size == pageSize else size == if pageSize < 1 then 20 else 100)
  }

  method NormalizePage(page: int, pageSize: int) returns (p: nat, size: nat)
    ensures Normal(page, pageSize, p, size)
  {
    var page', size' := page, pageSize;
    if page' < 1 {
      page' := 1;
    }
    if size' < 1 {
      size' := 20;
    }
    if size' > 100 {
      size' := 100;
    }
    p, size := page', size';
  }

  /** An answer of the database to the counting query. */
  ghost function Total(db: Tables, entity: Entity, matches: Row -> bool): nat {
    |set key | key in db.rows && key.entity == entity && !db.rows[key].deleted && matches(db.rows[key])|
  }

  function KeysOf(list: seq<Entry>, entity: Entity): set<Key> {
    if list == [] then {} else KeysOf(list[..|list| - 1], entity) + {Key(entity, list[|list| - 1].id)}
  }

  lemma {:induction false} KeysOfMembers(list: seq<Entry>, entity: Entity, key: Key)
    ensures key in KeysOf(list, entity) <==> exists i :: 0 <= i < |list| && Key(entity, list[i].id) == key
  {
    if list == [] {
    } else {
      var init, last := list[..|list| - 1], list[|list| - 1];
      KeysOfMembers(init, entity, key);
      assert forall i :: 0 <= i < |init| ==> list[i] == init[i];
      assert Key(entity, list[|list| - 1].id) == Key(entity, last.id);
    }
  }

  lemma {:induction false} DistinctKeys(list: seq<Entry>, entity: Entity)
    requires forall i, j :: 0 <= i < j < |list| ==> list[i].id != list[j].id
    ensures |KeysOf(list, entity)| == |list|
  {
    if list == [] {
    } else {
      var init, last := list[..|list| - 1], list[|list| - 1];
      DistinctKeys(init, entity);
      KeysOfMembers(init, entity, Key(entity, last.id));
    }
  }

  /** A sorted answer holds a record once. */
  lemma EntriesAreDistinct(list: seq<Entry>, db: Tables, entity: Entity, matches: Row -> bool)
    requires AnswersQuery(list, db, entity, matches)
    ensures forall i, j :: 0 <= i < j < |list| ==> list[i].id != list[j].id
  {
    forall i, j | 0 <= i < j < |list| ensures list[i].id != list[j].id {
      assert list[i] in list && list[j] in list && Precedes(list[i], list[j]);
    }
  }

  /** On one state of the table the two queries agree. */
  lemma TotalIsLength(list: seq<Entry>, db: Tables, entity: Entity, matches: Row -> bool)
    requires AnswersQuery(list, db, entity, matches)
    ensures Total(db, entity, matches) == |list|
  {
    EntriesAreDistinct(list, db, entity, matches);
    DistinctKeys(list, entity);
    var keys := set key | key in db.rows && key.entity == entity && !db.rows[key].deleted && matches(db.rows[key]);
    forall key ensures key in keys <==> key in KeysOf(list, entity) {
      KeysOfMembers(list, entity, key);
      if key in keys {
        var e := Entry(key.id, db.rows[key]);
        assert Selected(db, entity, matches, e);
        assert e in list;
        var i :| 0 <= i < |list| && list[i] == e;
        assert Key(entity, list[i].id) == key;
      }
      if key in KeysOf(list, entity) {
        var i :| 0 <= i < |list| && Key(entity, list[i].id) == key;
        assert list[i] in list;
        assert Selected(db, entity, matches, list[i]);
      }
    }
    assert keys == KeysOf(list, entity);
  }

  /** How many of the rows a page shows: full pages, then the rest, then none. */
  function Filled(total: nat, page: nat, size: nat): nat
    requires page >= 1
  {
    var skipped := (page - 1) * size;
    if skipped >= total then 0 else Smaller(size, total - skipped)
  }

  lemma PageSize<T>(all: seq<T>, page: nat, size: nat)
    requires page >= 1
    ensures |PageOf(all, page, size)| == Filled(|all|, page, size)
  {
  }

  /** By time of the last change, latest first, and by key where the times agree. */
  ghost predicate NewestFirst(items: seq<Entry>) {
    forall i, j :: 0 <= i < j < |items| ==>
      || items[i].row.updatedAt > items[j].row.updatedAt
      || (items[i].row.updatedAt == items[j].row.updatedAt && items[i].id > items[j].id)
  }

  lemma SortedIsNewestFirst(items: seq<Entry>)
    requires Sorted(items, Precedes)
    ensures NewestFirst(items)
  {
    assert forall i, j :: 0 <= i < j < |items| ==> Precedes(items[i], items[j]);
  }

  /**
   * One page. The total and the rows come from two queries, so others may write in between:
   * `total` answers the first on one state of the table, `all` the second on another.
   */
  method List(ghost atCount: Tables, ghost atFind: Tables, ghost entity: Entity, ghost matches: Row -> bool,
              total: nat, all: seq<Entry>, page: int, pageSize: int, faults: Faults)
    returns (r: Result<Page<Entry>, Error>)
    requires total == Total(atCount, entity, matches) && AnswersQuery(all, atFind, entity, matches)
    ensures r == Err(StorageFailure) <==> faults.count || faults.find
    ensures r.Err? ==> r.error == StorageFailure
    ensures r.Ok? ==>
      && Normal(page, pageSize, r.value.page, r.value.pageSize)
      && r.value.total == Total(atCount, entity, matches)
      && r.value.items == PageOf(all, r.value.page, r.value.pageSize)
      && (forall e :: e in r.value.items ==>
            var key := Key(entity, e.id);
            key in atFind.rows && atFind.rows[key] == e.row && !e.row.deleted && matches(e.row))
      && NewestFirst(r.value.items)
      && (atCount == atFind ==> |r.value.items| == Filled(r.value.total, r.value.page, r.value.pageSize))
  {
    var p, size := NormalizePage(page, pageSize);
    if faults.count || faults.find {
      return Err(StorageFailure);
    }
    TotalIsLength(all, atFind, entity, matches);
    SortedIsNewestFirst(PageOf(all, p, size));
    assert forall e :: e in PageOf(all, p, size) ==> Selected(atFind, entity, matches, e);
    PageSize(all, p, size);
    return Ok(Page(PageOf(all, p, size), total, p, size));
  }

  /** The pages 1 to n one after the other, each cut from its own answer to the query. */
  function Joined<T>(answers: seq<seq<T>>, size: nat): seq<T> {
    if answers == [] then []
    else Joined(answers[..|answers| - 1], size) + PageOf(answers[|answers| - 1], |answers|, size)
  }

  function PageCount(total: nat, size: nat): nat
    requires size >= 1
  {
    (total + size - 1) / size
  }

  lemma PageCountBounds(total: nat, size: nat)
    requires size >= 1
    ensures PageCount(total, size) * size >= total
    ensures total > 0 ==> (PageCount(total, size) - 1) * size < total
  {
    var n, rest := PageCount(total, size), (total + size - 1) % size;
    assert total + size - 1 == n * size + rest;
    assert (n - 1) * size == n * size - size;
  }

  lemma SliceExtends<T>(all: seq<T>, offset: nat, size: nat)
    ensures all[..Smaller(offset, |all|)] + Slice(all, offset, size) == all[..Smaller(offset + size, |all|)]
  {
  }

  lemma OneMoreTime(a: nat, c: nat)
    ensures (a + 1) * c == a * c + c
  {
  }

  lemma PageExtends<T>(all: seq<T>, page: nat, size: nat)
    requires page >= 1
    ensures all[..Smaller((page - 1) * size, |all|)] + PageOf(all, page, size) == all[..Smaller(page * size, |all|)]
  {
    OneMoreTime(page - 1, size);
    SliceExtends(all, (page - 1) * size, size);
  }

  lemma {:induction false} JoinedIsPrefix<T>(all: seq<T>, answers: seq<seq<T>>, size: nat)
    requires forall i :: 0 <= i < |answers| ==> answers[i] == all
    ensures Joined(answers, size) == all[..Smaller(|answers| * size, |all|)]
  {
    if answers == [] {
    } else {
      var n := |answers|;
      JoinedIsPrefix(all, answers[..n - 1], size);
      PageExtends(all, n, size);
    }
  }

  lemma TimesGrows(a: nat, b: nat, c: nat)
    requires a <= b
    ensures a * c <= b * c
  {
  }

  lemma PrecedesIsStrict()
    ensures StrictOrder(Precedes)
  {
  }

  /**
   * On a frozen table the pages 1 to ceil(total / size), fetched by separate queries, are
   * together the filtered list in its order, every row exactly once; later pages are empty.
   */
  lemma PagesPartition(db: Tables, entity: Entity, matches: Row -> bool, all: seq<Entry>, answers: seq<seq<Entry>>,
                       size: nat)
    requires size >= 1 && AnswersQuery(all, db, entity, matches)
    requires forall i :: 0 <= i < |answers| ==> AnswersQuery(answers[i], db, entity, matches)
    requires |answers| >= PageCount(|all|, size)
    ensures Joined(answers[..PageCount(|all|, size)], size) == all
    ensures forall n :: PageCount(|all|, size) <= n < |answers| ==> PageOf(answers[n], n + 1, size) == []
    ensures forall i, j :: 0 <= i < j < |all| ==> all[i].id != all[j].id
    ensures NewestFirst(all)
  {
    PrecedesIsStrict();
    forall i | 0 <= i < |answers| ensures answers[i] == all {
      assert forall e :: e in all <==> Selected(db, entity, matches, e);
      assert forall e :: e in answers[i] <==> Selected(db, entity, matches, e);
      SortedIsUnique(answers[i], all, Precedes);
    }
    var count := PageCount(|all|, size);
    PageCountBounds(|all|, size);
    JoinedIsPrefix(all, answers[..count], size);
    forall n | count <= n < |answers| ensures PageOf(answers[n], n + 1, size) == [] {
      TimesGrows(count, n, size);
    }
    EntriesAreDistinct(all, db, entity, matches);
    SortedIsNewestFirst(all);
  }

  // ---------- Revisions of a page ----------

  datatype Hydrated = Hydrated(entry: Entry, revisions: seq<Revision>)

  predicate Earlier(a: Revision, b: Revision) {
    a.version < b.version
  }

  /** Record first, then version: the order of the batch query. */
  predicate BatchOrder(a: Revision, b: Revision) {
    a.key.id < b.key.id || (a.key.id == b.key.id && a.version < b.version)
  }

  /** An answer of the database to the batch query for the revisions of some records. */
  ghost predicate AnswersBatch(fetched: seq<Revision>, log: seq<Revision>, entity: Entity, ids: seq<nat>) {
    && Sorted(fetched, BatchOrder)
    && forall r :: r in fetched <==> r in log && r.key.entity == entity && r.key.id in ids
  }

  function OfRecord(fetched: seq<Revision>, id: nat): seq<Revision> {
    if fetched == [] then []
    else
      var rest := OfRecord(fetched[..|fetched| - 1], id);
      if fetched[|fetched| - 1].key.id == id then rest + [fetched[|fetched| - 1]] else rest
  }

  method CollectIds(items: seq<Entry>) returns (ids: seq<nat>)
    ensures |ids| == |items| && forall i :: 0 <= i < |items| ==> ids[i] == items[i].id
  {
    ids := [];
    for i := 0 to |items|
      invariant |ids| == i && forall k :: 0 <= k < i ==> ids[k] == items[k].id
    {
      ids := ids + [items[i].id];
    }
  }

  /** The loops that group the batch by record and hand each item its group. */
  method Hydrate(items: seq<Entry>, fetched: seq<Revision>) returns (page: seq<Hydrated>)
    ensures |page| == |items|
    ensures forall i :: 0 <= i < |items| ==> page[i] == Hydrated(items[i], OfRecord(fetched, items[i].id))
  {
    var byRecord: map<nat, seq<Revision>> := map[];
    for i := 0 to |fetched|
      invariant forall id :: OfRecord(fetched[..i], id) == if id in byRecord then byRecord[id] else []
    {
      var id := fetched[i].key.id;
      var group := if id in byRecord then byRecord[id] else [];
      byRecord := byRecord[id := group + [fetched[i]]];
      assert fetched[..i + 1][..i] == fetched[..i];
    }
    assert fetched[..|fetched|] == fetched;
    page := seq(|items|, i requires 0 <= i < |items| => Hydrated(items[i], []));
    for i := 0 to |items|
      invariant |page| == |items|
      invariant forall k :: 0 <= k < |items| ==> page[k].entry == items[k]
      invariant forall k :: 0 <= k < i ==> page[k].revisions == OfRecord(fetched, items[k].id)
    {
      var id := page[i].entry.id;
      page := page[i := page[i].(revisions := if id in byRecord then byRecord[id] else [])];
    }
  }

  lemma {:induction false} OfRecordMembers(fetched: seq<Revision>, id: nat)
    requires Sorted(fetched, BatchOrder)
    ensures forall r :: r in OfRecord(fetched, id) <==> r in fetched && r.key.id == id
    ensures Sorted(OfRecord(fetched, id), Earlier)
  {
    if fetched == [] {
    } else {
      var init, last := fetched[..|fetched| - 1], fetched[|fetched| - 1];
      assert fetched == init + [last];
      OfRecordMembers(init, id);
      assert forall r :: r in init ==> BatchOrder(r, last);
    }
  }

  lemma EarlierIsStrict()
    ensures StrictOrder(Earlier)
  {
  }

  /**
   * Batch hydration agrees with individual reads. In every safe database the group of a listed
   * record is exactly the version-ordered revisions that Get would load for it: none goes to
   * another record, none is dropped and none is repeated.
   */
  lemma HydrationEqualsGet(db: Tables, entity: Entity, ids: seq<nat>, fetched: seq<Revision>, id: nat)
    requires DatabaseSafe(db) && Versioned(entity) && id in ids
    requires AnswersBatch(fetched, db.revisions, entity, ids)
    ensures OfRecord(fetched, id) == RevisionsOf(db.revisions, Key(entity, id))
  {
    var mine := RevisionsOf(db.revisions, Key(entity, id));
    assert RecordSafe(db, Key(entity, id));
    assert Sorted(mine, Earlier);
    OfRecordMembers(fetched, id);
    RevisionsOfMembers(db.revisions, Key(entity, id));
    forall r ensures r in OfRecord(fetched, id) <==> r in mine {
      assert r in fetched <==> r in db.revisions && r.key.entity == entity && r.key.id in ids;
    }
    EarlierIsStrict();
    SortedIsUnique(OfRecord(fetched, id), mine, Earlier);
  }

  lemma {:induction false} RevisionsOfPrefix(early: seq<Revision>, late: seq<Revision>, key: Key)
    requires early <= late
    ensures RevisionsOf(early, key) <= RevisionsOf(late, key)
  {
    if |early| == |late| {
      assert early == late;
    } else {
      assert late == late[..|late| - 1] + [late[|late| - 1]];
      RevisionsOfPrefix(early, late[..|late| - 1], key);
    }
  }

  /**
   * A page of certificates or authorizations with their revisions: the rows of the page, each with
   * what Get loads for it at the moment of the batch query. An empty page asks for no revisions.
   */
  method ListVersioned(ghost atCount: Tables, ghost atFind: Tables, ghost db: Tables, entity: Entity,
                       ghost matches: Row -> bool, total: nat, all: seq<Entry>, batch: seq<nat> -> seq<Revision>,
                       page: int, pageSize: int, faults: Faults)
    returns (r: Result<Page<Hydrated>, Error>)
    requires DatabaseSafe(db) && Versioned(entity)
    requires total == Total(atCount, entity, matches) && AnswersQuery(all, atFind, entity, matches)
    requires forall ids :: AnswersBatch(batch(ids), db.revisions, entity, ids)
    ensures r.Ok? ==>
      && Normal(page, pageSize, r.value.page, r.value.pageSize)
      && r.value.total == Total(atCount, entity, matches)
      && var rows := PageOf(all, r.value.page, r.value.pageSize);
        && |r.value.items| == |rows| && (faults.batch ==> rows == [])
        && forall i :: 0 <= i < |rows| ==>
             r.value.items[i] == Hydrated(rows[i], RevisionsOf(db.revisions, Key(entity, rows[i].id)))
    ensures r.Err? ==> r.error == StorageFailure
    ensures r.Err? ==>
      faults.count || faults.find ||
      (faults.batch && forall p, size :: Normal(page, pageSize, p, size) ==> PageOf(all, p, size) != [])
    ensures faults.count || faults.find ==> r.Err?
  {
    var listed := List(atCount, atFind, entity, matches, total, all, page, pageSize, faults);
    if listed.Err? {
      return Err(listed.error);
    }
    var Page(rows, counted, p, size) := listed.value;
    if rows == [] {
      return Ok(Page([], counted, p, size));
    }
    var ids := CollectIds(rows);
    if faults.batch {
      return Err(StorageFailure);
    }
    var fetched := batch(ids);
    var items := Hydrate(rows, fetched);
    forall i | 0 <= i < |rows| ensures items[i].revisions == RevisionsOf(db.revisions, Key(entity, rows[i].id)) {
      assert ids[i] in ids;
      HydrationEqualsGet(db, entity, ids, fetched, rows[i].id);
    }
    return Ok(Page(items, counted, p, size));
  }

  /**
   * The rows and the revisions of a page come from two queries too. Whatever others commit in
   * between, the revisions of a listed row reach at least to the row as it is listed, and the
   * one of its version shows its status and evidence.
   */
  lemma ListedRowHasItsRevision(s: System, steps: seq<Step>, n: nat, entity: Entity, matches: Row -> bool,
                                all: seq<Entry>, e: Entry)
    requires Init(s) && n <= |steps| && Versioned(entity)
    requires AnswersQuery(all, Exec(s, steps[..n]).db, entity, matches) && e in all
    ensures var revs := RevisionsOf(Exec(s, steps).db.revisions, Key(entity, e.id));
      && 1 <= e.row.version <= |revs|
      && revs[e.row.version - 1].version == e.row.version
      && revs[e.row.version - 1].status == e.row.status && revs[e.row.version - 1].evidence == e.row.fields.evidence
  {
    hide Exec, Init;
    var key, early, late := Key(entity, e.id), Exec(s, steps[..n]).db, Exec(s, steps).db;
    InitIsSafe(s);
    ExecIsSafe(s, steps[..n]);
    assert Selected(early, entity, matches, e);
    assert RecordSafe(early, key);
    HistoryOnlyGrows(s, steps, n);
    RevisionsOfPrefix(early.revisions, late.revisions, key);
  }
}
