/**
 * The running server: one database shared by all requests, and the repository methods that
 * write to it. A transaction is a sequence of separate writes that is rolled back as a whole
 * when one of them fails.
 */
module Backend {
  import opened Wrappers
  import opened Constants
  import opened Model
  import opened Contracts
  import opened Repository
  import opened Protocol

  class Server {
    var rows: map<Key, Row>
    var revisions: seq<Revision>
    var audits: seq<Audit>
    /** What the other goroutines hold on their stacks, and what clients have been told. */
    var inflight: map<nat, Progress>
    var seen: set<(Key, nat)>

    function Db(): Tables
      reads this
    {
      Tables(rows, revisions, audits)
    }

    function State(): System
      reads this
    {
      System(Db(), inflight, seen)
    }

    constructor ()
      ensures Init(State()) && Db() == Tables(map[], [], [])
    {
      rows, revisions, audits, inflight, seen := map[], [], [], map[], {};
    }

    // ---------- Single writes ----------

    method WriteRow(key: Key, expected: nat, item: Row, fault: Fault) returns (r: Result<(), Error>)
      modifies this`rows
      ensures r.Err? ==> rows == old(rows)
      ensures r.Ok? ==>
        r == Ok(()) && fault != RowWriteFails && OptimisticUpdate(old(rows), key, expected, item) == Ok(rows)
      ensures r.Err? ==> if fault == RowWriteFails then r.error == StorageFailure
                         else OptimisticUpdate(old(rows), key, expected, item) == Err(r.error)
      ensures r == if fault == RowWriteFails then Err(StorageFailure)
                   else if key in old(rows) && !old(rows)[key].deleted && old(rows)[key].version == expected then Ok(())
                   else Err(VersionConflict)
      ensures r.Ok? ==> rows == old(rows)[key := Row(old(rows)[key].code, item.fields, item.status, item.version,
                                                     item.updatedAt, item.control, false)]
    {
      if fault == RowWriteFails {
        return Err(StorageFailure);
      }
      if Live(rows, key) && rows[key].version == expected {
        rows := rows[key := item.(code := rows[key].code, deleted := rows[key].deleted)];
        return Ok(());
      }
      return Err(VersionConflict);
    }

    method InsertRow(key: Key, item: Row, fault: Fault) returns (r: Result<(), Error>)
      modifies this`rows
      ensures r == if fault == RowWriteFails || key in old(rows) || CodeTaken(old(rows), key.entity, item.code)
                   then Err(StorageFailure) else Ok(())
      ensures r.Ok? <==>
        && fault != RowWriteFails && key !in old(rows)
        && forall other :: other in old(rows) && other.entity == key.entity ==> old(rows)[other].code != item.code
      ensures rows == if r.Ok? then old(rows)[key := item] else old(rows)
    {
      if fault == RowWriteFails || key in rows || CodeTaken(rows, key.entity, item.code) {
        return Err(StorageFailure);
      }
      rows := rows[key := item];
      return Ok(());
    }

    method InsertRevision(revision: Revision, fault: Fault) returns (r: Result<(), Error>)
      modifies this`revisions
      ensures r == if fault == RevisionWriteFails || IndexTaken(old(revisions), revision.key, revision.version)
                   then Err(StorageFailure) else Ok(())
      ensures r.Ok? <==>
        && fault != RevisionWriteFails
        && forall i :: 0 <= i < |old(revisions)| && old(revisions)[i].key == revision.key ==>
             old(revisions)[i].version != revision.version
      ensures revisions == old(revisions) + if r.Ok? then [revision] else []
    {
      if fault == RevisionWriteFails || IndexTaken(revisions, revision.key, revision.version) {
        return Err(StorageFailure);
      }
      revisions := revisions + [revision];
      return Ok(());
    }

    method AppendAudit(key: Key, after: Status, stamp: Stamp, stored: bool) returns (r: Result<(), Error>)
      modifies this`audits
      ensures r == if stored then Ok(()) else Err(StorageFailure)
      ensures audits == old(audits) + if stored then [AuditFor(key, after, stamp)] else []
      ensures stored ==>
        var a := audits[|old(audits)|];
        && Names(a.actor, stamp.actor, "system") && Names(a.requestId, stamp.requestId, "untracked")
        && a == Audit(key, a.actor, a.requestId, stamp.action, stamp.before, after, stamp.detail)
    {
      AuditRowsTell(key, after, stamp);
      if !stored {
        return Err(StorageFailure);
      }
      audits := audits + [AuditFor(key, after, stamp)];
      return Ok(());
    }

    // ---------- Transactions ----------

    method Rollback(saved: Tables)
      modifies this`rows, this`revisions, this`audits
      ensures Db() == saved
    {
      rows, revisions, audits := saved.rows, saved.revisions, saved.audits;
    }

    /** The two writes that follow the row of a versioned entity; any failure undoes all three. */
    method Complete(saved: Tables, key: Key, item: Row, stamp: Stamp, fault: Fault) returns (r: Result<(), Error>)
      requires fault != RowWriteFails && revisions == saved.revisions && audits == saved.audits
      modifies this`rows, this`revisions, this`audits
      ensures r == if fault != NoFault || IndexTaken(saved.revisions, key, item.version)
                   then Err(StorageFailure) else Ok(())
      ensures r.Err? ==> Db() == saved
      ensures r.Ok? ==> Db() == Tables(old(rows), saved.revisions + [RevisionFor(key, item, stamp)],
                                       saved.audits + [AuditFor(key, item.status, stamp)])
    {
      r := InsertRevision(RevisionFor(key, item, stamp), fault);
      if r.Err? {
        Rollback(saved);
        return;
      }
      r := AppendAudit(key, item.status, stamp, fault != AuditWriteFails);
      if r.Err? {
        Rollback(saved);
      }
    }

    /** All the writes of the specification, or none and its error, wherever the failure strikes. */
    method UpdateVersion(key: Key, expected: nat, item: Row, stamp: Stamp, fault: Fault) returns (r: Result<(), Error>)
      requires Versioned(key.entity)
      modifies this`rows, this`revisions, this`audits
      ensures match Repository.UpdateVersion(old(Db()), key, expected, item, stamp, fault)
        case Err(e) => r == Err(e) && Db() == old(Db())
        case Ok(db) => r == Ok(()) && Db() == db
    {
      var saved := Db();
      r := WriteRow(key, expected, item, fault);
      if r.Err? {
        Rollback(saved);
        return;
      }
      r := Complete(saved, key, item, stamp, fault);
    }

    method CreateVersion(key: Key, item: Row, stamp: Stamp, fault: Fault) returns (r: Result<(), Error>)
      requires Versioned(key.entity)
      modifies this`rows, this`revisions, this`audits
      ensures match Repository.CreateVersion(old(Db()), key, item, stamp, fault)
        case Err(e) => r == Err(e) && Db() == old(Db())
        case Ok(db) => r == Ok(()) && Db() == db
    {
      var saved := Db();
      r := InsertRow(key, item, fault);
      if r.Err? {
        Rollback(saved);
        return;
      }
      r := Complete(saved, key, item, stamp, fault);
    }

    method Delete(key: Key, fault: Fault) returns (r: Result<(), Error>)
      modifies this`rows
      ensures match SoftDelete(old(Db()), key, fault)
        case Err(e) => r == Err(e) && Db() == old(Db())
        case Ok(db) => r == Ok(()) && Db() == db
      ensures r == if fault == RowWriteFails then Err(StorageFailure)
                   else if key in old(rows) && !old(rows)[key].deleted then Ok(()) else Err(NotFound)
      ensures rows == if r.Ok? then old(rows)[key := old(rows)[key].(deleted := true)] else old(rows)
    {
      if fault == RowWriteFails {
        return Err(StorageFailure);
      }
      if !Live(rows, key) {
        return Err(NotFound);
      }
      rows := rows[key := rows[key].(deleted := true)];
      return Ok(());
    }

    method Get(key: Key) returns (r: Result<Row, Error>)
      ensures r == if Live(rows, key) then Ok(rows[key]) else Err(NotFound)
    {
      if Live(rows, key) {
        return Ok(rows[key]);
      }
      return Err(NotFound);
    }

    // ---------- Requests among other requests ----------

    /** The request arrives and reads its row. */
    method Load(rid: nat, request: Request) returns (r: Result<Row, Error>)
      requires rid !in inflight
      modifies this`inflight
      ensures State() == Exec(old(State()), [Issue(rid, request), Read(rid)])
      ensures r == if Live(rows, request.key) then Ok(rows[request.key]) else Err(NotFound)
      ensures inflight == if r.Ok? then old(inflight)[rid := Loaded(request, r.value)] else old(inflight)
    {
      r := Get(request.key);
      if r.Ok? {
        inflight := inflight[rid := Loaded(request, r.value)];
        assert old(inflight)[rid := Waiting(request)][rid := Loaded(request, r.value)] == inflight;
      } else {
        assert old(inflight)[rid := Waiting(request)] - {rid} == inflight;
      }
      TwoSteps(old(State()), Issue(rid, request), Read(rid));
    }

    /** Other requests take their steps. */
    method Others(steps: seq<Step>)
      modifies this
      ensures State() == Exec(old(State()), steps)
    {
      var s := Exec(State(), steps);
      rows, revisions, audits, inflight, seen := s.db.rows, s.db.revisions, s.db.audits, s.inflight, s.seen;
    }
  }
}
