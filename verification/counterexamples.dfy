/**
 * Two runs that show where the promises end. Neither breaks the version chain; both act on a
 * row other than the one whose guards were checked.
 */
module Counterexamples {
  import opened Wrappers
  import opened Text
  import opened Constants
  import opened Model
  import opened Services
  import opened Repository
  import opened History
  import opened Protocol
  import opened Safety
  import opened Serializability
  import opened Guarantees

  const EMPTY: System := System(Tables(map[], [], []), map[], {})
  const RECORD: Key := Key(ReleaseAuthorization, 1)

  /** Creation of the record, a response, and a request that reads the draft and then stays behind. */
  function Opening(input: CreateInput, late: Request): seq<Step> {
    [Create(0, RECORD, input, NoFault), Respond(RECORD)] + [Issue(1, late), Read(1)]
  }

  /** A request that is issued, reads and commits without interruption. */
  function Whole(rid: nat, req: Request): seq<Step> {
    [Issue(rid, req), Read(rid)] + [Commit(rid, NoFault)]
  }

  lemma EmptyIsInitial()
    ensures Init(EMPTY) && Safe(EMPTY)
  {
    InitIsSafe(EMPTY);
  }

  lemma AfterCreation(input: CreateInput)
    requires ValidBusinessFields(input.code, input.fields)
    ensures var s := Exec(EMPTY, [Create(0, RECORD, input, NoFault), Respond(RECORD)]);
      && RECORD in s.db.rows && s.db.rows[RECORD] == NewRow(ReleaseAuthorization, input)
      && s.inflight == map[] && s.seen == {(RECORD, 1)}
  {
    TwoSteps(EMPTY, Create(0, RECORD, input, NoFault), Respond(RECORD));
  }

  lemma DraftIsLive(input: CreateInput)
    ensures !NewRow(ReleaseAuthorization, input).deleted
  {
  }

  lemma AfterReading(s: System, rid: nat, req: Request)
    requires rid !in s.inflight && Live(s.db.rows, req.key)
    ensures Exec(s, [Issue(rid, req), Read(rid)])
         == s.(inflight := s.inflight[rid := Loaded(req, s.db.rows[req.key])])
  {
    hide CreateRow, CommitResult;
    TwoSteps(s, Issue(rid, req), Read(rid));
    var waiting := s.inflight[rid := Waiting(req)];
    assert waiting[rid := Loaded(req, s.db.rows[req.key])] == s.inflight[rid := Loaded(req, s.db.rows[req.key])];
  }

  /** After the opening the record is a draft at version 1 and the late request holds that draft. */
  lemma AfterOpening(input: CreateInput, late: Request)
    requires ValidBusinessFields(input.code, input.fields) && late.key == RECORD
    ensures var s := Exec(EMPTY, Opening(input, late));
      && Safe(s)
      && RECORD in s.db.rows && s.db.rows[RECORD] == NewRow(ReleaseAuthorization, input)
      && s.inflight == map[1 := Loaded(late, s.db.rows[RECORD])]
  {
    hide Exec, CreateRow, CommitResult, Safe, NewRow;
    EmptyIsInitial();
    ExecIsSafe(EMPTY, Opening(input, late));
    AfterCreation(input);
    var first := [Create(0, RECORD, input, NoFault), Respond(RECORD)];
    ExecConcat(EMPTY, first, [Issue(1, late), Read(1)]);
    DraftIsLive(input);
    AfterReading(Exec(EMPTY, first), 1, late);
  }

  /** A whole request with the current version is one atomic call on the row. */
  lemma AfterWhole(s: System, rid: nat, req: Request)
    requires Safe(s) && rid !in s.inflight && Live(s.db.rows, req.key) && req.expected == s.db.rows[req.key].version
    requires Versioned(req.key.entity) && !req.command.op.Remove? && Decide(s.db.rows[req.key], req.command).Ok?
    ensures var t := Exec(s, Whole(rid, req));
      && Safe(t) && t.inflight == s.inflight
      && req.key in t.db.rows && t.db.rows[req.key] == NextRow(s.db.rows[req.key], req.command)
  {
    hide Exec, CreateRow, Decide, UpdateVersion, Safe;
    ExecIsSafe(s, Whole(rid, req));
    AfterReading(s, rid, req);
    var row := s.db.rows[req.key];
    var t := Exec(s, [Issue(rid, req), Read(rid)]);
    ExecIsSafe(s, [Issue(rid, req), Read(rid)]);
    ExecAppend(s, [Issue(rid, req), Read(rid)], Commit(rid, NoFault));
    CommitSucceedsIff(t, rid, NoFault);
    CommitWrites(t.db, req, row, NoFault);
    DecideFrame(row, req.command);
    assert t.inflight - {rid} == s.inflight;
  }

  // ---------- A guessed version ----------

  function SomeFields(evidence: string): Fields {
    Fields("n", "", "f", "o", "c", "low", 0.0, "", 0, evidence, "")
  }

  function ByAnn(op: Op): Command { Command(op, "ann", Operator, "r", 0) }
  function ByBob(op: Op): Command { Command(op, "bob", Reviewer, "r", 0) }

  const CREATION: CreateInput := CreateInput("C", SomeFields("a"), "ann", "r", 0)
  const SUBMISSION: Request := Request(RECORD, 1, ByAnn(MoveTo(Review, "ok")))
  const APPROVAL: Request := Request(RECORD, 2, ByBob(MoveTo(Approved, "ok")))

  /** An edit that carries version 3 although version 1 is the only one its sender has seen. */
  const GUESS: Request := Request(RECORD, 3, ByAnn(UpdateFields(SomeFields("b"))))
  const DELETION: Request := Request(RECORD, 0, ByAnn(Remove))

  lemma TextsAreGood()
    ensures ValidBusinessFields("C", SomeFields("a")) && ValidBusinessFields("C", SomeFields("b"))
    ensures ToUpper(TrimSpace("C")) == "C"
    ensures Normalized(SomeFields("a")).evidence == "a" && Normalized(SomeFields("b")).evidence == "b"
  {
    forall c | c in {'n', 'f', 'o', 'c', 'C', 'a', 'b'} ensures TrimSpace([c]) == [c] {
      assert !IsSpace(c);
    }
  }

  lemma SubmissionIsAccepted(row: Row)
    requires row.status == Draft && row.control.Authorization?
    ensures Decide(row, SUBMISSION.command)
         == Ok(row.(status := Review, control := Authorization("ann", "", ""), updatedAt := 0))
  {
  }

  lemma ApprovalIsAccepted(row: Row)
    requires row.status == Review && row.control == Authorization("ann", "", "")
    ensures Decide(row, APPROVAL.command).Ok?
    ensures Decide(row, APPROVAL.command).value.status == Approved
    ensures Decide(row, APPROVAL.command).value.fields == row.fields
    ensures Decide(row, APPROVAL.command).value.deleted == row.deleted
  {
    assert "ann"[0] != "bob"[0];
  }

  lemma ThenSubmitted(s: System)
    requires Safe(s) && RECORD in s.db.rows && s.db.rows[RECORD] == NewRow(ReleaseAuthorization, CREATION)
    requires s.inflight.Keys == {1}
    ensures var t := Exec(s, Whole(2, SUBMISSION));
      && Safe(t) && t.inflight == s.inflight
      && Live(t.db.rows, RECORD) && t.db.rows[RECORD].status == Review && t.db.rows[RECORD].version == 2
      && t.db.rows[RECORD].control == Authorization("ann", "", "")
      && t.db.rows[RECORD].fields == s.db.rows[RECORD].fields
  {
    SubmissionIsAccepted(s.db.rows[RECORD]);
    hide Decide, Exec, Safe;
    AfterWhole(s, 2, SUBMISSION);
  }

  lemma ThenApproved(s: System)
    requires Safe(s) && Live(s.db.rows, RECORD) && s.db.rows[RECORD].status == Review && s.db.rows[RECORD].version == 2
    requires s.db.rows[RECORD].control == Authorization("ann", "", "") && s.inflight.Keys == {1}
    ensures var t := Exec(s, Whole(3, APPROVAL));
      && Safe(t) && t.inflight == s.inflight
      && Live(t.db.rows, RECORD) && t.db.rows[RECORD].status == Approved && t.db.rows[RECORD].version == 3
      && t.db.rows[RECORD].fields == s.db.rows[RECORD].fields
  {
    ApprovalIsAccepted(s.db.rows[RECORD]);
    hide Decide, Exec, Safe;
    AfterWhole(s, 3, APPROVAL);
  }

  lemma GuessIsAccepted(draft: Row)
    requires draft.status == Draft && draft.control.Authorization? && draft.code == "C"
    ensures Decide(draft, GUESS.command) == Ok(draft.(fields := Normalized(SomeFields("b")), updatedAt := 0))
  {
    TextsAreGood();
  }

  lemma CommitStores(db: Tables, late: Request, draft: Row)
    requires !late.command.op.Remove? && CommitResult(db, late, draft, NoFault).Ok?
    ensures Live(db.rows, late.key) && Decide(draft, late.command).Ok?
    ensures var after := CommitResult(db, late, draft, NoFault).value;
      late.key in after.rows && after.rows[late.key] == Written(db, late, Decide(draft, late.command).value)
  {
    hide Decide;
    CommitWrites(db, late, draft, NoFault);
  }

  /** A commit by request 1 at the version it carries. */
  lemma LateCommit(s: System, late: Request, draft: Row)
    requires Safe(s) && late.key == RECORD && s.inflight == map[1 := Loaded(late, draft)] && Live(s.db.rows, RECORD)
    requires !late.command.op.Remove? && s.db.rows[RECORD].version == late.expected && Decide(draft, late.command).Ok?
    ensures var t := Apply(s, Commit(1, NoFault));
      && RECORD in t.db.rows
      && t.db.rows[RECORD] == Written(s.db, late, Decide(draft, late.command).value)
  {
    hide Decide, UpdateVersion, Stored, ChangeStamp, LateAudit;
    assert 1 in s.inflight && s.inflight[1] == Loaded(late, draft);
    CommitSucceedsIff(s, 1, NoFault);
    CommitStores(s.db, late, draft);
  }

  lemma ThenOverwritten(s: System, draft: Row)
    requires Safe(s) && Live(s.db.rows, RECORD) && s.db.rows[RECORD].version == 3
    requires s.inflight == map[1 := Loaded(GUESS, draft)]
    requires draft.status == Draft && draft.control.Authorization? && draft.code == "C"
    ensures var t := Apply(s, Commit(1, NoFault));
      RECORD in t.db.rows && t.db.rows[RECORD].status == Draft && t.db.rows[RECORD].fields.evidence == "b"
  {
    TextsAreGood();
    GuessIsAccepted(draft);
    LateCommit(s, GUESS, draft);
  }

  lemma ThenDeleted(s: System, late: Request, draft: Row)
    requires late.key == RECORD && late.command.op.Remove? && !IsLocked(draft)
    requires s.inflight == map[1 := Loaded(late, draft)] && Live(s.db.rows, RECORD)
    ensures var t := Apply(s, Commit(1, NoFault));
      RECORD in t.db.rows && t.db.rows[RECORD] == s.db.rows[RECORD].(deleted := true)
  {
    assert 1 in s.inflight && s.inflight[1] == Loaded(late, draft);
  }

  function ApprovedRun(): seq<Step> {
    Opening(CREATION, GUESS) + Whole(2, SUBMISSION) + Whole(3, APPROVAL)
  }

  /**
   * A client that guesses a future version can overwrite an approved authorization with a draft
   * holding other evidence: the approval is lost although every guard was tried.
   */
  lemma GuessedVersionOverwritesApproval()
    ensures Init(EMPTY)
    ensures var db := Exec(EMPTY, ApprovedRun()).db;
      RECORD in db.rows && db.rows[RECORD].status == Approved && db.rows[RECORD].fields.evidence == "a"
    ensures var db := Exec(EMPTY, ApprovedRun() + [Commit(1, NoFault)]).db;
      RECORD in db.rows && db.rows[RECORD].status == Draft && db.rows[RECORD].fields.evidence == "b"
    ensures !ObservedRun(EMPTY, ApprovedRun() + [Commit(1, NoFault)])
  {
    hide Exec, Apply, Safe, ObservedRun;
    EmptyIsInitial();
    TextsAreGood();
    AfterOpening(CREATION, GUESS);
    var s := Exec(EMPTY, Opening(CREATION, GUESS));
    ThenSubmitted(s);
    var t := Exec(s, Whole(2, SUBMISSION));
    ThenApproved(t);
    var u := Exec(t, Whole(3, APPROVAL));
    ThenOverwritten(u, s.db.rows[RECORD]);
    ExecConcat(EMPTY, Opening(CREATION, GUESS), Whole(2, SUBMISSION));
    ExecConcat(EMPTY, Opening(CREATION, GUESS) + Whole(2, SUBMISSION), Whole(3, APPROVAL));
    var run := ApprovedRun() + [Commit(1, NoFault)];
    ExecAppend(EMPTY, ApprovedRun(), Commit(1, NoFault));
    assert run[..|ApprovedRun()|] == ApprovedRun();
    if ObservedRun(EMPTY, run) {
      BoundedLifeAfterRelease(EMPTY, run, RECORD, |ApprovedRun()|);
    }
  }

  // ---------- A late deletion ----------

  /** A deletion that read a draft can remove a record that is under review by then. */
  lemma DeletionCanRemoveSubmittedRecord()
    ensures Init(EMPTY)
    ensures var db := Exec(EMPTY, Opening(CREATION, DELETION) + Whole(2, SUBMISSION) + [Commit(1, NoFault)]).db;
      RECORD in db.rows && db.rows[RECORD].deleted && db.rows[RECORD].status == Review
  {
    EmptyIsInitial();
    TextsAreGood();
    AfterOpening(CREATION, DELETION);
    var s := Exec(EMPTY, Opening(CREATION, DELETION));
    ThenSubmitted(s);
    ThenDeleted(Exec(s, Whole(2, SUBMISSION)), DELETION, s.db.rows[RECORD]);
    ExecConcat(EMPTY, Opening(CREATION, DELETION), Whole(2, SUBMISSION));
    ExecAppend(EMPTY, Opening(CREATION, DELETION) + Whole(2, SUBMISSION), Commit(1, NoFault));
  }
}
