# Airworthiness release backend: a verified model

The backend keeps four kinds of records: aircraft parts, inspection tasks, certificates and
release authorizations. Every change of a record reads a snapshot of its row, tries its guards on
that snapshot and commits later with a conditional write on the version the client sent.
Certificates and authorizations also append a revision and an audit row in the same transaction,
and they separate the duties of the person who prepares or submits from the one who verifies or
decides. A request limiter stands in front of the API. This project models those parts in Dafny
and proves what holds in every reachable state, for any number of requests in flight.

How the files fit together:

- `constants.dfy`, `model.dfy`, `text.dfy`, `services.dfy`: statuses and graphs, stored entities, and
  the decisions of the services (guards in the order they are tried, then the changed row).
- `contracts.dfy`: what the calls promise in constructors and literal texts (statuses, roles, duties, errors,
  columns, texts of revisions and audit rows), and that the decisions keep it.
- `repository.dfy`: the tables and what each transaction does to them.
- `history.dfy`: what the revisions and audit rows of one record say, and that one atomic call keeps it.
- `protocol.dfy`: requests in flight. A schedule is a list of steps (create, issue, read, commit, late
  audit, abort, respond); `Exec` runs any schedule, and a write may fail at any point.
- `safety.dfy`: what holds for every schedule, with no assumption on clients.
- `serializability.dfy`: runs in which clients send versions they have received are serial runs.
- `effects.dfy`: every column, revision and audit row an undisturbed call leaves, and every way it fails.
- `guarantees.dfy`, `inspections.dfy`, `parts.dfy`, `lateaudits.dfy`: the promises, for whole runs.
- `fieldlock.dfy`, `deletions.dfy`, `counterexamples.dfy`: exactly when the field lock and the draft
  guard of deletions hold, and runs that show where the promises end.
- `backend.dfy`, `calls.dfy`, `releaseauthorizations.dfy`, `certificaterecords.dfy`, `plainrecords.dfy`:
  the server as classes over mutable tables. Each service method is proved to be a schedule of the
  protocol in which arbitrary steps of other requests fill the gaps between its own steps.
- `landings.dfy`: what such a call stores and answers, without the functions that decide it.
- `limiter.dfy`, `listing.dfy`, `seeding.dfy`, `demonstration.dfy`: the request limiter, paging and
  batch loading of revisions, and the records a fresh database starts with.

Assumptions on the environment. The database offers an atomic conditional update of live rows and
all-or-nothing transactions; Redis offers an atomic increment that does not expire inside its
minute. `Init` is the empty database or what the seed functions leave (`Protocol.Seeded`).
`ObservedRun` says that the version sent with an update or a transition came with an earlier
response (`frontend/src/stores/factory.ts:37`). `Authenticated` says that no actor is empty
(`backend/internal/middleware/auth.go:50`). Both are named in each lemma that needs them.

Where documentation and code differ. The repository's README (line 45) promises that optimistic
locking and the field lock keep reviewed evidence from being overwritten. The code compares the
client's version with the row but never with the snapshot the lock was tried on. The promise holds
for an edit that has just passed its guards, whatever others do, exactly when the version it was
sent with is not ahead of what it read (`FieldLockHoldsIff`); if it is ahead, others who behave well
are enough to bring it onto a locked row, and `GuessedVersionOverwritesApproval` shows an approved
record lost that way. In general a commit replaces the very row its guards were tried on exactly
under the same condition (`CommitActsOnCurrentRowIff`).

A deletion carries no version. It removes the row it checked exactly when that row has not moved
(`DeletionActsOnCheckedRowIff`), and it removes a draft exactly when, since its read, the record has
come back to draft as often as it has left it (`DeletionHitsDraftIff`); a submission in between is
removed unseen (`DeletionCanRemoveSubmittedRecord`). In the serial order of a run its guard held at an
earlier point (`RemovalWasAllowedEarlier`). A record that is released while no deletion holds a draft
of it is out of reach (`ReleasedRecordStaysLive`).

The limiter counts in a map that keeps one minute for each key. Its answers are those of a counter
that never forgets exactly as long as the map has lost no call of the minute asked for
(`AnswerIsIdealIff`); a clock that does not step back is enough, one that does can restart a count
(`ClockStepBackRestartsCount`). The bounds on memory and admissions are stated for every clock: keys
of later minutes stay in memory, and each restart may admit the limit once more. The local map keeps
every limit exactly when it restarts no count (`LocalMapKeepsLimitIff`).

The seed functions look for live rows only, but deleted rows keep their codes. A start never seeds a
table twice (`SeedsNeverFitAgain`); one that finds every row of a table deleted fails, as
`RestartAfterDeletion` shows for parts. Certificates and authorizations are seeded with released
records, which cannot be deleted with received versions, so a start cannot fail on them this way
(`ExamplesKeepTables`).

## Model

| member | source | states |
|---|---|---|
| `Serializability.RunIsSerializable` | backend/internal/service/release_authorization.go:63-128 | for every initial state and every interleaving with received versions, the database equals a serial run of the committed calls in commit order, each legal on the database of its turn: creations and changes with all their guards, deletions on a live row (their draft guard is left to `DeletionHitsDraftIff`) |
| `Serializability.StepRefines` | backend/internal/repository/release_authorization.go:78-94 | each step of the interleaved system is one legal serial event or leaves the database alone |
| `Serializability.CommitActsOnCurrentRowIff` | backend/internal/service/release_authorization.go:120-124 | for any client: a commit that goes through was decided on the row it replaces if and only if the version sent is not ahead of the snapshot |
| `Serializability.ObservedCommitSeesCurrentRow` | backend/internal/repository/base.go:65-76 | no lost update: with received versions the snapshot of a successful commit is the current row, and the guards hold on it |
| `Serializability.CommitSucceedsIff` | backend/internal/repository/release_authorization.go:78-94 | a commit goes through exactly when its guards accept the snapshot, the row is live at the expected version and no write fails; the unique revision index never rejects it |
| `Serializability.CreateSucceedsIff` | backend/internal/repository/certificate_record.go:61-76 | a creation goes through exactly when the required fields are there, the key is new, the code is in no row, deleted or not, and no write fails; the unique revision index never rejects it |
| `Safety.NextVersionIsFree` | backend/internal/model/release_authorization.go:35-36 | in a safe database the index on (record, version) has no entry for the next version |
| `Safety.ApplyIsSafe` | backend/internal/repository/base.go:65-76 | every step of every schedule keeps version chains, keeps snapshots equal to or older than the current row, and lets rows only grow, equal version meaning equal row |
| `Safety.ExecGrowsRows` | backend/internal/model/base.go:9-21 | along any schedule no row is lost, versions never fall, a version determines the row, and the code never changes |
| `Safety.DeletedRowStays` | backend/internal/repository/base.go:92-101 | along every schedule a deleted row stays deleted and unchanged in every column |
| `Safety.HistoryOnlyGrows` | backend/internal/repository/base.go:78-90 | along every schedule the revisions and audit rows of an earlier moment are a prefix of those of a later one |
| `Contracts.DecisionsKeepPromise` | backend/internal/service/release_authorization.go:63-161 | for every entity, row and call: the guards refuse exactly what they must, with the first applicable error (locked, incomplete, no such edge, role, own submission or preparation), stated with statuses, roles and actors spelled out, and what passes becomes the row it must, column by column |
| `Contracts.GraphsHaveTheseEdges` | backend/internal/constants/status.go:30-60 | the transitions of the four entities are exactly the listed edges |
| `Contracts.AuthorizationMovesKeepPromise` | backend/internal/service/release_authorization.go:93-123 | a transition of an authorization goes through if and only if the edge is there, the role is operator, reviewer or admin (reviewer or admin for approved, restricted, revoked and draft) and the decider did not submit; with the submitter, reviewer and reason columns it sets |
| `Contracts.CertificateMovesKeepPromise` | backend/internal/service/certificate_record.go:95-120 | the same for certificates: reviewer or admin, and not the preparer, for valid and revoked; the verifier column it sets |
| `Contracts.EditsKeepPromise` | backend/internal/service/certificate_record.go:63-91 | an edit is accepted exactly when the record is not locked and code, name, facility and owner hold text; each of the eleven fields is stored from the field of its name, every other column kept, the time of change set |
| `Contracts.BirthsKeepPromise` | backend/internal/service/release_authorization.go:42-56 | a creation needs code, name, facility and owner and stores each field under its name, version 1, the initial status and the preparer |
| `Contracts.AuditRowsTell` | backend/internal/repository/base.go:78-90 | the audit row of a transaction names the actor and request id given, or "system" and "untracked" when they hold no text, with the action, both states and the detail |
| `Contracts.LateAuditRowsTell` | backend/internal/service/security.go:58-73 | the audit row after a commit replaces an empty name only |
| `Text.TrimSpaceIsTheMiddle` | backend/internal/service/release_authorization.go:49-54 | trimming takes white space off both ends and nothing else |
| `Text.UpperLetters` | backend/internal/service/release_authorization.go:49-54 | upper case replaces each small letter by the capital at its place in the alphabet |
| `Effects.CommitsKeepPromise` | backend/internal/repository/release_authorization.go:78-94 | a commit on a safe database fails exactly when it must, with its error, and otherwise leaves one row, one revision and one audit row as spelled out (late-audited entities: the row alone) |
| `Effects.CreationsKeepPromise` | backend/internal/repository/certificate_record.go:61-76 | a creation on a safe database fails exactly when it must, with its error, and otherwise is the birth event |
| `Effects.ChangeEffect` | backend/internal/service/certificate_record.go:63-124 | a change in the serial order passes every guard and stores row, revision and audit row as spelled out, all other rows untouched |
| `Effects.BirthEffect` | backend/internal/service/certificate_record.go:42-61 | the same for a creation, on a code no row holds |
| `Effects.LateAuditTells` | backend/internal/service/aircraft_part.go:92-123 | the audit row a call owes after its commit tells caller, action, the status its guards saw, the status after it and the detail |
| `Landings.CallLands` | backend/internal/service/release_authorization.go:63-128 | an update or transition among any steps of others answers exactly the error it must, or stores exactly the row, revision and audit rows it must, and answers the row as it is read back |
| `Landings.DeletionLands` | backend/internal/service/certificate_record.go:126-138 | the same for a deletion: the mark and nothing else, and its late audit row |
| `Landings.CreationLands` | backend/internal/service/release_authorization.go:42-61 | the same for a creation of a versioned record |
| `Landings.PlainCreationLands` | backend/internal/service/aircraft_part.go:42-62 | the same for parts and tasks, which answer what they stored |
| `Guarantees.VersionChainAlways` | backend/internal/repository/certificate_record.go:61-94 | for every schedule and any client: revisions are numbered exactly 1 to the row's version, the last one shows its status and evidence, and a created record has as many change audits as versions |
| `Guarantees.RevisionIndexIsUnique` | backend/internal/model/certificate_record.go:34-35 | no two revisions of a record share a version |
| `Guarantees.AuthorizationReplays` | backend/internal/service/release_authorization.go:105-123 | folding the revisions of a created authorization from nothing rebuilds status, version, evidence, submitter, reviewer and review reason |
| `Guarantees.AuthorizationDualControl` | backend/internal/service/release_authorization.go:105-119 | every approval, restriction, revocation and return to draft has a submission before it; the latest one was made by another actor, on the same evidence, with no draft in between, through any number of resubmissions |
| `Guarantees.CertificatePublication` | backend/internal/service/certificate_record.go:63-124 | the preparer is the actor of the latest draft revision, the verifier is empty exactly in draft, and from publication on differs from the preparer and is the actor of the latest valid or revoked revision |
| `Guarantees.AuditTrailAgrees` | backend/internal/repository/release_authorization.go:61-94 | audit rows and revisions of a created record correspond one to one in order, with action, states before and after, and the actor and request id of the revision unless they hold no text; the states form a path of listed edges from the initial status |
| `Guarantees.RolesRespected` | backend/internal/service/release_authorization.go:102-113 | no schedule and no version sent lets anybody but a reviewer or admin commit an approval, restriction, revocation, return to draft or publication, or a viewer any transition, roles named one by one |
| `Guarantees.RevisionsAreAttributed` | backend/internal/repository/certificate_record.go:66-92 | for every schedule and any client: the revisions of a created record are signed, in order, with actor, request id and action of exactly the calls that created and changed it |
| `Guarantees.EvidenceFrozen` | backend/internal/service/release_authorization.go:63-91 | as long as a record does not become a draft again its business fields and evidence equal those it had when it left draft |
| `Guarantees.BoundedLifeAfterRelease` | backend/internal/constants/status.go:45-58 | after approval, restriction or publication the record stays released, at most two more versions are committed, and all commits to it, deletions included, are at most two, or three if it ends deleted |
| `Guarantees.CommitsLeaveMarks` | backend/internal/repository/base.go:65-101 | along a run the committed changes and deletions of a record are exactly the growth of its version plus its deletion mark |
| `Guarantees.RankBoundsLife` | backend/internal/constants/status.go:45-58 | version plus rank never rises once released: every commit of a version costs rank |
| `Guarantees.BeforeReleaseOnlyDraftAndReview` | backend/internal/constants/status.go:52-58 | until release every revision of a created authorization is draft or review, and each transition changes between the two |
| `History.DecisionIsIndependent` | backend/internal/service/release_authorization.go:110-119 | the guards make a decision independent of the latest submission |
| `History.ReplayExtends` | backend/internal/service/release_authorization.go:105-123 | one atomic call extends the replay of an authorization by exactly its revision |
| `History.CertificateExtends` | backend/internal/service/certificate_record.go:85-114 | one atomic call keeps the preparer and verifier columns equal to what the revisions say |
| `Inspections.InspectionRetriesBalance` | backend/internal/service/inspection_task.go:64-112 | entries into running minus passes and failures is 1 while running and 0 otherwise; a passed task has one more run than failures |
| `Inspections.PassedIsFinal` | backend/internal/constants/status.go:38-43 | a passed task never changes status again |
| `Parts.PartsAreSeenBeforeRelease` | backend/internal/constants/status.go:30-36 | a part that arrived as received has been moved to inspection or hold before it has any other status |
| `LateAudits.LateAuditsConserved` | backend/internal/service/inspection_task.go:92-112 | for every possible audit row of a part or task other than a deletion: rows written, rows pending and rows lost together equal the commits it truly describes, a true row being spelled out as caller, action, status before, status after and detail |
| `LateAudits.DeletionAuditedAtMostOnce` | backend/internal/service/certificate_record.go:126-138 | for every schedule and any client: a record has at most one deletion audit, written or due, only if it is deleted, and it names a draft as the state that passed the guard |
| `LateAudits.CommitMakesDue` | backend/internal/service/aircraft_part.go:92-112 | a commit makes due exactly the audit row spelled out from the event and the statuses before and after it |
| `LateAudits.DeletionAuditsNameTheDeleter` | backend/internal/service/certificate_record.go:126-138 | for every schedule and any client: each deletion audit, written or due, names the actor and request id of a deletion of that record somebody asked for |
| `LateAudits.DeletionAuditsConserved` | backend/internal/service/aircraft_part.go:114-123 | for every entity, every schedule and any client: deletion audits written, pending and lost of a record are together its committed deletions, one exactly when it is deleted |
| `Deletions.DeletionActsOnCheckedRowIff` | backend/internal/service/release_authorization.go:130-141 | for any client: a deletion removes the row its guard was tried on if and only if the version has not moved, and then the row of a versioned entity is a draft |
| `Deletions.AwayTellsSide` | backend/internal/constants/status.go:45-58 | between any two moments of a run, departures from draft less returns equal the change of side, for drafts edited, submitted and returned any number of times |
| `Deletions.DeletionHitsDraftIff` | backend/internal/service/certificate_record.go:126-138 | what a deletion removes is a draft if and only if departures and returns since its read balance; for a certificate, if and only if no publication was committed since |
| `Deletions.ReadMoment` | backend/internal/service/release_authorization.go:130-137 | what any request of any run holds as its snapshot was the live row at some moment of the run |
| `Deletions.RemovalWasAllowedEarlier` | backend/internal/service/release_authorization.go:130-141 | in the serial order of a run every deletion has an earlier point at which the row was live and its draft guard held |
| `Deletions.ReleasedRecordStaysLive` | backend/internal/service/certificate_record.go:126-138 | with received versions a record released while no deletion holds a draft of it is never deleted |
| `FieldLock.FieldLockHoldsIff` | backend/internal/service/release_authorization.go:63-91 | for every safe state in which an edit of a certificate or authorization has just read its row and passed its guards: no steps of others, with or without received versions, bring it onto a locked row, if and only if the version sent is not ahead of what it read |
| `FieldLock.LockProtects` | backend/internal/service/certificate_record.go:63-93 | the sufficient half at any later moment: such an edit never goes through onto a locked row, for every schedule, any client and any failure |
| `FieldLock.LockBreaks` | backend/internal/service/certificate_record.go:63-124 | the other half: from every such state with a version ahead there is a run of honest edits and one submission or publication after which the edit goes through onto the locked row |
| `Counterexamples.GuessedVersionOverwritesApproval` | backend/internal/service/release_authorization.go:85-87 | a concrete run in which a guessed version turns an approved authorization back into a draft with other evidence |
| `Counterexamples.DeletionCanRemoveSubmittedRecord` | backend/internal/service/certificate_record.go:126-138 | a concrete run in which a deletion decided on a draft removes a record under review |
| `Calls.FailedCallIsInvisible` | backend/internal/repository/release_authorization.go:78-94 | an update, transition or deletion that ends in an error of a guard or of its transaction, wherever it strikes, leaves the whole system as if only the others had run |
| `Calls.CommittedCallIsOneCommit` | backend/internal/service/release_authorization.go:93-128 | otherwise the system ends as if the others had run alone and the database had taken exactly one whole commit of this request at its moment, and for a late-audited call its one audit row later; that commit is the event of this very request |
| `Calls.ErrorAfterCommit` | backend/internal/service/release_authorization.go:124-127 | the answer of an update or transition tells which of the two happened: after the one commit the only errors are a due late audit that failed and the last read, and success returns the row as it is |
| `Calls.ErrorAfterDeletion` | backend/internal/service/release_authorization.go:130-142 | the same for a deletion, whose only error after its effect is the late audit |
| `Calls.FailedCreateIsInvisible` | backend/internal/repository/release_authorization.go:61-76 | a creation that fails at any of its writes leaves the whole system as if only the others had run |
| `Calls.CommittedCreateIsOneCommit` | backend/internal/service/release_authorization.go:42-61 | a creation that goes through is exactly one whole commit of its own among the others' steps |
| `Calls.ErrorAfterCreate` | backend/internal/service/release_authorization.go:42-61 | the answer of a creation of a versioned record tells which of the two happened; after the commit only the last read can fail |
| `Backend.Server.UpdateVersion` | backend/internal/repository/release_authorization.go:78-94 | the three writes and the rollback leave either the whole update or the tables unchanged |
| `Backend.Server.CreateVersion` | backend/internal/repository/certificate_record.go:61-76 | the same for creation |
| `Backend.Server.WriteRow` | backend/internal/repository/base.go:65-76 | one compare-and-set on a live row that leaves code and deletion mark alone |
| `Backend.Server.Delete` | backend/internal/repository/base.go:92-101 | marks a live row deleted, or reports that there is none |
| `Backend.Server.AppendAudit` | backend/internal/repository/base.go:78-90 | appends one audit row that names the actor and request id given, or the substitutes when they hold no text, or reports an error |
| `ReleaseAuthorizations.ReleaseAuthorizationService.Create` | backend/internal/service/release_authorization.go:42-61 | the call is its schedule among the steps of others, and it answers and stores what a creation must: every field under its name, draft, version 1, empty duty columns |
| `ReleaseAuthorizations.ReleaseAuthorizationService.Update` | backend/internal/service/release_authorization.go:63-91 | the same for an edit: refused with the error it must give, or the eleven fields stored under their names with the version sent plus one |
| `ReleaseAuthorizations.ReleaseAuthorizationService.Transition` | backend/internal/service/release_authorization.go:93-128 | the same for a transition: roles, duties and edges as listed, and the columns it sets |
| `ReleaseAuthorizations.ReleaseAuthorizationService.Delete` | backend/internal/service/release_authorization.go:130-142 | the same for a deletion and its late audit row |
| `CertificateRecords.CertificateRecordService.Create` | backend/internal/service/certificate_record.go:42-61 | the call is its schedule among the steps of others, and it answers and stores what a creation must: every field under its name, draft, version 1, the creator as preparer |
| `CertificateRecords.CertificateRecordService.Update` | backend/internal/service/certificate_record.go:63-93 | the same for an edit: refused with the error it must give, or the eleven fields stored under their names with the version sent plus one |
| `CertificateRecords.CertificateRecordService.Transition` | backend/internal/service/certificate_record.go:95-124 | the same for a transition: roles, duties and edges as listed, and the columns it sets |
| `CertificateRecords.CertificateRecordService.Delete` | backend/internal/service/certificate_record.go:126-138 | the same for a deletion and its late audit row |
| `PlainRecords.PlainRecordService.Create` | backend/internal/service/aircraft_part.go:42-62 | the call is its schedule; it stores every field under its name and answers with the stored item whatever becomes of the audit row, which is spelled out |
| `PlainRecords.PlainRecordService.Update` | backend/internal/service/inspection_task.go:64-90 | the same for an edit, whose audit failure goes unnoticed |
| `PlainRecords.PlainRecordService.Transition` | backend/internal/service/inspection_task.go:92-112 | the same for a transition along the listed edges, whose audit failure is an error after the commit |
| `PlainRecords.PlainRecordService.Delete` | backend/internal/service/aircraft_part.go:114-123 | the same for a deletion and its late audit row |
| `Services.ResendingKeepsFields` | backend/internal/service/release_authorization.go:71-84 | sending back the fields of an accepted edit is accepted and changes no field |
| `Seeding.SeedTable` | backend/internal/database/database.go:220-257 | rows first, then revisions, with a rollback: all of the seeds or an unchanged database, and success exactly when the table has live rows or keys, codes and versions are free and no write fails |
| `Seeding.SeedsStaySeeded` | backend/internal/database/database.go:181-257 | seeding keeps a seeded database seeded: one seed revision for each versioned row and no audit row, the state the promises start from |
| `Seeding.SeedRevisionTells` | backend/internal/database/database.go:206-217 | the revision of a seeded row shows version, status and evidence of the row and names the program, with the seed request id and reason |
| `Seeding.SeedRevisionsFit` | backend/internal/database/database.go:243-256 | in a safe database the revision index turns down no seed the table accepts |
| `Seeding.SeedsNeverFitAgain` | backend/internal/database/database.go:181-187 | after any run from a seeded table the same items never fit again, so a later start changes nothing |
| `Demonstration.Seed` | backend/internal/database/database.go:112-126 | the four tables in their order, each in its own transaction: stored rows are kept, a seeded database stays seeded whatever fails, no table is filled when one before it is left empty, success leaves a live row in every table, an empty database gets exactly the twelve examples when nothing fails, and a database with live rows everywhere is left alone |
| `Demonstration.ExampleFields` | backend/internal/database/database.go:135-152 | the business fields of the twelve seeded rows, each under its name |
| `Demonstration.ExamplesSeparateDuties` | backend/internal/database/database.go:187-242 | the preparers, verifiers, submitters and reviewers of the seeded certificates and authorizations: a draft has none, and nobody decides on his own record |
| `Demonstration.FirstStart` | backend/internal/database/database.go:129-257 | a first start without failures reaches an initial state of the promises with all the examples |
| `Demonstration.ExamplesFit` | backend/internal/database/database.go:187-208 | the examples of a table fit any seeded database that has no row of it yet |
| `Demonstration.ReleasedSeedKeepsTable` | backend/internal/database/database.go:181-185 | a table seeded with a released record has a live row after every run with received versions |
| `Demonstration.ExamplesKeepTables` | backend/internal/database/database.go:220-242 | so the examples of certificates and authorizations keep later starts from failing on their tables |
| `Demonstration.RestartAfterDeletion` | backend/internal/database/database.go:129-153 | a concrete run: a start seeds a part, a client deletes it, and the next start fails |
| `Limiting.AnswerIsIdealIff` | backend/internal/middleware/ratelimit.go:71-94 | for every sequence of calls and every clock: no answer exceeds 1 plus the earlier calls of that key in that minute, and it equals it exactly when the map has lost none of them, to another minute of the key or to a cleanup in a later minute |
| `Limiting.LimiterRefinesIdealCounter` | backend/internal/middleware/ratelimit.go:71-94 | with a clock that never returns to an earlier minute the evicting map answers 1 plus the earlier calls of that key in that minute, for every run and cleanup |
| `Limiting.ClockStepBackRestartsCount` | backend/internal/middleware/ratelimit.go:74-80 | a concrete run in which a clock stepping back makes the answer too low |
| `Limiting.MemoryBound` | backend/internal/middleware/ratelimit.go:71-94 | for every clock: after each call the map has at most max(512, keys called in the current or a later minute) entries; with minutes that never fall these are the keys of the current minute |
| `Limiting.WindowIsMinute` | backend/internal/middleware/ratelimit.go:61-74 | a window is a minute of the clock: 60,000,000,000 nanoseconds |
| `Limiting.CallsApartCountAnew` | backend/internal/middleware/ratelimit.go:71-83 | a call 60 seconds or more from every earlier call of its key is given the count 1 |
| `Limiting.CleanupKeepsCurrent` | backend/internal/middleware/ratelimit.go:85-94 | cleanup never removes a bucket of the current minute |
| `Limiting.OneBackendAdmitsUpToLimit` | backend/internal/middleware/ratelimit.go:37-55 | for every clock: one backend that restarts no count lets through exactly the smaller of the limit and the requests made in a minute, and at most the limit once more for each restart; with minutes that never fall there is no restart |
| `Limiting.LocalMapKeepsLimitIff` | backend/internal/middleware/ratelimit.go:71-94 | for every clock: requests on the local map stay within every limit in a minute if and only if no count of that key and minute was restarted |
| `Limiting.FallbackAdmitsAtMostTwice` | backend/internal/middleware/ratelimit.go:37-69 | with arbitrary fallback from Redis, answers of Redis lost and any clock, a minute lets through at most twice the limit, and once more for each restart of the local count, of which there is none when minutes never fall |
| `Limiting.AnyMinuteAdmitsAtMostTwice` | backend/internal/middleware/ratelimit.go:37-83 | on one backend, with any clock, 60 seconds let through at most twice the limit, and once more for each restart in the two minutes they touch |
| `Limiting.AnyMinuteWithFallback` | backend/internal/middleware/ratelimit.go:37-83 | the same with arbitrary fallback and four times the limit |
| `Limiting.Limiter.CleanupLocal` | backend/internal/middleware/ratelimit.go:85-94 | below 512 keys the delete loop changes nothing; from 512 on it leaves exactly the buckets of the current and later minutes |
| `Limiting.Limiter.IncrementLocal` | backend/internal/middleware/ratelimit.go:71-83 | one step of the evicting map, with the count it gives |
| `Limiting.Limiter.Increment` | backend/internal/middleware/ratelimit.go:57-69 | one atomic increment on Redis, an error when Redis is off or does not answer |
| `Limiting.Limiter.Handle` | backend/internal/middleware/ratelimit.go:37-55 | with any turns of other requests between the attempt at Redis and the fallback, a request is let through exactly when the counter that counts it is within the limit; the headers show the limit, the rest, the end of the minute and, to a refused request only, the whole seconds to wait, at least one |
| `Listing.PagesPartition` | backend/internal/repository/base.go:31-49 | on a frozen table the pages, each from its own query, are together the filtered list, latest change first and larger key first where times agree, every row once, and later pages are empty |
| `Listing.NormalizePage` | backend/internal/repository/base.go:122-133 | page at least 1, page size in 1..100, values already in range kept |
| `Listing.List` | backend/internal/repository/base.go:31-49 | the total is the number of live rows that match at the first query, the items are live matching rows of the second, latest first, cut from its sorted list by normalized page and size; on one state of the table the page is as full as the total says; an error exactly when a query fails |
| `Listing.TotalIsLength` | backend/internal/repository/base.go:41-48 | on one state of the table the counting query and the sorted list agree |
| `Listing.Hydrate` | backend/internal/repository/release_authorization.go:44-50 | the grouping loops give each item the fetched revisions of its own record in order |
| `Listing.HydrationEqualsGet` | backend/internal/repository/release_authorization.go:30-59 | for every safe database the group of a listed record is exactly the revision list Get loads |
| `Listing.ListVersioned` | backend/internal/repository/release_authorization.go:30-52 | list, ids, batch query and grouping together: each row of the page carries exactly the revisions Get loads for it, an empty page asks for none, and a failed batch query is an error |
| `Listing.ListedRowHasItsRevision` | backend/internal/repository/certificate_record.go:30-52 | whatever others commit between the two queries, the revisions of a listed row reach at least to its version, and that one shows its status and evidence |

## Left out

- HTTP handlers, routing, tokens, password checks, request-id and header middleware, configuration, start and shutdown: actor, role, request id and clock are parameters.
- The frontend, except that it sends back a version it has read.
- GORM, SQL engines and Redis beyond the three properties named above; an error a database returns although its transaction was committed is therefore not modelled.
- Upper-casing beyond ASCII: `Text.ToUpper` leaves other letters as they are.
- Machine integers: versions and page arithmetic are unbounded, so the wrap-around of a 64-bit version after 2^64 commits, or of `(page-1)*pageSize` for page numbers near 2^57, is not modelled.
- Field lengths, float rounding, the zone of `effectiveAt`, creation times of revisions and audit rows.
- `CountByStatus`, audit listings and summaries: plain SQL results copied into maps and lists; the audit listing has no tiebreak to prove an order from.
- The thin repositories of parts and tasks, and the clamps in the query types.
- That deletions hit only drafts: false for concurrent requests, as `Counterexamples.DeletionCanRemoveSubmittedRecord` shows; `Deletions.DeletionHitsDraftIff` says when it holds.
- Serializability.RunIsSerializable: a deletion is legal on any live row, because its draft guard is tried on the snapshot and may no longer hold; `Deletions.RemovalWasAllowedEarlier` says where in the serial order it held.
- ReleaseAuthorizations.ReleaseAuthorizationService.Create: codes are upper-cased in ASCII only, as in the two other services and in their updates.
- ReleaseAuthorizations.ReleaseAuthorizationService.Update: the same for the related code.
- CertificateRecords.CertificateRecordService.Create: the same.
- CertificateRecords.CertificateRecordService.Update: the same.
- PlainRecords.PlainRecordService.Update: the same.
- Services.ResendingKeepsFields: the same.
- Listing.List: the match of the search text is a parameter, because `LIKE` differs between database engines.
- LateAudits.LateAuditsConserved: excludes deletions, because the before state of a deletion is that of its snapshot; `DeletionAuditsConserved` counts them by record.
- PlainRecords.PlainRecordService.Create: codes are upper-cased in ASCII only; one class stands for the two services of parts and tasks, which differ in their entity and graph only.
- The seeded users and their passwords.
