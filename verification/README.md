# Dynamic configuration: a verified model

A Dafny model of the dynamic-configuration engine of the config service and proofs about it. Configuration entries
go through draft, submission, independent review, publication and rollback; every write is one all-or-nothing
transaction over `config_entries`, `config_revisions` and the outbox, guarded by `WHERE id=? AND version=?`; readers
resolve keys against the published revisions with application, tenant and platform precedence and percentage rollout.

`dafny verify dfyconfig.toml` checks everything.

## How it is built

- `Text`, `Model`: strings, entries, snapshots, events, callers, authorisation.
- `Tables`: the three tables as a value, the five statements the repository issues, what no statement undoes.
- `Workflow`: what each operation decides from what it read (`Plan`), the transaction (`Within`), the whole operation
  as one atomic step (`Step`). Faults of every read, statement, begin and commit are an input.
- `Service`: the mutable form. A `Store` object holds the tables, a transaction is a second `Store` that is kept or
  dropped, and the operations of `ConfigService` are methods proved to do exactly what `Step` says.
- `Admission`, `Drafts`: who may act where, which drafts are accepted and under which name they are stored, said of the
  text that was sent, and proofs that the code's checks decide exactly that.
- `Verdicts`: the error every request is answered with, for any tables and faults.
- `Transitions`: the same operations as a transition system: `Legal` says when an operation takes effect, `EffectOf`
  what the effect is, and `StepFollows` that the code does this and nothing else.
- `Invariant`, `Preservation`: one inductive invariant across the three tables. Its core (rows, snapshots, log) is kept
  by every operation, its part about publication by every operation unless a create claims a published revision.
- `Runs`: sequential runs with a log of commits, and conservation.
- `Interleaving`, `Refinement`, `Tokens`: any number of clients whose reads and commits interleave freely (a rollback
  reads twice before it commits); interleaved runs equal sequential runs in commit order.
- `Everywhere`: what holds of stale reads too, and so in every interleaved run, whatever tokens clients send.
- `Schedules`: every sequential run is an interleaved one, the converse of refinement.
- `Served`, `Etag`, `Publications`, `EventLog`, `Paging`, `Ordering`, `Rollout`, `Scopes`, `Reach`: the read side.
- `Guarantees`, `Requests`: the main results, over every interleaved run.
- `Findings`: where a natural expectation fails, with witnesses and the exact condition under which it holds.

Two premises on runs occur, each only where the guarantee uses it. *Observed tokens*: no request's token is above the version
it reads. *Unclaiming creates*: no draft that finds its scope free carries a positive published revision (what a draft
for an existing entry carries is ignored by the code and not restricted). A run is *proper* when both hold.

| premise | guarantees |
|---|---|
| none | `NothingIsUndone`, `VersionPinsHistory`, `EtagIsSound`, `EqualEtagsMeanEqualRowsExactlyWhenVersionsAgree`, `ReviewIsIndependent`, `ApprovalTurnsOnTheSubmitter`, `ContentIsDisciplined`, `ChecksNeverFire`, `RollbackRepeatsApproved`, `CommitsArePermitted`, `WritersStayInTheirTenant`, `StoredNamesAreTidy`, `DraftsAreStoredAsSent`, `SensitiveDraftsUseReferences`, `NoSecretIsStored`, `ReviewsKeepTheComment`, `RejectionTurnsOnTheReason`, `EveryRequestIsDecided`, `Conservation`, `TokenTakesEffectOnce`, `RepeatedRequest`, `SubmitFromRejectedNeverCommits` |
| observed tokens | `InterleavingRefinesAtomic`, `SnapshotsFollowEntries`, `RollbackRepeatsEarlier`, `RevisionConservation`, `SupersededStaysSuperseded`, `WorkInProgressRetains`, `ConsumersHoldOnlyServed` |
| unclaiming creates | `PublishedLineage`, `ServedHasApprovedSource` |
| both | `ServedWasApproved`, `WorkInProgressIsInvisible`, `PublishedNeverGoesBack`, `ConsumersConverge` |

Per commit, the first premise is exact: `CommitSeesWhatItRead`. Without it an update and its revision are lost
(`FutureTokenLosesUpdate`), a draft can withdraw a publication whose event stays (`FutureTokenWithdrawsPublication`),
and a draft can land on a submitted revision (`FutureTokenBreaksCoupling`). Per create, the second is exact:
`CreateIsSafeExactlyWhenClean`; the one way it matters to work in progress is `InProgressAddsExactly`.

## Where the code and an expectation part

- The code never compares the token with the version it read; only the SQL guard sees it. A token one above the
  version read lets a draft overwrite a draft its client never saw, or withdraw a publication.
- The error text says that a rejected configuration can be submitted. The snapshot of the rejected revision makes
  every such submission fail on UNIQUE(entry_id, revision) until a new draft is put.
- A create keeps the caller's `published_revision`; the gRPC adapter passes it on (internal/transport/grpc/server.go:180).
  With a positive claim, submitted but unreviewed content is served.
- A create ignores the token, so a repeated draft request with a token of at least 1 can commit twice.
- Review is independent of the submitter, not of the author: an author's approval of their own draft commits exactly
  when someone else submitted it.
- A served row carries the entry's version, which the etag does not cover: equal etags mean equal rows exactly when the
  versions agree.
- The bucket of a subject is drawn from key and revision written without a separator, so revision 2 of "a1" and
  revision 12 of "a" always share it (`BucketCollision`); `BucketsAreShared` says exactly when this happens.

## Model

| member | source | states |
|---|---|---|
| `Service.Store.FindByScope` | internal/dynamicconfig/repository.go:47-54 | the scan finds the row of a scope, or none exactly when the scope is free |
| `Service.Store.Insert` | internal/dynamicconfig/repository.go:55-58 | inserts the row unless its id or scope is taken or the statement is hit by a fault; then nothing changes |
| `Service.Store.Update` | internal/dynamicconfig/repository.go:59-69 | compare-and-bump: assigns the listed columns and raises the version only where id and version match, else stale and unchanged |
| `Service.Store.TakeSnapshot` | internal/dynamicconfig/repository.go:70-73 | inserts the snapshot with the last updater as creator, refused on an existing (entry, revision) |
| `Service.Store.UpdateRevisionReview` | internal/dynamicconfig/repository.go:74-84 | records a decision on the snapshot only while it has the expected status |
| `Service.Store.AddOutbox` | internal/dynamicconfig/repository.go:28-31 | appends the event or fails without a trace |
| `Service.Store.Begin` | internal/database/transaction.go:17-24 | a transaction starts from a private copy of the tables |
| `Service.Store.End` | internal/database/transaction.go:25-34 | the copy replaces the tables exactly when body and commit succeeded; otherwise they are as before, and a failed rollback hides the body's error |
| `Workflow.Within` | internal/database/transaction.go:17-35 | all or nothing: an error leaves entries, revisions and outbox equal to before, success means every statement ran |
| `Service.ConfigService.PutDraft` | internal/dynamicconfig/service.go:64-118 | tables and answer of the atomic step for every input, fault and error path; a malformed draft is invalid; otherwise the entry answers to the sent name without outer blanks, folded where names are, with the sent content, for a permitted caller |
| `Service.ConfigService.ChangeStatus` | internal/dynamicconfig/service.go:186-213 | update, optional snapshot and event in one transaction, tables and answer as planned |
| `Service.ConfigService.SubmitForApproval` | internal/dynamicconfig/service.go:130-140 | tables and answer of the atomic submission, only for a caller permitted on the entry's tenant and application |
| `Service.ConfigService.Publish` | internal/dynamicconfig/service.go:119-129 | tables and answer of the atomic publication, only for a permitted caller |
| `Service.ConfigService.DecideReview` | internal/dynamicconfig/service.go:150-185 | snapshot decision, update and event in one transaction, tables and answer as planned |
| `Service.ConfigService.Approve` | internal/dynamicconfig/service.go:141-143 | tables and answer of the atomic approval, only for a permitted caller, with the comment without its outer blanks |
| `Service.ConfigService.Reject` | internal/dynamicconfig/service.go:144-149 | a reason of white space alone is invalid; otherwise tables and answer of the atomic rejection, only for a permitted caller, with the reason without its outer blanks |
| `Service.ConfigService.Restore` | internal/dynamicconfig/service.go:226-250 | the target's content becomes a new published revision with its own snapshot and event, in one transaction |
| `Service.ConfigService.Rollback` | internal/dynamicconfig/service.go:214-251 | tables and answer of the atomic rollback, only for a permitted caller |
| `Text.TrimSpaceExactly` | internal/dynamicconfig/service.go:65-70 | trimming takes white space off both ends and nothing else, and leaves nothing exactly of a blank text |
| `Text.FoldExactly` | internal/dynamicconfig/service.go:65-69 | folding is trimming, then each capital to the small letter at its place in the alphabet, nothing else changed |
| `Text.FoldMentions` | internal/dynamicconfig/service.go:351-358 | the folded text contains a part exactly when the sent one mentions it in any case |
| `Drafts.SensitiveExactly` | internal/dynamicconfig/service.go:351-358 | the stored key is sensitive exactly when the sent one mentions password, secret, token, private_key or api_key in any case |
| `Drafts.AcceptableExactly` | internal/dynamicconfig/service.go:71-79 | the checks accept exactly the well-formed drafts, said of the sent text: no blank names, no application without tenant, a percentage, one of value and reference, a reference for sensitive keys |
| `Drafts.NormalizeExactly` | internal/dynamicconfig/service.go:65-70 | what is stored is exactly the sent name folded or stripped and the sent content with its reference stripped |
| `Drafts.TidyIsStoredAsSent` | internal/dynamicconfig/service.go:65-69 | a name without capitals and outer blanks is stored as sent, and only so |
| `Admission.AuthorizeExactly` | internal/dynamicconfig/service.go:328-350 | who is let through, and the first reason for which anyone else is refused: no caller, another or a blank tenant for a user, an application without tenant, no grant, no answer |
| `Admission.RefusalIgnoresBlanks` | internal/dynamicconfig/service.go:335-336 | outer blanks of tenant and application play no part in it |
| `Verdicts.DraftIsDecided` | internal/dynamicconfig/service.go:64-118 | the exact error of every draft, for any tables and faults, from the sent text |
| `Verdicts.SubmitIsDecided` | internal/dynamicconfig/service.go:130-140 | the exact error of every submission |
| `Verdicts.ReviewIsDecided` | internal/dynamicconfig/service.go:141-185 | the exact error of every approval and rejection: blank reason, missing, not pending, refused, own submission, stale, fault |
| `Verdicts.PublishIsDecided` | internal/dynamicconfig/service.go:119-129 | the exact error of every publication |
| `Verdicts.RollbackIsDecided` | internal/dynamicconfig/service.go:214-251 | the exact error of every rollback, a missing target before a missing entry before a wrong status |
| `Verdicts.StepIsDecided` | internal/dynamicconfig/service.go:370-381 | every request succeeds exactly when there is no complaint, and is otherwise answered with the first one; a failed rollback hides it |
| `Transitions.CreateFollows` | internal/dynamicconfig/service.go:92-103 | a draft for a free scope commits exactly when legal and then stores version 1, revision 1, status draft |
| `Transitions.DraftFollows` | internal/dynamicconfig/service.go:104-117 | a draft for an existing entry commits exactly when the token is its version, and then only raises revision and version and replaces the content |
| `Transitions.SubmitFollows` | internal/dynamicconfig/service.go:130-140 | a submission commits exactly from draft; its snapshot insert then never collides |
| `Transitions.ReviewFollows` | internal/dynamicconfig/service.go:150-185 | a review commits exactly on a pending entry by someone other than its last updater, and decides entry and snapshot alike |
| `Transitions.PublishFollows` | internal/dynamicconfig/service.go:119-129 | a publication commits exactly from approved and leaves the snapshot alone |
| `Transitions.RollbackFollows` | internal/dynamicconfig/service.go:214-251 | a rollback commits exactly for an approved or rollback-made target; its snapshot insert never collides |
| `Transitions.StepFollows` | internal/dynamicconfig/service.go:64-251 | every operation takes effect if and only if it is legal, stores exactly the effect and answers the stored row; otherwise it errs and changes nothing |
| `Transitions.EventNeverShowsBoth` | internal/dynamicconfig/service.go:253-260 | whatever the row, its event shows no value next to a secret reference and changes nothing else |
| `Transitions.EventCarriesRow` | internal/dynamicconfig/service.go:253-260 | the event of a disciplined row carries the row unchanged although values next to secret references are dropped |
| `Tables.ExecAllEvolves` | internal/dynamicconfig/repository.go:55-84 | no transaction body removes a row, changes one without raising its version, changes a decided snapshot or shortens the outbox |
| `Workflow.SettleEvolves` | internal/dynamicconfig/service.go:174-211 | however stale what an operation read, its transaction undoes nothing and keeps the schema's constraints |
| `Preservation.StepKeepsCore` | internal/dynamicconfig/service.go:64-251 | every operation, whatever it claims, keeps the core of the invariant: coupling, history, review independence, discipline, log |
| `Preservation.StepKeeps` | internal/dynamicconfig/service.go:64-251 | every operation that is not a create with a claim keeps the full invariant across the three tables and takes no publication back |
| `Preservation.RollbackKeeps` | internal/dynamicconfig/service.go:223-227 | a rollback keeps it, its content leading back to an approved revision through any chain of rollbacks |
| `Preservation.ReviewKeeps` | internal/dynamicconfig/service.go:168-183 | a decision by someone other than the submitter keeps it |
| `Runs.RunKeepsCore` | internal/dynamicconfig/service.go:64-251 | every sequential run keeps the core and undoes nothing |
| `Runs.RunKeeps` | internal/dynamicconfig/service.go:64-251 | every sequential run whose creates claim nothing ends in a sound state and takes no publication back |
| `Runs.RunAccounts` | internal/dynamicconfig/service.go:92-117 | in every sequential run every counter of every entry is explained by the log of commits, and the outbox is the sequence of committed answers other than drafts |
| `Refinement.CommitSeesWhatItRead` | internal/dynamicconfig/repository.go:59-69 | a successful commit finds the row exactly as read if and only if its token was not above the version read |
| `Refinement.CommitIsAtomic` | internal/dynamicconfig/service.go:91-117 | a successful commit does what the whole operation would do on the spot, including the second read of a rollback |
| `Refinement.InterleavingRefinesAtomic` | internal/dynamicconfig/service.go:64-251 | for any clients, schedule, faults and claims, with observed tokens, tables, log and answers equal performing the committed requests one by one in commit order |
| `Schedules.SequentialIsInterleaved` | internal/dynamicconfig/service.go:64-251 | conversely every sequential run, faults included, is an interleaved one with the same tables |
| `Everywhere.CommitStoresItsEffect` | internal/dynamicconfig/service.go:174-249 | however stale its reads, a successful commit met every guard, stores the workflow's effect on what was read and answers the stored row |
| `Everywhere.CommitKeepsGrounded` | internal/dynamicconfig/repository.go:59-84 | however stale its reads, a commit leaves every row, snapshot and event disciplined and every decision independent of the submitter |
| `Everywhere.RejectedIsNeverSubmitted` | internal/dynamicconfig/repository.go:70-73 | a session that read a rejected row never commits a submission |
| `Tokens.TokenTakesEffectOnce` | internal/dynamicconfig/repository.go:55-69 | in every interleaved run, later commits on an entry have higher tokens, and each scope is created at most once |
| `Tokens.RepeatedRequest` | internal/dynamicconfig/service.go:91-117 | a request that commits twice in some run is a draft with token at least 1 whose first commit was the create |
| `Guarantees.ProperIsSound` | internal/dynamicconfig/service.go:64-251 | every state of every proper interleaved run satisfies the full invariant |
| `Guarantees.PublishedLineage` | internal/dynamicconfig/service.go:119-129 | with unclaiming creates and any tokens, what is published exists as an approved or rollback-made snapshot |
| `Guarantees.RollbackRepeatsApproved` | internal/dynamicconfig/service.go:214-251 | in every run, a rollback-made snapshot repeats the content of an approved revision of its entry |
| `Guarantees.RollbackRepeatsEarlier` | internal/dynamicconfig/service.go:214-251 | with observed tokens that approved revision is an earlier one |
| `Guarantees.ReviewIsIndependent` | internal/dynamicconfig/service.go:150-185 | in every run, no snapshot is approved or rejected by the one who submitted it |
| `Guarantees.ServedHasApprovedSource` | internal/dynamicconfig/service.go:282-303 | with unclaiming creates and any tokens, every row of every resolution has content that someone other than its submitter approved on that entry |
| `Guarantees.ServedWasApproved` | internal/dynamicconfig/service.go:282-303 | in proper runs that approved revision is no later than the served one |
| `Guarantees.NothingIsUndone` | internal/dynamicconfig/repository.go:70-84 | in every run, snapshot content and creator are permanent and a snapshot is decided at most once |
| `Guarantees.VersionPinsHistory` | internal/dynamicconfig/repository.go:59-84 | in every run, an entry with the same version at two points has the same row and the same snapshots |
| `Guarantees.EtagIsSound` | internal/dynamicconfig/service.go:295-303 | equal etag preimages at any two points of any run mean the same ids, revisions, values, secret references and rollouts in the same order |
| `Guarantees.WorkInProgressIsInvisible` | internal/dynamicconfig/service.go:130-185 | while only drafts, submissions and reviews commit, no query sees different items or a different etag |
| `Guarantees.WorkInProgressRetains` | internal/dynamicconfig/service.go:130-185 | with observed tokens and any claims, drafts, submissions and reviews change and remove nothing that is served |
| `Publications.InProgressAddsExactly` | internal/dynamicconfig/service.go:130-140 | work in progress adds an entry to what is served if and only if it submits the very revision the entry gives as published |
| `Guarantees.SupersededStaysSuperseded` | internal/dynamicconfig/service.go:119-129 | with observed tokens and any claims, what is served stays served, its revision only rises, and a superseded pair is never served again |
| `Guarantees.PublishedNeverGoesBack` | internal/dynamicconfig/service.go:119-129 | in proper runs the published revision never goes back, and the status is published exactly when the newest revision is |
| `Guarantees.ContentIsDisciplined` | internal/dynamicconfig/service.go:65-79 | in every run, exactly one of value and secret reference in every entry, snapshot and event, and only secret references under sensitive keys |
| `Guarantees.ChecksNeverFire` | migrations/postgres/000002_dynamic_config.up.sql:3-5 | in every run, every stored row meets the CHECK constraints on percentage, value or secret reference, and scope |
| `Guarantees.ConsumersConverge` | internal/dynamicconfig/service.go:253-270 | a consumer given every event, in any order and repetition, holds exactly the served entries with their published revision and content |
| `Guarantees.ConsumersHoldOnlyServed` | internal/dynamicconfig/service.go:253-270 | with observed tokens and any claims, what such a consumer holds is served with that revision, content and scope |
| `Guarantees.Conservation` | internal/dynamicconfig/service.go:174-249 | in every run, version = drafts + events, snapshots = submissions + rollbacks, and the events mirror the other commits with rising versions |
| `Guarantees.RevisionConservation` | internal/dynamicconfig/service.go:110-112 | with observed tokens, revision = drafts + rollbacks |
| `Guarantees.WritersStayInTheirTenant` | internal/dynamicconfig/service.go:328-333 | in every run, whatever a user principal committed is on an entry whose tenant is its own and not blank |
| `Guarantees.CommitsArePermitted` | internal/dynamicconfig/service.go:335-350 | in every run, every commit was its caller's to make; on an entry with an application it had a grant and a tenant |
| `Requests.StoredNamesAreTidy` | internal/dynamicconfig/service.go:65-69 | in every run, no stored environment, service or key has a capital letter, and no stored name an outer blank |
| `Requests.DraftsAreStoredAsSent` | internal/dynamicconfig/service.go:65-116 | in every run, a committed draft was well formed and is stored under the sent name, folded, with the sent content; a tidy name as sent |
| `Requests.SensitiveDraftsUseReferences` | internal/dynamicconfig/service.go:77-79 | in every run, a draft whose key mentions a secret in any case committed only with a reference and no value |
| `Requests.NoSecretIsStored` | internal/dynamicconfig/service.go:77-79 | in every run, no entry, snapshot or event has a value under a key that mentions a secret |
| `Requests.ReviewsKeepTheComment` | internal/dynamicconfig/service.go:171-173 | in every run, a committed review carries its caller and the comment without outer blanks; a rejection gave a reason |
| `Requests.RejectionTurnsOnTheReason` | internal/dynamicconfig/service.go:144-149 | in every run, a rejection otherwise in order is refused, as invalid, if and only if its reason is white space alone, and else stores the reason stripped |
| `Requests.EveryRequestIsDecided` | internal/dynamicconfig/service.go:64-251 | at every point of every run, the answer to any request is the one its verdict names |
| `Guarantees.SnapshotsFollowEntries` | internal/dynamicconfig/service.go:200-211 | with observed tokens, no snapshot above the newest revision, one there exactly when it is not a draft, with the same content |
| `Publications.PublicationRises` | internal/dynamicconfig/service.go:226-227 | publishing and rolling back raise the published revision strictly, to the newest revision |
| `Publications.StepRises` | internal/dynamicconfig/service.go:64-251 | whatever creates claim, one operation keeps what is served and never lowers its revision |
| `Publications.InProgressIsInvisible` | internal/dynamicconfig/service.go:64-185 | one draft, submission or review leaves the joined rows' items alone |
| `Publications.ServedIsEndorsed` | internal/dynamicconfig/repository.go:97 | whatever the join serves has an independently approved source on the same entry |
| `Served.FirstHits` | internal/dynamicconfig/service.go:286-294 | the loop keeps, per key, the first row the subject hits |
| `Served.FirstHitIsPick` | internal/dynamicconfig/repository.go:97 | the first hit in rank order is the highest-ranked published entry whose rollout hits, whatever the order within a rank |
| `Served.Resolve` | internal/dynamicconfig/service.go:271-304 | result and etag equal the specification for every possible answer of the database: request order, duplicates kept, fall-through on a miss; answered only for permitted callers, others get the error of their refusal, and a failing query is internal |
| `Served.AnswerExists` | internal/dynamicconfig/repository.go:93-104 | every database has such an answer for every query |
| `Reach.ResolvedRowsAreJoins` | internal/dynamicconfig/repository.go:97 | every resolved row has content, revision and review of the published snapshot, status published, and everything else of the entry |
| `Reach.ResolvedRowsReach` | internal/dynamicconfig/service.go:359-369 | a row is served only at full rollout or to a named subject whose bucket is below the rollout; never at rollout 0 |
| `Reach.ReachingEntryIsServed` | internal/dynamicconfig/service.go:286-303 | if a published entry of application, tenant or platform reaches the subject, the key is answered with it or with one that overrides it |
| `Reach.FullRolloutReachesEveryone` | internal/dynamicconfig/service.go:360-362 | an entry at rollout 100 reaches every subject, the empty one included; the application's own is then the answer |
| `Etag.PreimageInjective` | internal/dynamicconfig/service.go:297-302 | the `id:revision;` encoding is injective for uuid ids |
| `Etag.TokenReads` | internal/dynamicconfig/service.go:300 | what is hashed for a row is its id, a colon, its revision in decimal and a semicolon |
| `Etag.SamePreimageSameItems` | internal/dynamicconfig/service.go:295-303 | equal preimages mean equal items, across time and across queries |
| `EventLog.ConsumerAgreesWithJoin` | internal/dynamicconfig/repository.go:97 | the newest published event of an entry is what the join serves |
| `Paging.List` | internal/dynamicconfig/service.go:305-327 | defaults, the limit of 100, the count and the page of possibly two states; page rows are the listing's from (page-1)*size on, size many or what is left, all of the query's four columns; answered only for permitted callers, with the exact error otherwise |
| `Paging.SliceReads` | internal/dynamicconfig/repository.go:114 | LIMIT and OFFSET: row i is row offset + i, and there are limit many or what is left |
| `Paging.ListingInScope` | internal/dynamicconfig/repository.go:105-107 | a listing has exactly the entries whose environment, tenant, application and service are the query's |
| `Paging.KeyLeqExactly` | internal/dynamicconfig/repository.go:114 | the order is ascending by the first difference, a prefix first |
| `Paging.ListingIsUnique` | internal/dynamicconfig/repository.go:105-116 | keys are unique in a scope, so the ordered listing is determined |
| `Paging.ListingExists` | internal/dynamicconfig/repository.go:105-116 | every scope has a listing |
| `Paging.ListingLength` | internal/dynamicconfig/repository.go:109-114 | the listing has as many rows as the count of its scope |
| `Paging.CountNeverExceedsListing` | internal/dynamicconfig/repository.go:109-115 | the count, read first, never exceeds what the later query lists |
| `Paging.PagesPartition` | internal/dynamicconfig/service.go:316-326 | pages up to the ceiling concatenate to every entry of the scope once in key order; later pages are empty |
| `Rollout.HitIsByBucket` | internal/dynamicconfig/service.go:359-369 | the shortcuts at 0 and 100 agree with the bucket rule |
| `Rollout.HitsAreMonotone` | internal/dynamicconfig/service.go:359-369 | raising a revision's percentage never takes a subject out |
| `Text.PrintReads` | internal/dynamicconfig/service.go:366 | revisions are printed in decimal, with a sign for negative ones, and read back |
| `Rollout.BucketInputReads` | internal/dynamicconfig/service.go:366 | the hashed text is the subject, a zero character, the key and the revision in decimal |
| `Rollout.BucketsAreShared` | internal/dynamicconfig/service.go:366 | the same text is hashed for two keys exactly when key and revision read the same together; never for two revisions of one key |
| `Rollout.BucketCollision` | internal/dynamicconfig/service.go:366 | revision 2 of "a1" and revision 12 of "a" hash the same text for every subject |
| `Rollout.ReachedClosedForm` | internal/dynamicconfig/service.go:367-368 | the number of buckets a percentage reaches, for every bucket count |
| `Rollout.Exposure` | internal/dynamicconfig/service.go:366-368 | over 65536 buckets the exposure is 655p + min(p, 36), within 24 buckets of proportion |
| `Scopes.NormalizeIsIdempotent` | internal/dynamicconfig/service.go:65-70 | sending back what was stored addresses the same scope |
| `Scopes.ReadersStayInTheirScope` | internal/dynamicconfig/repository.go:97 | a resolution serves only the requested environment, service and keys, from that tenant or the platform, and an application's entries to that application only |
| `Findings.SubmitFromRejectedNeverCommits` | internal/dynamicconfig/service.go:135-139 | in every run, a client that read a rejected entry never commits its submission |
| `Findings.RepeatedDraftCanCommitTwice` | internal/dynamicconfig/service.go:92-116 | for every token of at least 1 there is an interleaved continuation in which the same draft request commits twice |
| `Findings.ClaimedRevisionIsServedUnapproved` | internal/transport/grpc/server.go:180 | for every positive claim at creation there is an interleaved continuation, claiming nothing more, that serves unreviewed content |
| `Findings.CreateIsSafeExactlyWhenClean` | internal/dynamicconfig/service.go:92-102 | every interleaved continuation of a create, with any tokens, serves only approved content if and only if it claims no published revision |
| `Findings.FutureTokenLosesUpdate` | internal/dynamicconfig/repository.go:60 | a token one above the version read overwrites an unseen draft |
| `Findings.FutureTokenWithdrawsPublication` | internal/dynamicconfig/repository.go:60 | a token one above the version read puts the published revision back under an unseen publication whose event stays |
| `Findings.FutureTokenBreaksCoupling` | internal/dynamicconfig/repository.go:60 | a token two above the version read puts a draft on a revision another client submitted |
| `Findings.ApprovalTurnsOnTheSubmitter` | internal/dynamicconfig/service.go:168-170 | for every pending entry of every run, an allowed caller's approval with the right token commits if and only if the caller is not the submitter |
| `Findings.AuthorMayApproveOwnDraft` | internal/dynamicconfig/service.go:168-170 | an author's approval of their own draft commits if and only if someone else submitted it |
| `Findings.EtagIgnoresVersion` | internal/dynamicconfig/service.go:300 | drafting raises the version in the served row while items and etag stay |
| `Findings.RowsAgreeExactlyWhenVersionsDo` | internal/dynamicconfig/repository.go:97 | the rows served for an entry at two times are equal if and only if their versions are |
| `Findings.EqualEtagsMeanEqualRowsExactlyWhenVersionsAgree` | internal/dynamicconfig/service.go:295-303 | at any two points of any run, equal etag preimages mean equal rows if and only if the versions agree |

## Left out

- Timestamps, including `reviewed_at` and the outbox's availability columns.
- Integer width: versions and revisions are unbounded, so the overflow of 64-bit columns is not modelled.
- Lower-casing beyond the ASCII letters.
- SHA-256, uuid generation, protobuf encoding and the event envelope: digests are function parameters, ids an input of
  uuid shape, events decoded records.
- The CHECK constraints of the schema are not part of the statements; every stored row of every run meets them
  (`ChecksNeverFire`).
- Locking and isolation levels inside the database: a transaction is one atomic step, and a commit that reports an error
  has not happened.
- The entry some operations return next to an error; the model's answer is one or the other.
- Row order of SELECT: `Resolve` and `List` take the rows the database answered as input, constrained to the query's
  meaning, and such rows are shown to exist.
- JSONB normalisation of values and MySQL collation of keys.
- `Get` of one entry and the transport adapters: they would only add easy members.
- Outbox dispatch and retention, idempotency middleware, locks, rate limiting, scheduling, outbound clients, metrics,
  configuration loading and migrations.
