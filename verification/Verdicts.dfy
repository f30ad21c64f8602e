/** Which error a request is answered with, from the tables, the text of the request and the faults in its way. */
module Verdicts {
  import opened Text
  import opened Model
  import opened Tables
  import opened Workflow
  import opened Admission
  import opened Drafts

  function Check(bad: bool, error: AppError): Option<AppError> {
    if bad then Some(error) else None
  }

  /** The first complaint counts. */
  function FirstOf(first: Option<AppError>, second: Option<AppError>): Option<AppError> {
    if first.Some? then first else second
  }

  // ----- what goes wrong inside a transaction -----

  /** A failed rollback hides the complaint of the body; begin and commit fail only by themselves. */
  function Guarded(body: Option<AppError>, faults: set<Site>): Option<AppError> {
    if AtBegin in faults || (body.Some? && AtRollback in faults) || (body.None? && AtCommit in faults)
    then Some(Internal)
    else body
  }

  function UpdateError(db: Db, id: string, expected: int, faults: set<Site>): Option<AppError> {
    if AtUpdateEntry in faults then Some(Internal)
    else Check(id !in db.entries || db.entries[id].version != expected, Stale)
  }

  function SnapshotError(db: Db, id: string, revision: int, faults: set<Site>): Option<AppError> {
    Check(AtInsertSnapshot in faults || (id, revision) in db.revisions, Internal)
  }

  function ReviewError(db: Db, id: string, revision: int, faults: set<Site>): Option<AppError> {
    if AtReviewSnapshot in faults then Some(Internal)
    else Check((id, revision) !in db.revisions || db.revisions[(id, revision)].status != PendingApproval, Stale)
  }

  function EventError(faults: set<Site>): Option<AppError> {
    Check(AtAppendEvent in faults, Internal)
  }

  // ----- what a request is answered with -----

  ghost function ScopeRefusal(ctx: Context, scope: Scope): Option<AppError> {
    Refusal(ctx, scope.tenant, scope.application)
  }

  ghost predicate Addresses(db: Db, sent: Scope, id: string) {
    id in db.entries && StoredAs(sent, db.entries[id].scope)
  }

  /** The entry a draft addresses, if there is one. */
  ghost function Addressed(db: Db, sent: Scope): (r: Option<string>)
    ensures r.Some? ==> Addresses(db, sent, r.value)
    ensures r.None? ==> forall id :: !Addresses(db, sent, id)
  {
    if id :| Addresses(db, sent, id) then Some(id) else None
  }

  /** A malformed draft is invalid whoever sends it; a draft of an existing entry needs a token. */
  ghost function DraftVerdict(db: Db, value: Entry, expected: int, ctx: Context, faults: set<Site>): Option<AppError> {
    FirstOf(Check(!WellFormed(value), Invalid),
    FirstOf(ScopeRefusal(ctx, value.scope),
    FirstOf(Check(AtReadEntry in faults, Internal),
            match Addressed(db, value.scope)
            case Some(id) =>
              FirstOf(Check(expected < 1, Invalid), Guarded(UpdateError(db, id, expected, faults), faults))
            case None => Guarded(Check(AtInsertEntry in faults || ctx.newId in db.entries, Internal), faults))))
  }

  /** Reading an entry by its id, requiring one of the given statuses, and asking whether the caller may. */
  ghost function EntryVerdict(db: Db, id: string, statuses: set<Status>, ctx: Context, faults: set<Site>)
    : Option<AppError>
  {
    if AtReadEntry in faults then Some(Internal)
    else if id !in db.entries then Some(NotFound)
    else FirstOf(Check(db.entries[id].status !in statuses, Conflict), ScopeRefusal(ctx, db.entries[id].scope))
  }

  ghost function SubmitVerdict(db: Db, id: string, expected: int, ctx: Context, faults: set<Site>): Option<AppError> {
    FirstOf(EntryVerdict(db, id, {Draft, Rejected}, ctx, faults),
            if id !in db.entries then None
            else Guarded(FirstOf(UpdateError(db, id, expected, faults),
                         FirstOf(SnapshotError(db, id, db.entries[id].revision, faults), EventError(faults))), faults))
  }

  ghost function PublishVerdict(db: Db, id: string, expected: int, ctx: Context, faults: set<Site>): Option<AppError> {
    FirstOf(EntryVerdict(db, id, {Approved}, ctx, faults),
            Guarded(FirstOf(UpdateError(db, id, expected, faults), EventError(faults)), faults))
  }

  /** Reviewing one's own submission is a conflict. */
  ghost function ReviewVerdict(db: Db, id: string, expected: int, ctx: Context, faults: set<Site>): Option<AppError> {
    FirstOf(EntryVerdict(db, id, {PendingApproval}, ctx, faults),
            if id !in db.entries || ctx.caller.None? then None
            else
              var e := db.entries[id];
              FirstOf(Check(ctx.caller.value.id == e.updatedBy, Conflict),
                      Guarded(FirstOf(ReviewError(db, id, e.revision, faults),
                              FirstOf(UpdateError(db, id, expected, faults), EventError(faults))), faults)))
  }

  ghost function RollbackVerdict(db: Db, id: string, target: int, expected: int, ctx: Context, faults: set<Site>)
    : Option<AppError>
  {
    if AtReadTarget in faults then Some(Internal)
    else if (id, target) !in db.revisions || id !in db.entries then Some(NotFound)
    else if AtReadEntry in faults then Some(Internal)
    else
      FirstOf(Check(db.revisions[(id, target)].status !in {Approved, Published}, Conflict),
      FirstOf(ScopeRefusal(ctx, db.entries[id].scope),
              Guarded(FirstOf(UpdateError(db, id, expected, faults),
                      FirstOf(SnapshotError(db, id, db.entries[id].revision + 1, faults),
                              EventError(faults))), faults)))
  }

  /** The error a request is answered with, if any. A rejection without a reason is invalid before anything is read. */
  ghost function Verdict(db: Db, op: Op): Option<AppError> {
    match op.req
    case PutDraft(value, expected) => DraftVerdict(db, value, expected, op.ctx, op.faults)
    case Submit(id, expected) => SubmitVerdict(db, id, expected, op.ctx, op.faults)
    case Approve(id, expected, _) => ReviewVerdict(db, id, expected, op.ctx, op.faults)
    case Reject(id, expected, reason) =>
      FirstOf(Check(Blank(reason), Invalid), ReviewVerdict(db, id, expected, op.ctx, op.faults))
    case Publish(id, expected) => PublishVerdict(db, id, expected, op.ctx, op.faults)
    case Rollback(id, target, expected) => RollbackVerdict(db, id, target, expected, op.ctx, op.faults)
  }

  // ----- the code answers with it -----

  /** The complaint of a body that ran. */
  function BodyError(r: Result<Db, DbError>): Option<AppError> {
    match r
    case Ok(_) => None
    case Err(StaleVersion) => Some(Stale)
    case Err(Broken) => Some(Internal)
  }

  /** The answer agrees with a verdict. */
  predicate Answers(r: Result<Entry, AppError>, verdict: Option<AppError>) {
    match verdict
    case None => r.Ok?
    case Some(e) => r == Err(e)
  }

  lemma WithinAnswers(db: Db, t: Transaction, faults: set<Site>)
    ensures Answers(Within(db, t, faults).reply, Guarded(BodyError(ExecAll(db, t.stmts, faults)), faults))
  {
    hide ExecAll;
  }

  lemma InsertFails(db: Db, row: Entry, faults: set<Site>)
    requires UuidShape(row.id) && !ScopeTaken(db, row.scope)
    ensures BodyError(ExecAll(db, [InsertEntry(row)], faults))
         == Check(AtInsertEntry in faults || row.id in db.entries, Internal)
  {
    ExecOne(db, InsertEntry(row), faults);
  }

  lemma UpdateFails(db: Db, row: Entry, expected: int, faults: set<Site>)
    ensures BodyError(ExecAll(db, [UpdateEntry(row, expected)], faults)) == UpdateError(db, row.id, expected, faults)
  {
    ExecOne(db, UpdateEntry(row, expected), faults);
  }

  lemma PublishFails(db: Db, row: Entry, expected: int, event: Event, faults: set<Site>)
    ensures BodyError(ExecAll(db, [UpdateEntry(row, expected), AppendEvent(event)], faults))
         == FirstOf(UpdateError(db, row.id, expected, faults), EventError(faults))
  {
    ExecTwo(db, UpdateEntry(row, expected), AppendEvent(event), faults);
  }

  lemma SnapshotFails(db: Db, row: Entry, bumped: Entry, expected: int, event: Event, faults: set<Site>)
    requires bumped.id == row.id
    ensures BodyError(ExecAll(db, [UpdateEntry(row, expected), InsertSnapshot(bumped), AppendEvent(event)], faults))
         == FirstOf(UpdateError(db, row.id, expected, faults),
            FirstOf(SnapshotError(db, row.id, bumped.revision, faults), EventError(faults)))
  {
    ExecThree(db, UpdateEntry(row, expected), InsertSnapshot(bumped), AppendEvent(event), faults);
  }

  lemma ReviewFails(db: Db, row: Entry, expected: int, event: Event, faults: set<Site>)
    ensures var body := [ReviewSnapshot(row, PendingApproval), UpdateEntry(row, expected), AppendEvent(event)];
      BodyError(ExecAll(db, body, faults))
      == FirstOf(ReviewError(db, row.id, row.revision, faults),
         FirstOf(UpdateError(db, row.id, expected, faults), EventError(faults)))
  {
    ExecThree(db, ReviewSnapshot(row, PendingApproval), UpdateEntry(row, expected), AppendEvent(event), faults);
  }

  ghost predicate Decided(db: Db, op: Op) {
    Answers(Step(db, op).reply, Verdict(db, op))
  }

  lemma AddressedEntry(db: Db, value: Entry)
    requires Constraints(db)
    ensures GetByScope(db, Normalize(value).scope) ==
      match Addressed(db, value.scope)
      case Some(id) => Some(db.entries[id])
      case None => None
  {
    hide StoredAs, ContentStoredAs, Normalize, Tidy, UuidShape;
    forall id | id in db.entries
      ensures Addresses(db, value.scope, id) <==> db.entries[id].scope == Normalize(value).scope
    {
      NormalizeExactly(value, db.entries[id].scope, value.content);
    }
  }

  lemma DraftRefusal(ctx: Context, value: Entry)
    ensures Authorize(ctx, Normalize(value).scope.tenant, Normalize(value).scope.application) ==
      match ScopeRefusal(ctx, value.scope)
      case Some(e) => Err(e)
      case None => Ok(ctx.caller.value.id)
  {
    hide Authorize, Refusal, Permitted, TrimSpace, Fold;
    var scope := Normalize(value).scope;
    AuthorizeExactly(ctx, scope.tenant, scope.application);
    RefusalIgnoresBlanks(ctx, value.scope.tenant, value.scope.application);
  }

  lemma DraftIsDecided(db: Db, op: Op)
    requires Constraints(db) && op.req.PutDraft?
    ensures Decided(db, op)
  {
    hide Authorize, ScopeRefusal, ExecAll, Within, ScopesUnique, Normalize, Acceptable, WellFormed, StoredAs,
      ScopeTaken;
    var PutDraft(value, expected) := op.req;
    AcceptableExactly(value);
    DraftRefusal(op.ctx, value);
    AddressedEntry(db, value);
    var current := GetByScope(db, Normalize(value).scope);
    var plan := Plan(op.req, op.ctx, Missing, ToRead(current));
    if plan.Ok? {
      var stmt := plan.value.stmts[0];
      if current.None? { InsertFails(db, stmt.row, op.faults); }
      else { UpdateFails(db, stmt.row, expected, op.faults); }
      WithinAnswers(db, plan.value, op.faults);
    }
  }

  lemma SubmitIsDecided(db: Db, op: Op)
    requires Constraints(db) && op.req.Submit?
    ensures Decided(db, op)
  {
    hide Authorize, Refusal, ExecAll, Within, ScopesUnique, UuidShape;
    var Submit(id, expected) := op.req;
    if id in db.entries {
      var e := db.entries[id];
      AuthorizeExactly(op.ctx, e.scope.tenant, e.scope.application);
      var plan := Plan(op.req, op.ctx, Missing, Found(e));
      if plan.Ok? {
        var stmts := plan.value.stmts;
        assert stmts == [stmts[0], stmts[1], stmts[2]];
        SnapshotFails(db, stmts[0].row, stmts[1].row, expected, stmts[2].event, op.faults);
        WithinAnswers(db, plan.value, op.faults);
      }
    }
  }

  lemma PublishIsDecided(db: Db, op: Op)
    requires Constraints(db) && op.req.Publish?
    ensures Decided(db, op)
  {
    hide Authorize, Refusal, ExecAll, Within, ScopesUnique, UuidShape;
    var Publish(id, expected) := op.req;
    if id in db.entries {
      var e := db.entries[id];
      AuthorizeExactly(op.ctx, e.scope.tenant, e.scope.application);
      var plan := Plan(op.req, op.ctx, Missing, Found(e));
      if plan.Ok? {
        var stmts := plan.value.stmts;
        assert stmts == [stmts[0], stmts[1]];
        PublishFails(db, stmts[0].row, expected, stmts[1].event, op.faults);
        WithinAnswers(db, plan.value, op.faults);
      }
    }
  }

  lemma ReviewIsDecided(db: Db, op: Op)
    requires Constraints(db) && (op.req.Approve? || op.req.Reject?)
    ensures Decided(db, op)
  {
    hide Authorize, Refusal, ExecAll, Within, ScopesUnique, UuidShape, TrimSpace, Blank;
    var id, expected := op.req.id, op.req.expected;
    TrimSpaceExactly(op.req.comment, "");
    if id in db.entries {
      var e := db.entries[id];
      AuthorizeExactly(op.ctx, e.scope.tenant, e.scope.application);
      var plan := Plan(op.req, op.ctx, Missing, Found(e));
      if plan.Ok? {
        var stmts := plan.value.stmts;
        ReviewFails(db, stmts[1].row, expected, stmts[2].event, op.faults);
        WithinAnswers(db, plan.value, op.faults);
      }
    }
  }

  lemma RollbackIsDecided(db: Db, op: Op)
    requires Constraints(db) && op.req.Rollback?
    ensures Decided(db, op)
  {
    hide Authorize, Refusal, ExecAll, Within, ScopesUnique, UuidShape;
    var Rollback(id, target, expected) := op.req;
    if (id, target) in db.revisions && id in db.entries {
      var e := db.entries[id];
      AuthorizeExactly(op.ctx, e.scope.tenant, e.scope.application);
      var plan := Plan(op.req, op.ctx, Found(db.revisions[(id, target)]), Found(e));
      if plan.Ok? {
        var stmts := plan.value.stmts;
        SnapshotFails(db, stmts[0].row, stmts[1].row, expected, stmts[2].event, op.faults);
        WithinAnswers(db, plan.value, op.faults);
      }
    }
  }

  /** Every request, on any tables and with any faults, is answered with the error its verdict names, and succeeds when
      there is none. */
  lemma StepIsDecided(db: Db, op: Op)
    requires Constraints(db)
    ensures Answers(Step(db, op).reply, Verdict(db, op))
  {
    hide Answers, Step, Verdict;
    match op.req
    case PutDraft(_, _) => DraftIsDecided(db, op);
    case Submit(_, _) => SubmitIsDecided(db, op);
    case Approve(_, _, _) => ReviewIsDecided(db, op);
    case Reject(_, _, _) => ReviewIsDecided(db, op);
    case Publish(_, _) => PublishIsDecided(db, op);
    case Rollback(_, _, _) => RollbackIsDecided(db, op);
  }
}
