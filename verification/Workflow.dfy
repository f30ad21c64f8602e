/** The approval workflow: what each operation decides from what it read, the transaction it then runs,
    and the whole operation as one atomic step. */
module Workflow {
  import opened Text
  import opened Model
  import opened Tables

  datatype Request =
    | PutDraft(value: Entry, expected: int)
    | Submit(id: string, expected: int)
    | Approve(id: string, expected: int, comment: string)
    | Reject(id: string, expected: int, comment: string)
    | Publish(id: string, expected: int)
    | Rollback(id: string, target: int, expected: int)

  /** The outcome of a query for one row. */
  datatype Read<+T> = Found(value: T) | Missing | Failed

  /** A transaction body and the entry the operation answers with once it has committed. */
  datatype Transaction = Transaction(stmts: seq<Stmt>, reply: Entry)

  datatype Outcome = Outcome(db: Db, reply: Result<Entry, AppError>)

  // ----- deciding -----

  /** The write side folds case and trims; the stored scope is always in this form. */
  function Normalize(v: Entry): Entry {
    v.(scope := Scope(Fold(v.scope.environment), TrimSpace(v.scope.tenant), TrimSpace(v.scope.application),
                      Fold(v.scope.service), Fold(v.scope.key)),
       content := v.content.(secretRef := TrimSpace(v.content.secretRef)))
  }

  /** The checks a normalised draft must pass before anything is read. */
  predicate Acceptable(v: Entry) {
    && v.scope.environment != "" && v.scope.service != "" && v.scope.key != ""
    && !(v.scope.tenant == "" && v.scope.application != "")
    && 0 <= v.content.rollout <= 100
    && !((|v.content.value| == 0) == (v.content.secretRef == ""))
    && !(SensitiveKey(v.scope.key) && v.content.secretRef == "")
  }

  /** The payload never carries a value next to a secret reference. */
  function EventOf(row: Entry, change: ChangeType, actor: string): Event {
    Event(if row.content.secretRef == "" then row else row.(content := row.content.(value := [])), change, actor)
  }

  function PlanDraft(value: Entry, expected: int, ctx: Context, current: Read<Entry>): Result<Transaction, AppError> {
    var v := Normalize(value);
    if !Acceptable(v) then Err(Invalid)
    else match Authorize(ctx, v.scope.tenant, v.scope.application)
      case Err(e) => Err(e)
      case Ok(actor) =>
        match current
        case Failed => Err(Internal)
        case Missing =>
          // Only these columns are set; `published` and `review` stay as the caller supplied them.
          var row := v.(id := ctx.newId, status := Draft, revision := 1, version := 1,
                        createdBy := actor, updatedBy := actor);
          Ok(Transaction([InsertEntry(row)], row))
        case Found(cur) =>
          if expected < 1 then Err(Invalid)
          else
            var row := cur.(content := v.content, status := Draft, revision := cur.revision + 1,
                            review := NO_REVIEW, updatedBy := actor);
            Ok(Transaction([UpdateEntry(row, expected)], row.(version := expected + 1)))
  }

  /** Shared by submit and publish. */
  function PlanStatus(cur: Entry, expected: int, status: Status, snapshot: bool, ctx: Context)
    : Result<Transaction, AppError>
  {
    match Authorize(ctx, cur.scope.tenant, cur.scope.application)
    case Err(e) => Err(e)
    case Ok(actor) =>
      var row := cur.(status := status, updatedBy := actor);
      var bumped := row.(version := expected + 1);
      Ok(Transaction(
           [UpdateEntry(row, expected)]
           + (if snapshot then [InsertSnapshot(bumped)] else [])
           + [AppendEvent(EventOf(bumped, StatusChange(status), actor))],
           bumped))
  }

  function PlanSubmit(expected: int, ctx: Context, current: Read<Entry>): Result<Transaction, AppError> {
    match current
    case Failed => Err(Internal)
    case Missing => Err(NotFound)
    case Found(cur) =>
      if cur.status != Draft && cur.status != Rejected then Err(Conflict)
      else PlanStatus(cur.(review := NO_REVIEW), expected, PendingApproval, true, ctx)
  }

  function PlanPublish(expected: int, ctx: Context, current: Read<Entry>): Result<Transaction, AppError> {
    match current
    case Failed => Err(Internal)
    case Missing => Err(NotFound)
    case Found(cur) =>
      if cur.status != Approved then Err(Conflict)
      else PlanStatus(cur.(published := cur.revision), expected, Published, false, ctx)
  }

  function PlanReview(expected: int, status: Status, comment: string, ctx: Context, current: Read<Entry>)
    : Result<Transaction, AppError>
  {
    match current
    case Failed => Err(Internal)
    case Missing => Err(NotFound)
    case Found(cur) =>
      if cur.status != PendingApproval then Err(Conflict)
      else match Authorize(ctx, cur.scope.tenant, cur.scope.application)
        case Err(e) => Err(e)
        case Ok(actor) =>
          if actor == cur.updatedBy then Err(Conflict)
          else
            var row := cur.(status := status, review := Review(TrimSpace(comment), actor), updatedBy := actor);
            var bumped := row.(version := expected + 1);
            Ok(Transaction([ReviewSnapshot(row, PendingApproval), UpdateEntry(row, expected),
                            AppendEvent(EventOf(bumped, StatusChange(status), actor))], bumped))
  }

  function PlanRollback(expected: int, ctx: Context, target: Read<Snapshot>, current: Read<Entry>)
    : Result<Transaction, AppError>
  {
    match target
    case Failed => Err(Internal)
    case Missing => Err(NotFound)
    case Found(revision) =>
      match current
      case Failed => Err(Internal)
      case Missing => Err(NotFound)
      case Found(cur) =>
        if revision.status != Approved && revision.status != Published then Err(Conflict)
        else match Authorize(ctx, cur.scope.tenant, cur.scope.application)
          case Err(e) => Err(e)
          case Ok(actor) =>
            var row := cur.(content := revision.content, status := Published, revision := cur.revision + 1,
                            published := cur.revision + 1, updatedBy := actor);
            var bumped := row.(version := expected + 1);
            Ok(Transaction([UpdateEntry(row, expected), InsertSnapshot(bumped),
                            AppendEvent(EventOf(bumped, RolledBack, actor))], bumped))
  }

  /** What an operation decides to run, from what it read. */
  function Plan(req: Request, ctx: Context, target: Read<Snapshot>, current: Read<Entry>)
    : Result<Transaction, AppError>
  {
    match req
    case PutDraft(value, expected) => PlanDraft(value, expected, ctx, current)
    case Submit(_, expected) => PlanSubmit(expected, ctx, current)
    case Approve(_, expected, comment) => PlanReview(expected, Approved, comment, ctx, current)
    case Reject(_, expected, comment) =>
      if TrimSpace(comment) == "" then Err(Invalid) else PlanReview(expected, Rejected, comment, ctx, current)
    case Publish(_, expected) => PlanPublish(expected, ctx, current)
    case Rollback(_, _, expected) => PlanRollback(expected, ctx, target, current)
  }

  // ----- running -----

  function Translate(e: DbError): AppError {
    match e
    case StaleVersion => Stale
    case Broken => Internal
  }

  /** All or nothing: the body runs on a copy that replaces the tables only when every statement and the
      commit succeed. A rollback that fails hides the error of the body behind its own. */
  function Within(db: Db, t: Transaction, faults: set<Site>): (r: Outcome)
    ensures r.reply.Err? ==> r.db == db
    ensures r.reply.Ok? ==> ExecAll(db, t.stmts, faults) == Ok(r.db) && r.reply.value == t.reply
  {
    if AtBegin in faults then Outcome(db, Err(Internal))
    else match ExecAll(db, t.stmts, faults)
      case Err(e) => Outcome(db, Err(if AtRollback in faults then Internal else Translate(e)))
      case Ok(copy) =>
        if AtCommit in faults then Outcome(db, Err(Internal)) else Outcome(copy, Ok(t.reply))
  }

  function Settle(db: Db, plan: Result<Transaction, AppError>, faults: set<Site>): (r: Outcome)
    ensures r.reply.Err? ==> r.db == db
  {
    match plan
    case Err(e) => Outcome(db, Err(e))
    case Ok(t) => Within(db, t, faults)
  }

  function ToRead<T>(x: Option<T>): Read<T> {
    match x
    case None => Missing
    case Some(v) => Found(v)
  }

  /** The revision a rollback reads first; other operations read none. */
  function ReadTarget(db: Db, req: Request): Read<Snapshot> {
    if req.Rollback? then ToRead(GetRevision(db, req.id, req.target)) else Missing
  }

  /** The entry an operation reads: by scope for a draft, by id otherwise. */
  ghost function ReadEntry(db: Db, req: Request): Read<Entry> {
    if req.PutDraft? then ToRead(GetByScope(db, Normalize(req.value).scope)) else ToRead(Get(db, req.id))
  }

  /** One request with everything that is outside the tables' control. */
  datatype Op = Op(req: Request, ctx: Context, faults: set<Site>)

  /** The whole operation with nothing in between: read, decide, run. */
  ghost function Step(db: Db, op: Op): (r: Outcome)
    ensures r.reply.Err? ==> r.db == db
  {
    var target := if AtReadTarget in op.faults then Failed else ReadTarget(db, op.req);
    var current := if AtReadEntry in op.faults then Failed else ReadEntry(db, op.req);
    Settle(db, Plan(op.req, op.ctx, target, current), op.faults)
  }

  /** Every transaction the workflow plans reviews only pending snapshots, and only to decide them. */
  lemma PlansDecide(req: Request, ctx: Context, target: Read<Snapshot>, current: Read<Entry>)
    requires Plan(req, ctx, target, current).Ok?
    ensures AllDecide(Plan(req, ctx, target, current).value.stmts)
  {
  }

  /** Whatever an operation read, and however long ago, its transaction undoes nothing. */
  lemma SettleEvolves(db: Db, req: Request, ctx: Context, target: Read<Snapshot>, current: Read<Entry>,
                      faults: set<Site>)
    requires Constraints(db)
    ensures var r := Settle(db, Plan(req, ctx, target, current), faults);
      Constraints(r.db) && Evolves(db, r.db)
  {
    hide Plan;
    var plan := Plan(req, ctx, target, current);
    if plan.Ok? && Within(db, plan.value, faults).reply.Ok? {
      PlansDecide(req, ctx, target, current);
      ExecAllEvolves(db, plan.value.stmts, faults);
    } else {
      EvolvesReflexive(db);
    }
  }
}
