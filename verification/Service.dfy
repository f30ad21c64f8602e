/** The tables as mutable state, the transaction around every write, and the service operations as methods. */
module Service {
  import opened Text
  import opened Model
  import opened Tables
  import opened Workflow
  import opened Admission
  import opened Drafts

  /** The three tables, or a transaction's working copy of them. */
  class Store {
    var entries: map<string, Entry>
    var revisions: map<(string, int), Snapshot>
    var outbox: seq<Event>

    function View(): Db
      reads this
    {
      Db(entries, revisions, outbox)
    }

    constructor ()
      ensures View() == EMPTY_DB
    {
      entries, revisions, outbox := map[], map[], [];
    }

    constructor CopyOf(other: Store)
      ensures View() == other.View()
    {
      entries, revisions, outbox := other.entries, other.revisions, other.outbox;
    }

    // ----- reads -----

    /** Scans for the row of a scope. */
    method FindByScope(scope: Scope) returns (r: Option<Entry>)
      requires Constraints(View())
      ensures r == GetByScope(View(), scope)
    {
      var todo := entries.Keys;
      while todo != {}
        invariant todo <= entries.Keys
        invariant forall id :: id in entries && entries[id].scope == scope ==> id in todo
        decreases todo
      {
        var id :| id in todo;
        if entries[id].scope == scope {
          GetByScopeFinds(View(), id);
          return Some(entries[id]);
        }
        todo := todo - {id};
      }
      r := None;
    }

    // ----- statements -----

    method Insert(row: Entry, faults: set<Site>) returns (err: Option<DbError>)
      modifies this
      ensures Ran(old(View()), InsertEntry(row), faults, View(), err)
    {
      if AtInsertEntry in faults || !UuidShape(row.id) || row.id in entries || ScopeTaken(View(), row.scope) {
        return Some(Broken);
      }
      entries := entries[row.id := row];
      err := None;
    }

    method Update(row: Entry, expected: int, faults: set<Site>) returns (err: Option<DbError>)
      modifies this
      ensures Ran(old(View()), UpdateEntry(row, expected), faults, View(), err)
    {
      if AtUpdateEntry in faults {
        return Some(Broken);
      }
      if row.id !in entries || entries[row.id].version != expected {
        return Some(StaleVersion);
      }
      var stored := entries[row.id];
      stored := stored.(content := row.content, status := row.status, revision := row.revision);
      stored := stored.(published := row.published, review := row.review, updatedBy := row.updatedBy);
      stored := stored.(version := stored.version + 1);
      entries := entries[row.id := stored];
      err := None;
    }

    method TakeSnapshot(row: Entry, faults: set<Site>) returns (err: Option<DbError>)
      modifies this
      ensures Ran(old(View()), InsertSnapshot(row), faults, View(), err)
    {
      if AtInsertSnapshot in faults || (row.id, row.revision) in revisions || row.id !in entries {
        return Some(Broken);
      }
      var s := Snapshot(row.content, row.status, row.review, 1, row.updatedBy, row.updatedBy);
      revisions := revisions[(row.id, row.revision) := s];
      err := None;
    }

    method UpdateRevisionReview(row: Entry, expectedStatus: Status, faults: set<Site>) returns (err: Option<DbError>)
      modifies this
      ensures Ran(old(View()), ReviewSnapshot(row, expectedStatus), faults, View(), err)
    {
      if AtReviewSnapshot in faults {
        return Some(Broken);
      }
      var key := (row.id, row.revision);
      if key !in revisions || revisions[key].status != expectedStatus {
        return Some(StaleVersion);
      }
      var s := revisions[key];
      s := s.(status := row.status, review := row.review, version := s.version + 1, updatedBy := row.updatedBy);
      revisions := revisions[key := s];
      err := None;
    }

    method AddOutbox(event: Event, faults: set<Site>) returns (err: Option<DbError>)
      modifies this
      ensures Ran(old(View()), AppendEvent(event), faults, View(), err)
    {
      if AtAppendEvent in faults {
        return Some(Broken);
      }
      outbox := outbox + [event];
      err := None;
    }

    // ----- transactions -----

    /** A transaction works on its own copy. */
    method Begin(faults: set<Site>) returns (tx: Store?)
      ensures tx == null <==> AtBegin in faults
      ensures tx != null ==> fresh(tx) && tx.View() == View()
    {
      if AtBegin in faults {
        return null;
      }
      tx := new Store.CopyOf(this);
    }

    /** The copy replaces the tables when the body and the commit succeed, and is dropped otherwise. */
    method End(tx: Store, err: Option<DbError>, faults: set<Site>) returns (r: Option<AppError>)
      modifies this
      ensures r.None? <==> err.None? && AtCommit !in faults
      ensures err.Some? ==> r == Some(if AtRollback in faults then Internal else Translate(err.value))
      ensures err.None? && AtCommit in faults ==> r == Some(Internal)
      ensures View() == if r.None? then old(tx.View()) else old(View())
    {
      if err.Some? {
        if AtRollback in faults {
          return Some(Internal);
        }
        return Some(Translate(err.value));
      }
      if AtCommit in faults {
        return Some(Internal);
      }
      entries, revisions, outbox := tx.entries, tx.revisions, tx.outbox;
      r := None;
    }
  }

  /** The statement did what its specification says, or failed without touching the tables. */
  ghost predicate Ran(before: Db, stmt: Stmt, faults: set<Site>, after: Db, err: Option<DbError>) {
    match TryExec(before, stmt, faults)
    case Ok(db) => err.None? && after == db
    case Err(e) => err == Some(e) && after == before
  }

  /** The state and answer after an operation. */
  ghost predicate Did(outcome: Outcome, after: Db, r: Result<Entry, AppError>) {
    after == outcome.db && r == outcome.reply
  }

  class ConfigService {
    const store: Store

    constructor (store: Store)
      ensures this.store == store
    {
      this.store := store;
    }

    /** Creates the entry of a free scope, or replaces the draft of an existing one. */
    method PutDraft(input: Entry, expected: int, ctx: Context, faults: set<Site>) returns (r: Result<Entry, AppError>)
      requires Constraints(store.View())
      modifies store
      ensures Did(Step(old(store.View()), Op(Request.PutDraft(input, expected), ctx, faults)), store.View(), r)
      ensures r.Ok? ==> Permitted(ctx, r.value.scope.tenant, r.value.scope.application)
      ensures r.Ok? ==> StoredAs(input.scope, r.value.scope) && ContentStoredAs(input.content, r.value.content)
      ensures !WellFormed(input) ==> r == Err(Invalid)
    {
      hide Normalize, Acceptable, Authorize, Constraints, Permitted, Refusal, StoredAs, ContentStoredAs, WellFormed,
        Tidy;
      var value := Normalize(input);
      AcceptableExactly(input);
      NormalizeExactly(input, value.scope, value.content);
      AuthorizeExactly(ctx, value.scope.tenant, value.scope.application);
      if !Acceptable(value) {
        return Err(Invalid);
      }
      var auth := Authorize(ctx, value.scope.tenant, value.scope.application);
      if auth.Err? {
        return Err(auth.error);
      }
      if AtReadEntry in faults {
        return Err(Internal);
      }
      var found := store.FindByScope(value.scope);
      if found.None? {
        value := value.(id := ctx.newId, status := Draft, revision := 1, version := 1);
        value := value.(createdBy := auth.value, updatedBy := auth.value);
        ExecOne(store.View(), InsertEntry(value), faults);
        var tx := store.Begin(faults);
        if tx == null {
          return Err(Internal);
        }
        var err := tx.Insert(value, faults);
        var failed := store.End(tx, err, faults);
        r := if failed.None? then Ok(value) else Err(failed.value);
      } else {
        if expected < 1 {
          return Err(Invalid);
        }
        var current := found.value;
        current := current.(content := value.content, status := Draft, revision := current.revision + 1);
        current := current.(updatedBy := auth.value, review := NO_REVIEW);
        ExecOne(store.View(), UpdateEntry(current, expected), faults);
        var tx := store.Begin(faults);
        if tx == null {
          return Err(Internal);
        }
        var err := tx.Update(current, expected, faults);
        var failed := store.End(tx, err, faults);
        current := current.(version := expected + 1);
        r := if failed.None? then Ok(current) else Err(failed.value);
      }
    }

    /** Shared by submit and publish. */
    method ChangeStatus(read: Entry, expected: int, status: Status, snapshot: bool, ctx: Context, faults: set<Site>)
      returns (r: Result<Entry, AppError>)
      modifies store
      ensures Did(Settle(old(store.View()), PlanStatus(read, expected, status, snapshot, ctx), faults), store.View(), r)
      ensures r.Ok? ==> Permitted(ctx, r.value.scope.tenant, r.value.scope.application)
    {
      hide Authorize, Exec, Permitted, Refusal;
      AuthorizeExactly(ctx, read.scope.tenant, read.scope.application);
      var auth := Authorize(ctx, read.scope.tenant, read.scope.application);
      if auth.Err? {
        return Err(auth.error);
      }
      var current := read;
      current := current.(status := status);
      current := current.(updatedBy := auth.value);
      ghost var update := UpdateEntry(current, expected);
      var tx := store.Begin(faults);
      if tx == null {
        return Err(Internal);
      }
      var err := tx.Update(current, expected, faults);
      current := current.(version := expected + 1);
      if err.None? && snapshot {
        err := tx.TakeSnapshot(current, faults);
      }
      var event := EventOf(current, StatusChange(status), auth.value);
      if err.None? {
        err := tx.AddOutbox(event, faults);
      }
      ghost var stmts := PlanStatus(read, expected, status, snapshot, ctx).value.stmts;
      if snapshot {
        ExecThree(store.View(), update, InsertSnapshot(current), AppendEvent(event), faults);
        assert stmts == [update, InsertSnapshot(current), AppendEvent(event)];
      } else {
        ExecTwo(store.View(), update, AppendEvent(event), faults);
        assert stmts == [update, AppendEvent(event)];
      }
      var failed := store.End(tx, err, faults);
      r := if failed.None? then Ok(current) else Err(failed.value);
    }

    method SubmitForApproval(id: string, expected: int, ctx: Context, faults: set<Site>)
      returns (r: Result<Entry, AppError>)
      modifies store
      ensures Did(Step(old(store.View()), Op(Submit(id, expected), ctx, faults)), store.View(), r)
      ensures r.Ok? ==> Permitted(ctx, r.value.scope.tenant, r.value.scope.application)
    {
      hide PlanStatus, Permitted;
      if AtReadEntry in faults {
        return Err(Internal);
      }
      if id !in store.entries {
        return Err(NotFound);
      }
      var current := store.entries[id];
      if current.status != Draft && current.status != Rejected {
        return Err(Conflict);
      }
      current := current.(review := NO_REVIEW);
      r := ChangeStatus(current, expected, PendingApproval, true, ctx, faults);
    }

    method Publish(id: string, expected: int, ctx: Context, faults: set<Site>) returns (r: Result<Entry, AppError>)
      modifies store
      ensures Did(Step(old(store.View()), Op(Request.Publish(id, expected), ctx, faults)), store.View(), r)
      ensures r.Ok? ==> Permitted(ctx, r.value.scope.tenant, r.value.scope.application)
    {
      hide PlanStatus, Permitted;
      if AtReadEntry in faults {
        return Err(Internal);
      }
      if id !in store.entries {
        return Err(NotFound);
      }
      var current := store.entries[id];
      if current.status != Approved {
        return Err(Conflict);
      }
      current := current.(published := current.revision);
      r := ChangeStatus(current, expected, Published, false, ctx, faults);
    }

    /** Shared by approve and reject. */
    method DecideReview(id: string, expected: int, status: Status, comment: string, ctx: Context, faults: set<Site>)
      returns (r: Result<Entry, AppError>)
      modifies store
      ensures var current := if AtReadEntry in faults then Failed else ToRead(Get(old(store.View()), id));
        Did(Settle(old(store.View()), PlanReview(expected, status, comment, ctx, current), faults), store.View(), r)
      ensures r.Ok? ==> Permitted(ctx, r.value.scope.tenant, r.value.scope.application)
      ensures r.Ok? ==> Strips(comment, r.value.review.comment)
    {
      hide Authorize, TrimSpace, Exec, Permitted, Refusal, Strips;
      if AtReadEntry in faults {
        return Err(Internal);
      }
      if id !in store.entries {
        return Err(NotFound);
      }
      var current := store.entries[id];
      if current.status != PendingApproval {
        return Err(Conflict);
      }
      AuthorizeExactly(ctx, current.scope.tenant, current.scope.application);
      TrimSpaceStrips(comment);
      var auth := Authorize(ctx, current.scope.tenant, current.scope.application);
      if auth.Err? {
        return Err(auth.error);
      }
      if auth.value == current.updatedBy {
        return Err(Conflict);
      }
      current := current.(status := status, review := Review(TrimSpace(comment), auth.value));
      current := current.(updatedBy := auth.value);
      ghost var review, update := ReviewSnapshot(current, PendingApproval), UpdateEntry(current, expected);
      var tx := store.Begin(faults);
      if tx == null {
        return Err(Internal);
      }
      var err := tx.UpdateRevisionReview(current, PendingApproval, faults);
      if err.None? {
        err := tx.Update(current, expected, faults);
      }
      current := current.(version := expected + 1);
      var event := EventOf(current, StatusChange(status), auth.value);
      if err.None? {
        err := tx.AddOutbox(event, faults);
      }
      ExecThree(store.View(), review, update, AppendEvent(event), faults);
      var failed := store.End(tx, err, faults);
      r := if failed.None? then Ok(current) else Err(failed.value);
    }

    method Approve(id: string, expected: int, comment: string, ctx: Context, faults: set<Site>)
      returns (r: Result<Entry, AppError>)
      modifies store
      ensures Did(Step(old(store.View()), Op(Request.Approve(id, expected, comment), ctx, faults)), store.View(), r)
      ensures r.Ok? ==> Permitted(ctx, r.value.scope.tenant, r.value.scope.application)
      ensures r.Ok? ==> Strips(comment, r.value.review.comment)
    {
      hide PlanReview, Permitted, Strips;
      r := DecideReview(id, expected, Approved, comment, ctx, faults);
    }

    method Reject(id: string, expected: int, reason: string, ctx: Context, faults: set<Site>)
      returns (r: Result<Entry, AppError>)
      modifies store
      ensures Did(Step(old(store.View()), Op(Request.Reject(id, expected, reason), ctx, faults)), store.View(), r)
      ensures r.Ok? ==> Permitted(ctx, r.value.scope.tenant, r.value.scope.application)
      ensures r.Ok? ==> Strips(reason, r.value.review.comment)
      ensures Blank(reason) ==> r == Err(Invalid)
    {
      hide PlanReview, TrimSpace, Permitted, Strips, Blank;
      TrimSpaceExactly(reason, "");
      if TrimSpace(reason) == "" {
        return Err(Invalid);
      }
      r := DecideReview(id, expected, Rejected, reason, ctx, faults);
    }

    /** Brings a revision's content back as a new, published revision. */
    method Restore(read: Entry, revision: Snapshot, expected: int, ctx: Context, faults: set<Site>)
      returns (r: Result<Entry, AppError>)
      requires revision.status == Approved || revision.status == Published
      modifies store
      ensures var plan := PlanRollback(expected, ctx, Found(revision), Found(read));
        Did(Settle(old(store.View()), plan, faults), store.View(), r)
      ensures r.Ok? ==> Permitted(ctx, r.value.scope.tenant, r.value.scope.application)
    {
      hide Authorize, Exec, Permitted, Refusal;
      AuthorizeExactly(ctx, read.scope.tenant, read.scope.application);
      var current := read;
      current := current.(content := revision.content, status := Published, revision := current.revision + 1);
      current := current.(published := current.revision);
      var auth := Authorize(ctx, current.scope.tenant, current.scope.application);
      if auth.Err? {
        return Err(auth.error);
      }
      current := current.(updatedBy := auth.value);
      ghost var update := UpdateEntry(current, expected);
      var tx := store.Begin(faults);
      if tx == null {
        return Err(Internal);
      }
      var err := tx.Update(current, expected, faults);
      current := current.(version := expected + 1);
      if err.None? {
        err := tx.TakeSnapshot(current, faults);
      }
      var event := EventOf(current, RolledBack, auth.value);
      if err.None? {
        err := tx.AddOutbox(event, faults);
      }
      ExecThree(store.View(), update, InsertSnapshot(current), AppendEvent(event), faults);
      var failed := store.End(tx, err, faults);
      r := if failed.None? then Ok(current) else Err(failed.value);
    }

    method Rollback(id: string, target: int, expected: int, ctx: Context, faults: set<Site>)
      returns (r: Result<Entry, AppError>)
      modifies store
      ensures Did(Step(old(store.View()), Op(Request.Rollback(id, target, expected), ctx, faults)), store.View(), r)
      ensures r.Ok? ==> Permitted(ctx, r.value.scope.tenant, r.value.scope.application)
    {
      hide Authorize, Within, Permitted;
      if AtReadTarget in faults {
        return Err(Internal);
      }
      if (id, target) !in store.revisions || id !in store.entries {
        return Err(NotFound);
      }
      var revision := store.revisions[(id, target)];
      if AtReadEntry in faults {
        return Err(Internal);
      }
      var current := store.entries[id];
      if revision.status != Approved && revision.status != Published {
        return Err(Conflict);
      }
      r := Restore(current, revision, expected, ctx, faults);
    }
  }
}
