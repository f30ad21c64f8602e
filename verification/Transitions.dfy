/** The workflow as a transition system: when an operation takes effect, and what the effect is. */
module Transitions {
  import opened Text
  import opened Model
  import opened Tables
  import opened Workflow
  import opened Invariant

  // ----- the effects, in terms of the row before -----

  function CreateEffect(id: string, v: Entry, actor: string): Effect {
    Effect(Entry(id, v.scope, v.content, Draft, 1, v.published, v.review, 1, actor, actor), None, None)
  }

  function DraftEffect(e: Entry, content: Content, actor: string): Effect {
    Effect(Entry(e.id, e.scope, content, Draft, e.revision + 1, e.published, NO_REVIEW, e.version + 1,
                 e.createdBy, actor), None, None)
  }

  function SubmitEffect(e: Entry, actor: string): Effect {
    var row := Entry(e.id, e.scope, e.content, PendingApproval, e.revision, e.published, NO_REVIEW, e.version + 1,
                     e.createdBy, actor);
    Effect(row, Some(Snapshot(e.content, PendingApproval, NO_REVIEW, 1, actor, actor)),
           Some(Event(row, StatusChange(PendingApproval), actor)))
  }

  function ReviewEffect(e: Entry, s: Snapshot, verdict: Status, comment: string, actor: string): Effect {
    var review := Review(comment, actor);
    var row := Entry(e.id, e.scope, e.content, verdict, e.revision, e.published, review, e.version + 1,
                     e.createdBy, actor);
    Effect(row, Some(Snapshot(s.content, verdict, review, s.version + 1, s.createdBy, actor)),
           Some(Event(row, StatusChange(verdict), actor)))
  }

  function PublishEffect(e: Entry, actor: string): Effect {
    var row := Entry(e.id, e.scope, e.content, Published, e.revision, e.revision, e.review, e.version + 1,
                     e.createdBy, actor);
    Effect(row, None, Some(Event(row, StatusChange(Published), actor)))
  }

  function RollbackEffect(e: Entry, content: Content, actor: string): Effect {
    var row := Entry(e.id, e.scope, content, Published, e.revision + 1, e.revision + 1, e.review, e.version + 1,
                     e.createdBy, actor);
    Effect(row, Some(Snapshot(content, Published, e.review, 1, actor, actor)), Some(Event(row, RolledBack, actor)))
  }

  // ----- when an operation takes effect -----

  /** The caller may act on this scope. */
  predicate Allowed(ctx: Context, scope: Scope) {
    Authorize(ctx, scope.tenant, scope.application).Ok?
  }

  function Actor(ctx: Context): string {
    if ctx.caller.Some? then ctx.caller.value.id else ""
  }

  /** The entry exists, is in the wanted status, the caller may act on it and the token is its version. */
  predicate Ready(db: Db, id: string, status: Status, ctx: Context, expected: int) {
    && id in db.entries && db.entries[id].status == status && Allowed(ctx, db.entries[id].scope)
    && db.entries[id].version == expected
  }

  ghost predicate Legal(db: Db, op: Op) {
    var Op(req, ctx, faults) := op;
    match req
    case PutDraft(value, expected) =>
      var v := Normalize(value);
      Acceptable(v) && Allowed(ctx, v.scope) && faults !! {AtReadEntry, AtBegin, AtCommit} &&
      (match GetByScope(db, v.scope)
       case None => ctx.newId !in db.entries && AtInsertEntry !in faults
       case Some(e) => expected == e.version && AtUpdateEntry !in faults)
    case Submit(id, expected) =>
      Ready(db, id, Draft, ctx, expected)
      && faults !! {AtReadEntry, AtBegin, AtUpdateEntry, AtInsertSnapshot, AtAppendEvent, AtCommit}
    case Approve(id, expected, _) =>
      Ready(db, id, PendingApproval, ctx, expected) && Actor(ctx) != db.entries[id].updatedBy
      && faults !! {AtReadEntry, AtBegin, AtReviewSnapshot, AtUpdateEntry, AtAppendEvent, AtCommit}
    case Reject(id, expected, comment) =>
      TrimSpace(comment) != ""
      && Ready(db, id, PendingApproval, ctx, expected) && Actor(ctx) != db.entries[id].updatedBy
      && faults !! {AtReadEntry, AtBegin, AtReviewSnapshot, AtUpdateEntry, AtAppendEvent, AtCommit}
    case Publish(id, expected) =>
      Ready(db, id, Approved, ctx, expected)
      && faults !! {AtReadEntry, AtBegin, AtUpdateEntry, AtAppendEvent, AtCommit}
    case Rollback(id, target, expected) =>
      (id, target) in db.revisions && db.revisions[(id, target)].status in {Approved, Published}
      && id in db.entries && Allowed(ctx, db.entries[id].scope) && db.entries[id].version == expected
      && faults !! {AtReadTarget, AtReadEntry, AtBegin, AtUpdateEntry, AtInsertSnapshot, AtAppendEvent, AtCommit}
  }

  ghost function EffectOf(db: Db, op: Op): Effect
    requires Core(db) && Legal(db, op)
  {
    var actor := Actor(op.ctx);
    match op.req
    case PutDraft(value, _) =>
      var v := Normalize(value);
      (match GetByScope(db, v.scope)
       case None => CreateEffect(op.ctx.newId, v, actor)
       case Some(e) => DraftEffect(e, v.content, actor))
    case Submit(id, _) => SubmitEffect(db.entries[id], actor)
    case Approve(id, _, comment) => PendingSnapshot(db, id);
      ReviewEffect(db.entries[id], db.revisions[(id, db.entries[id].revision)], Approved, TrimSpace(comment), actor)
    case Reject(id, _, comment) => PendingSnapshot(db, id);
      ReviewEffect(db.entries[id], db.revisions[(id, db.entries[id].revision)], Rejected, TrimSpace(comment), actor)
    case Publish(id, _) => PublishEffect(db.entries[id], actor)
    case Rollback(id, target, _) => RollbackEffect(db.entries[id], db.revisions[(id, target)].content, actor)
  }

  lemma PendingSnapshot(db: Db, id: string)
    requires Core(db) && id in db.entries && db.entries[id].status == PendingApproval
    ensures var key := (id, db.entries[id].revision); key in db.revisions && db.revisions[key].status == PendingApproval
  {
    assert EntryCore(db, id);
  }

  // ----- the operations follow the transition system -----

  /** An operation takes effect exactly when it is legal; it then stores the effect and answers with the stored
      row. Otherwise it reports an error and the tables stay as they were. */
  ghost predicate Follows(db: Db, op: Op)
    requires Core(db)
  {
    if Legal(db, op)
    then Step(db, op) == Outcome(Apply(db, EffectOf(db, op)), Ok(EffectOf(db, op).row))
    else Step(db, op).reply.Err? && Step(db, op).db == db
  }

  /** Whatever the row: its event never shows a value next to a secret reference, and differs from the row in nothing
      else. */
  lemma EventNeverShowsBoth(row: Entry, change: ChangeType, actor: string)
    ensures var ev := EventOf(row, change, actor);
      && ev.change == change && ev.actor == actor
      && (ev.entry.content.secretRef != "" ==> ev.entry.content.value == [])
      && ev.entry == row.(content := row.content.(value := ev.entry.content.value))
      && (row.content.secretRef == "" ==> ev.entry.content.value == row.content.value)
  {
  }

  /** A disciplined row's event carries the row unchanged. */
  lemma EventCarriesRow(row: Entry, change: ChangeType, actor: string)
    requires Disciplined(row.scope.key, row.content)
    ensures EventOf(row, change, actor) == Event(row, change, actor)
  {
  }

  /** A draft for a free scope. */
  lemma CreateFollows(db: Db, op: Op)
    requires Core(db) && op.req.PutDraft? && !ScopeTaken(db, Normalize(op.req.value).scope)
    ensures Follows(db, op)
  {
    hide Normalize, Acceptable, Authorize, Core;
    var v := Normalize(op.req.value);
    var row := CreateEffect(op.ctx.newId, v, Actor(op.ctx)).row;
    ExecOne(db, InsertEntry(row), op.faults);
    assert GetByScope(db, v.scope) == None;
  }

  /** A draft for a scope that has an entry. */
  lemma DraftFollows(db: Db, op: Op)
    requires Core(db) && op.req.PutDraft? && ScopeTaken(db, Normalize(op.req.value).scope)
    ensures Follows(db, op)
  {
    hide Normalize, Acceptable, Authorize, ExecAll, Core;
    var v := Normalize(op.req.value);
    var e := GetByScope(db, v.scope).value;
    assert e.id in db.entries && e == db.entries[e.id] && e.version >= 1 by { RowFacts(db, v.scope); }
    var row := e.(content := v.content, status := Draft, revision := e.revision + 1,
                  review := NO_REVIEW, updatedBy := Actor(op.ctx));
    DraftBody(db, row, op.req.expected, op.faults);
  }

  lemma RowFacts(db: Db, scope: Scope)
    requires Core(db) && ScopeTaken(db, scope)
    ensures var e := GetByScope(db, scope).value; e.id in db.entries && e == db.entries[e.id] && e.version >= 1
  {
    var e := GetByScope(db, scope).value;
    assert EntryCore(db, e.id);
  }

  /** What the operations use of the entry they act on. */
  lemma EntryFacts(db: Db, id: string)
    requires Core(db) && id in db.entries
    ensures var e := db.entries[id];
      && e.id == id && Disciplined(e.scope.key, e.content)
      && ((id, e.revision) in db.revisions <==> e.status != Draft)
      && (id, e.revision + 1) !in db.revisions
      && (e.status == PendingApproval ==> db.revisions[(id, e.revision)].status == PendingApproval)
  {
    assert EntryCore(db, id);
  }

  lemma SubmitFollows(db: Db, op: Op)
    requires Core(db) && op.req.Submit?
    ensures Follows(db, op)
  {
    hide Authorize, Disciplined, ExecAll, Core;
    var Submit(id, expected) := op.req;
    if id in db.entries && Allowed(op.ctx, db.entries[id].scope) {
      var e := db.entries[id];
      EntryFacts(db, id);
      var actor := Actor(op.ctx);
      var row := e.(review := NO_REVIEW, status := PendingApproval, updatedBy := actor);
      var bumped := row.(version := expected + 1);
      EventCarriesRow(bumped, StatusChange(PendingApproval), actor);
      var event := EventOf(bumped, StatusChange(PendingApproval), actor);
      SnapshotBody(db, row, bumped, expected, event, op.faults);
      assert PlanStatus(e.(review := NO_REVIEW), expected, PendingApproval, true, op.ctx).value.stmts
          == [UpdateEntry(row, expected), InsertSnapshot(bumped), AppendEvent(event)];
    }
  }

  lemma PublishFollows(db: Db, op: Op)
    requires Core(db) && op.req.Publish?
    ensures Follows(db, op)
  {
    hide Authorize, Disciplined, ExecAll, Core;
    var Publish(id, expected) := op.req;
    if id in db.entries && Allowed(op.ctx, db.entries[id].scope) {
      var e := db.entries[id];
      EntryFacts(db, id);
      var actor := Actor(op.ctx);
      var row := e.(published := e.revision, status := Published, updatedBy := actor);
      var bumped := row.(version := expected + 1);
      EventCarriesRow(bumped, StatusChange(Published), actor);
      var event := EventOf(bumped, StatusChange(Published), actor);
      PublishBody(db, row, expected, event, op.faults);
      assert PlanStatus(e.(published := e.revision), expected, Published, false, op.ctx).value.stmts
          == [UpdateEntry(row, expected), AppendEvent(event)];
    }
  }

  lemma ReviewFollows(db: Db, op: Op)
    requires Core(db) && (op.req.Approve? || op.req.Reject?)
    ensures Follows(db, op)
  {
    hide TrimSpace, Authorize, Disciplined, ExecAll, Core;
    var id, expected := op.req.id, op.req.expected;
    var verdict := if op.req.Approve? then Approved else Rejected;
    if id in db.entries && Allowed(op.ctx, db.entries[id].scope) {
      var e := db.entries[id];
      EntryFacts(db, id);
      var actor := Actor(op.ctx);
      var row := e.(status := verdict, review := Review(TrimSpace(op.req.comment), actor), updatedBy := actor);
      var bumped := row.(version := expected + 1);
      EventCarriesRow(bumped, StatusChange(verdict), actor);
      ReviewBody(db, row, expected, EventOf(bumped, StatusChange(verdict), actor), op.faults);
    }
  }

  lemma RollbackFollows(db: Db, op: Op)
    requires Core(db) && op.req.Rollback?
    ensures Follows(db, op)
  {
    hide Authorize, Disciplined, ExecAll, Core;
    var Rollback(id, target, expected) := op.req;
    if (id, target) in db.revisions && id in db.entries && Allowed(op.ctx, db.entries[id].scope) {
      var e, s := db.entries[id], db.revisions[(id, target)];
      EntryFacts(db, id);
      SnapshotFacts(db, id, target);
      var actor := Actor(op.ctx);
      var row := e.(content := s.content, status := Published, revision := e.revision + 1,
                    published := e.revision + 1, updatedBy := actor);
      var bumped := row.(version := expected + 1);
      EventCarriesRow(bumped, RolledBack, actor);
      SnapshotBody(db, row, bumped, expected, EventOf(bumped, RolledBack, actor), op.faults);
    }
  }

  lemma SnapshotFacts(db: Db, id: string, r: int)
    requires Core(db) && (id, r) in db.revisions
    ensures id in db.entries && Disciplined(db.entries[id].scope.key, db.revisions[(id, r)].content)
  {
    hide Disciplined;
    assert (id, r).0 in db.entries;
    assert EntryCore(db, id);
  }

  /** The atomic semantics of the workflow: planning, guarded statements, unique keys, faults and the
      all-or-nothing transaction together amount to the transition system. */
  lemma StepFollows(db: Db, op: Op)
    requires Core(db)
    ensures Follows(db, op)
  {
    hide Follows;
    match op.req
    case PutDraft(value, _) =>
      if ScopeTaken(db, Normalize(value).scope) { DraftFollows(db, op); } else { CreateFollows(db, op); }
    case Submit(_, _) => SubmitFollows(db, op);
    case Approve(_, _, _) => ReviewFollows(db, op);
    case Reject(_, _, _) => ReviewFollows(db, op);
    case Publish(_, _) => PublishFollows(db, op);
    case Rollback(_, _, _) => RollbackFollows(db, op);
  }
}
