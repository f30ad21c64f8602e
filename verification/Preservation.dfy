/** Every operation keeps the invariant and never takes a publication back. */
module Preservation {
  import opened Text
  import opened Model
  import opened Tables
  import opened Workflow
  import opened Invariant
  import opened Transitions

  /** A create does not claim a published revision. What a draft for an existing entry carries in that field is
      ignored by the code and not restricted here. Requests that come through the HTTP adapter always satisfy this;
      the gRPC adapter copies the field. */
  predicate Clean(db: Db, req: Request) {
    req.PutDraft? && !ScopeTaken(db, Normalize(req.value).scope) ==> req.value.published <= 0
  }

  /** Revisions and published revisions never go back. */
  ghost predicate Advances(a: Db, b: Db) {
    forall id :: id in a.entries ==>
      && id in b.entries
      && a.entries[id].revision <= b.entries[id].revision
      && a.entries[id].published <= b.entries[id].published
  }

  lemma AcceptableIsDisciplined(v: Entry)
    requires Acceptable(v)
    ensures Disciplined(v.scope.key, v.content) && ScopeOk(v.scope)
  {
  }

  // ----- the core, whatever a create claims -----

  /** A history whose snapshots at other revisions stay keeps its approved sources. */
  lemma HistoryKeeps(db: Db, eff: Effect)
    requires eff.row.id in db.entries && EntryCore(db, eff.row.id)
    requires eff.row.scope == db.entries[eff.row.id].scope
    requires eff.snapshot.Some? ==>
      && SnapshotOk(eff.row.scope.key, eff.snapshot.value)
      && ((eff.row.id, eff.row.revision) in db.revisions
          ==> db.revisions[(eff.row.id, eff.row.revision)].status == PendingApproval)
      && (eff.snapshot.value.status == Published
          ==> ApprovedBefore(db, eff.row.id, eff.row.revision, eff.snapshot.value.content))
    ensures HistoryOk(Apply(db, eff), eff.row.id)
  {
    hide Disciplined;
    var db', id := Apply(db, eff), eff.row.id;
    forall r: int | (id, r) in db'.revisions && db'.revisions[(id, r)].status == Published
      ensures ApprovedBefore(db', id, r, db'.revisions[(id, r)].content)
    {
      var c := db'.revisions[(id, r)].content;
      assert ApprovedBefore(db, id, r, c);
      var r0 :| 1 <= r0 < r && ApprovedWith(db, id, r0, c);
      assert ApprovedWith(db', id, r0, c);
    }
  }

  lemma CreateKeeps(db: Db, id: Uuid, v: Entry, actor: string)
    requires Core(db) && id !in db.entries && !ScopeTaken(db, v.scope) && Acceptable(v)
    ensures Core(Apply(db, CreateEffect(id, v, actor)))
  {
    hide Disciplined;
    AcceptableIsDisciplined(v);
    assert forall k :: k in db.revisions ==> k.0 != id;
    CoreKeeps(db, CreateEffect(id, v, actor));
  }

  lemma DraftKeeps(db: Db, id: string, content: Content, actor: string)
    requires Core(db) && id in db.entries && Disciplined(db.entries[id].scope.key, content)
    ensures Core(Apply(db, DraftEffect(db.entries[id], content, actor)))
  {
    hide Disciplined;
    assert EntryCore(db, id);
    var eff := DraftEffect(db.entries[id], content, actor);
    HistoryKeeps(db, eff);
    CoreKeeps(db, eff);
  }

  lemma SubmitKeeps(db: Db, id: string, actor: string)
    requires Core(db) && id in db.entries && db.entries[id].status == Draft
    ensures Core(Apply(db, SubmitEffect(db.entries[id], actor)))
  {
    hide Disciplined, LogOk;
    assert EntryCore(db, id);
    var eff := SubmitEffect(db.entries[id], actor);
    HistoryKeeps(db, eff);
    CoreKeeps(db, eff);
  }

  lemma ReviewKeeps(db: Db, id: string, verdict: Status, comment: string, actor: string)
    requires Core(db) && id in db.entries && db.entries[id].status == PendingApproval
    requires (id, db.entries[id].revision) in db.revisions
    requires verdict in {Approved, Rejected} && actor != db.entries[id].updatedBy
    ensures var e := db.entries[id];
      Core(Apply(db, ReviewEffect(e, db.revisions[(id, e.revision)], verdict, comment, actor)))
  {
    hide Disciplined, LogOk;
    assert EntryCore(db, id);
    var e := db.entries[id];
    var eff := ReviewEffect(e, db.revisions[(id, e.revision)], verdict, comment, actor);
    HistoryKeeps(db, eff);
    CoreKeeps(db, eff);
  }

  lemma PublishKeeps(db: Db, id: string, actor: string)
    requires Core(db) && id in db.entries && db.entries[id].status == Approved
    ensures Core(Apply(db, PublishEffect(db.entries[id], actor)))
  {
    hide Disciplined, LogOk;
    assert EntryCore(db, id);
    var eff := PublishEffect(db.entries[id], actor);
    HistoryKeeps(db, eff);
    CoreKeeps(db, eff);
  }

  /** An approved target, or one a rollback made, leads back to an approved revision. */
  lemma TargetWasApproved(db: Db, id: string, target: int, r: int)
    requires id in db.entries && EntryCore(db, id) && (id, target) in db.revisions && target < r
    requires db.revisions[(id, target)].status in {Approved, Published}
    ensures ApprovedBefore(db, id, r, db.revisions[(id, target)].content)
  {
    hide Disciplined;
    var c := db.revisions[(id, target)].content;
    if db.revisions[(id, target)].status == Approved {
      assert ApprovedWith(db, id, target, c);
    } else {
      var r0 :| 1 <= r0 < target && ApprovedWith(db, id, r0, c);
      assert 1 <= r0 < r;
    }
  }

  lemma RollbackKeeps(db: Db, id: string, target: int, actor: string)
    requires Core(db) && id in db.entries && (id, target) in db.revisions
    requires db.revisions[(id, target)].status in {Approved, Published}
    ensures Core(Apply(db, RollbackEffect(db.entries[id], db.revisions[(id, target)].content, actor)))
  {
    hide Disciplined, LogOk;
    assert EntryCore(db, id);
    var e := db.entries[id];
    var eff := RollbackEffect(e, db.revisions[(id, target)].content, actor);
    TargetWasApproved(db, id, target, e.revision + 1);
    HistoryKeeps(db, eff);
    CoreKeeps(db, eff);
  }

  lemma EffectKeepsCore(db: Db, op: Op)
    requires Core(db) && Legal(db, op)
    ensures Core(Apply(db, EffectOf(db, op)))
  {
    hide Core, EntryCore, Disciplined, Apply, TrimSpace, Authorize, Acceptable, Normalize;
    var actor := Actor(op.ctx);
    match op.req
    case PutDraft(value, _) =>
      var v := Normalize(value);
      AcceptableIsDisciplined(v);
      match GetByScope(db, v.scope) {
        case None => CreateKeeps(db, op.ctx.newId, v, actor);
        case Some(e) =>
          RowFacts(db, v.scope);
          DraftKeeps(db, e.id, v.content, actor);
      }
    case Submit(id, _) => SubmitKeeps(db, id, actor);
    case Approve(id, _, comment) =>
      PendingSnapshot(db, id);
      ReviewKeeps(db, id, Approved, TrimSpace(comment), actor);
    case Reject(id, _, comment) =>
      PendingSnapshot(db, id);
      ReviewKeeps(db, id, Rejected, TrimSpace(comment), actor);
    case Publish(id, _) => PublishKeeps(db, id, actor);
    case Rollback(id, target, _) => RollbackKeeps(db, id, target, actor);
  }

  lemma StepEvolves(db: Db, op: Op)
    requires Core(db)
    ensures Evolves(db, Step(db, op).db)
  {
    hide EntryCore, LogOk, Plan, Constraints, Settle;
    var target := if AtReadTarget in op.faults then Failed else ReadTarget(db, op.req);
    var current := if AtReadEntry in op.faults then Failed else ReadEntry(db, op.req);
    SettleEvolves(db, op.req, op.ctx, target, current, op.faults);
  }

  /** One operation, whatever it claims: the core of the invariant holds again and nothing is undone. */
  lemma StepKeepsCore(db: Db, op: Op)
    requires Core(db)
    ensures var r := Step(db, op); Core(r.db) && Evolves(db, r.db)
  {
    hide Core, Evolves, Legal, EffectOf, Apply, Step;
    StepFollows(db, op);
    StepEvolves(db, op);
    if Legal(db, op) {
      EffectKeepsCore(db, op);
    }
  }

  // ----- the publication, when creates claim none -----

  lemma NoPublishedEvent(db: Db, id: string)
    requires LogOk(db) && id !in db.entries
    ensures LastPublished(db.outbox, id) == None
  {
    NoEventNoPublication(db.outbox, id);
  }

  lemma {:induction false} NoEventNoPublication(outbox: seq<Event>, id: string)
    requires forall i :: 0 <= i < |outbox| ==> outbox[i].entry.id != id
    ensures LastPublished(outbox, id) == None
    decreases |outbox|
  {
    if outbox != [] {
      NoEventNoPublication(outbox[..|outbox| - 1], id);
    }
  }

  /** An effect that keeps the published revision, below the newest one. */
  ghost predicate LeavesPublication(db: Db, eff: Effect) {
    var id := eff.row.id;
    && id in db.entries
    && eff.row.published == db.entries[id].published < eff.row.revision
    && eff.row.status != Published
    && (eff.event.Some? ==> eff.event.value.entry == eff.row)
  }

  lemma LeftPublicationKeeps(db: Db, eff: Effect)
    requires LeavesPublication(db, eff) && EntryPublication(db, eff.row.id)
    ensures EntryPublication(Apply(db, eff), eff.row.id)
  {
    if eff.event.Some? {
      LastPublishedOfAppend(db.outbox, eff.event.value, eff.row.id);
    }
  }

  /** An effect that makes its own revision the published one, with an approved or rollback-made snapshot there. */
  ghost predicate MovesPublication(db: Db, eff: Effect) {
    var db' := Apply(db, eff);
    var key := (eff.row.id, eff.row.revision);
    && eff.row.published == eff.row.revision > 0 && eff.row.status == Published
    && eff.event.Some? && eff.event.value.entry == eff.row
    && key in db'.revisions && db'.revisions[key].status in {Approved, Published}
    && db'.revisions[key].content == eff.row.content
  }

  lemma MovedPublicationHolds(db: Db, eff: Effect)
    requires MovesPublication(db, eff)
    ensures EntryPublication(Apply(db, eff), eff.row.id)
  {
    LastPublishedOfAppend(db.outbox, eff.event.value, eff.row.id);
  }

  lemma CreatePublication(db: Db, id: Uuid, v: Entry, actor: string)
    requires LogOk(db) && id !in db.entries && v.published <= 0
    ensures EntryPublication(Apply(db, CreateEffect(id, v, actor)), id)
  {
    hide LogOk, LastPublished;
    NoPublishedEvent(db, id);
  }

  lemma CoreLog(db: Db)
    requires Core(db)
    ensures LogOk(db)
  {
    hide EntryCore, LogOk, Constraints;
  }

  lemma EffectKeepsPublication(db: Db, op: Op)
    requires Inv(db) && Legal(db, op) && Clean(db, op.req)
    ensures EntryPublication(Apply(db, EffectOf(db, op)), EffectOf(db, op).row.id)
  {
    hide Core, EntryPublication, Disciplined, TrimSpace, Authorize, Acceptable, Normalize, MovesPublication;
    var eff := EffectOf(db, op);
    if op.req.PutDraft? {
      var v := Normalize(op.req.value);
      if ScopeTaken(db, v.scope) {
        RowFacts(db, v.scope);
        InvEntry(db, eff.row.id);
        LeftPublicationKeeps(db, eff);
      } else {
        NormalizeKeepsPublished(op.req.value);
        CoreLog(db);
        CreatePublication(db, op.ctx.newId, v, Actor(op.ctx));
      }
    } else {
      EntryFacts(db, op.req.id);
      InvEntry(db, op.req.id);
      if op.req.Publish? || op.req.Rollback? {
        PublicationMoves(db, op);
        MovedPublicationHolds(db, eff);
      } else {
        LeftPublicationKeeps(db, eff);
      }
    }
  }

  lemma PublicationMoves(db: Db, op: Op)
    requires Core(db) && Legal(db, op) && (op.req.Publish? || op.req.Rollback?)
    ensures MovesPublication(db, EffectOf(db, op))
  {
    hide Disciplined, Authorize, LogOk, HistoryOk, Constraints;
    EntryFacts(db, op.req.id);
    assert EntryCore(db, op.req.id);
  }

  lemma NormalizeKeepsPublished(v: Entry)
    ensures Normalize(v).published == v.published
  {
  }

  lemma EffectFits(db: Db, op: Op)
    requires Core(db) && Legal(db, op)
    ensures Fits(db, EffectOf(db, op))
  {
    hide Core, EntryCore, Disciplined, TrimSpace, Authorize, Acceptable, Normalize;
    if op.req.PutDraft? {
      var scope := Normalize(op.req.value).scope;
      if ScopeTaken(db, scope) { RowFacts(db, scope); }
    } else {
      EntryFacts(db, op.req.id);
    }
  }

  lemma EffectAdvances(db: Db, op: Op)
    requires Inv(db) && Legal(db, op)
    ensures Advances(db, Apply(db, EffectOf(db, op)))
  {
    hide Core, EntryPublication, Disciplined, TrimSpace, Authorize, Acceptable, Normalize;
    if op.req.PutDraft? {
      var scope := Normalize(op.req.value).scope;
      if ScopeTaken(db, scope) { RowFacts(db, scope); }
    } else {
      EntryFacts(db, op.req.id);
      InvEntry(db, op.req.id);
    }
  }

  /** One operation: the invariant holds again, nothing is undone, no publication goes back. */
  lemma StepKeeps(db: Db, op: Op)
    requires Inv(db) && Clean(db, op.req)
    ensures var r := Step(db, op); Inv(r.db) && Advances(db, r.db) && Evolves(db, r.db)
  {
    hide Core, EntryPublication, Evolves, Legal, EffectOf, Apply, Step, Clean, Fits;
    StepFollows(db, op);
    StepKeepsCore(db, op);
    if Legal(db, op) {
      EffectFits(db, op);
      EffectKeepsPublication(db, op);
      EffectAdvances(db, op);
      InvKeeps(db, EffectOf(db, op));
    }
  }
}
