/** Where a natural expectation does not hold of the code: witnesses, and exactly when it does hold. */
module Findings {
  import opened Text
  import opened Model
  import opened Tables
  import opened Workflow
  import opened Invariant
  import opened Transitions
  import opened Preservation
  import opened Runs
  import opened Interleaving
  import opened Served
  import opened Etag
  import opened Publications
  import opened Everywhere
  import opened Schedules
  import opened Guarantees

  // ----- submitting a rejected configuration -----

  /** The guard admits rejected entries, but the snapshot of the rejected revision is in the way for good: in every
      run, a client that read a rejected entry never commits its submission, whatever the token, the caller and the
      luck, and the tables stay as they are. */
  lemma SubmitFromRejectedNeverCommits(actions: seq<Action>, client: nat, faults: set<Site>)
    requires var s := SessionOf(Execute(INITIAL, actions), client);
      s.Loaded? && s.req.Submit? && s.current.Found? && s.current.value.status == Rejected
    ensures var sys := Execute(INITIAL, actions); var r := Settled(sys.world.db, SessionOf(sys, client), faults);
      r.reply.Err? && r.db == sys.world.db
  {
    hide Execute, Grounded, Rooted, Settled;
    AlwaysGrounded(actions);
    var sys := Execute(INITIAL, actions);
    RejectedIsNeverSubmitted(sys.world.db, SessionOf(sys, client), faults);
  }

  // ----- drafts one after another, without the invariant -----

  lemma CreateStep(db: Db, op: Op)
    requires op.req.PutDraft? && op.faults == {} && op.ctx.newId !in db.entries
    requires var v := Normalize(op.req.value); Acceptable(v) && Allowed(op.ctx, v.scope) && !ScopeTaken(db, v.scope)
    ensures var eff := CreateEffect(op.ctx.newId, Normalize(op.req.value), Actor(op.ctx));
      Step(db, op) == Outcome(Apply(db, eff), Ok(eff.row))
  {
    hide Normalize, Acceptable, Authorize;
    var v := Normalize(op.req.value);
    ExecOne(db, InsertEntry(CreateEffect(op.ctx.newId, v, Actor(op.ctx)).row), {});
    assert GetByScope(db, v.scope) == None;
  }

  lemma DraftStep(db: Db, op: Op, e: Entry)
    requires Constraints(db) && op.req.PutDraft? && op.faults == {} && e.id in db.entries && db.entries[e.id] == e
    requires var v := Normalize(op.req.value); Acceptable(v) && Allowed(op.ctx, v.scope) && e.scope == v.scope
    requires op.req.expected == e.version >= 1
    ensures var eff := DraftEffect(e, Normalize(op.req.value).content, Actor(op.ctx));
      Step(db, op) == Outcome(Apply(db, eff), Ok(eff.row))
  {
    hide Normalize, Acceptable, Authorize, ExecAll;
    GetByScopeFinds(db, e.id);
    var row := e.(content := Normalize(op.req.value).content, status := Draft, revision := e.revision + 1,
                  review := NO_REVIEW, updatedBy := Actor(op.ctx));
    DraftBody(db, row, op.req.expected, {});
  }

  function PutOp(value: Entry, expected: int, ctx: Context): Op {
    Op(PutDraft(value, expected), ctx, {})
  }

  /** n repetitions of the draft after the create, each with the right token. */
  function Redrafts(value: Entry, ctx: Context, n: nat): seq<Op> {
    if n == 0 then [] else Redrafts(value, ctx, n - 1) + [PutOp(value, n, ctx)]
  }

  /** The row after the create and n more drafts. */
  function Redrafted(value: Entry, ctx: Context, n: nat): Entry {
    var v := Normalize(value);
    Entry(ctx.newId, v.scope, v.content, Draft, n + 1, v.published, if n == 0 then v.review else NO_REVIEW, n + 1,
          Actor(ctx), Actor(ctx))
  }

  /** The request can create an entry here. */
  ghost predicate Creatable(db: Db, value: Entry, ctx: Context) {
    var v := Normalize(value);
    Constraints(db) && Acceptable(v) && Allowed(ctx, v.scope) && !ScopeTaken(db, v.scope) && ctx.newId !in db.entries
  }

  function With(db: Db, row: Entry): Db {
    db.(entries := db.entries[row.id := row])
  }

  lemma WithKeepsConstraints(db: Db, row: Entry)
    requires Constraints(db) && !ScopeTaken(db, row.scope) && UuidShape(row.id) && row.id !in db.entries
    ensures Constraints(With(db, row))
  {
  }

  lemma {:induction false} RedraftsRun(w: World, value: Entry, token: int, ctx: Context, n: nat)
    requires Creatable(w.db, value, ctx)
    ensures var first := Perform(w, PutOp(value, token, ctx)); var v := Run(first, Redrafts(value, ctx, n));
      && v.db == With(w.db, Redrafted(value, ctx, n))
      && |v.log| == |w.log| + n + 1
      && v.log[|w.log|].op == PutOp(value, token, ctx)
      && (n > 0 ==> v.log[|w.log| + n].op == PutOp(value, n, ctx))
      && AllClean(first, Redrafts(value, ctx, n))
  {
    hide Normalize, Acceptable, Authorize, Step, ReadEntry, Constraints;
    var first := Perform(w, PutOp(value, token, ctx));
    if n == 0 {
      CreateStep(w.db, PutOp(value, token, ctx));
    } else {
      RedraftsRun(w, value, token, ctx, n - 1);
      var earlier := Redrafts(value, ctx, n - 1);
      var before := Run(first, earlier);
      var op := PutOp(value, n, ctx);
      var row := Redrafted(value, ctx, n - 1);
      RunLast(first, earlier, op);
      WithKeepsConstraints(w.db, row);
      DraftStep(before.db, op, row);
      assert before.db.entries[row.id].scope == Normalize(value).scope;
      CleanLast(first, earlier, op);
    }
  }

  lemma CleanLast(w: World, ops: seq<Op>, op: Op)
    requires AllClean(w, ops) && Clean(Run(w, ops).db, op.req)
    ensures AllClean(w, ops + [op])
  {
    hide Perform, Clean;
    RunAppend(w, ops, [op]);
    assert [op][1..] == [];
    var v := Run(w, ops);
    assert AllClean(Perform(v, op), []);
  }

  // ----- a repeated draft may apply twice -----

  lemma {:induction false} RedraftsFaultless(value: Entry, ctx: Context, n: nat)
    ensures Faultless(Redrafts(value, ctx, n))
  {
    if n > 0 { RedraftsFaultless(value, ctx, n - 1); }
  }

  /** A blindly repeated draft request with any token of at least 1 can commit twice: a create ignores the token, and
      once the row has reached that version the repetition is taken for an update. (Any other repeated request commits
      at most once, see `RepeatedRequest`.) */
  lemma RepeatedDraftCanCommitTwice(sys: System, value: Entry, token: int, ctx: Context) returns (later: seq<Action>)
    requires Creatable(sys.world.db, value, ctx) && token >= 1
    ensures var log := Execute(sys, later).world.log; var n := |sys.world.log|;
      |log| == n + token + 1 && log[n].op == log[n + token].op == PutOp(value, token, ctx)
  {
    hide Normalize, Acceptable, Authorize, Perform, Constraints, Execute, Schedule;
    RedraftsRun(sys.world, value, token, ctx, token);
    var op := PutOp(value, token, ctx);
    var ops := [op] + Redrafts(value, ctx, token);
    assert ops[0] == op && ops[1..] == Redrafts(value, ctx, token);
    RedraftsFaultless(value, ctx, token);
    SequentialIsInterleaved(sys, ops);
    later := Schedule(ops);
  }

  // ----- claiming a published revision at creation -----

  /** Nothing is served that was not approved, directly or as the target of a rollback. */
  ghost predicate ServesApproved(db: Db) {
    forall id :: Serves(db, id) ==> db.revisions[(id, db.entries[id].published)].status in {Approved, Published}
  }

  lemma SubmitStep(db: Db, op: Op, e: Entry)
    requires op.req.Submit? && op.faults == {} && op.req.id == e.id && e.id in db.entries && db.entries[e.id] == e
    requires e.status == Draft && Allowed(op.ctx, e.scope) && op.req.expected == e.version
    requires (e.id, e.revision) !in db.revisions && Disciplined(e.scope.key, e.content)
    ensures Step(db, op) == Outcome(Apply(db, SubmitEffect(e, Actor(op.ctx))), Ok(SubmitEffect(e, Actor(op.ctx)).row))
  {
    hide Authorize, Disciplined, ExecAll;
    var actor := Actor(op.ctx);
    var row := e.(review := NO_REVIEW, status := PendingApproval, updatedBy := actor);
    var bumped := row.(version := e.version + 1);
    EventCarriesRow(bumped, StatusChange(PendingApproval), actor);
    var event := EventOf(bumped, StatusChange(PendingApproval), actor);
    SnapshotBody(db, row, bumped, e.version, event, {});
    assert PlanStatus(e.(review := NO_REVIEW), e.version, PendingApproval, true, op.ctx).value.stmts
        == [UpdateEntry(row, e.version), InsertSnapshot(bumped), AppendEvent(event)];
  }

  lemma ClaimedRun(w: World, value: Entry, token: int, ctx: Context) returns (ops: seq<Op>)
    requires Creatable(w.db, value, ctx) && value.published > 0
    ensures var first := Perform(w, PutOp(value, token, ctx));
      AllClean(first, ops) && !ServesApproved(Run(first, ops).db)
  {
    hide Authorize, Perform, Acceptable, Normalize, Run, Redrafts, Step, Disciplined, ScopesUnique;
    var k := value.published;
    var drafts := Redrafts(value, ctx, k - 1);
    RedraftsRun(w, value, token, ctx, k - 1);
    var first := Perform(w, PutOp(value, token, ctx));
    var before := Run(first, drafts);
    var submit := Op(Submit(ctx.newId, k), ctx, {});
    ops := drafts + [submit];
    RunLast(first, drafts, submit);
    CleanLast(first, drafts, submit);
    AcceptableIsDisciplined(Normalize(value));
    assert forall key :: key in w.db.revisions ==> key.0 != ctx.newId;
    SubmitStep(before.db, submit, Redrafted(value, ctx, k - 1));
    NormalizeKeepsPublished(value);
    var db := Run(first, ops).db;
    assert db == Step(before.db, submit).db by { PerformDb(before, submit); }
    assert Serves(db, ctx.newId);
  }

  lemma PerformDb(w: World, op: Op)
    ensures Perform(w, op).db == Step(w.db, op).db
  {
  }

  /** A create that claims published revision k > 0 is served unreviewed content as soon as revision k is submitted,
      by requests that claim nothing any more. */
  lemma ClaimedRevisionIsServedUnapproved(sys: System, value: Entry, token: int, ctx: Context)
    returns (later: seq<Action>)
    requires Creatable(sys.world.db, value, ctx) && value.published > 0
    ensures var created := Execute(sys, Turn(PutOp(value, token, ctx)));
      AllUnclaiming(created, later) && !ServesApproved(Execute(created, later).world.db)
  {
    hide Creatable, ServesApproved, Perform, Execute, Turn, Schedule, AllUnclaiming, AllClean, Run, Clean;
    var op := PutOp(value, token, ctx);
    var ops := ClaimedRun(sys.world, value, token, ctx);
    TurnIsPerform(sys, op);
    var created := Execute(sys, Turn(op));
    SequentialIsInterleaved(created, ops);
    later := Schedule(ops);
  }

  lemma VouchedServesApproved(sys: System)
    requires VouchedSystem(sys)
    ensures ServesApproved(sys.world.db)
  {
    hide AllRooted, Backed, SnapshotBacked, LogOk, ScopesUnique, UuidShape, SessionVouched;
    var db := sys.world.db;
    forall id | Serves(db, id) ensures db.revisions[(id, db.entries[id].published)].status in {Approved, Published} {
      assert Vouched(db, db.entries[id]) && db.entries[id].id == id;
    }
  }

  /** Every interleaved continuation in which creates claim nothing serves only approved content. */
  ghost predicate SafeHereafter(sys: System) {
    forall later: seq<Action> :: AllUnclaiming(sys, later) ==> ServesApproved(Execute(sys, later).world.db)
  }

  /** The exact condition on a create: after any run whose creates claimed nothing, and whatever other clients are in
      the middle of, every interleaved continuation in which later creates claim nothing, with any tokens, serves only
      approved content if and only if this create claims no published revision. The caller can check it; one adapter
      always satisfies it. */
  lemma CreateIsSafeExactlyWhenClean(prior: seq<Action>, value: Entry, token: int, ctx: Context)
    requires UnclaimingRun(prior) && Creatable(After(prior), value, ctx)
    ensures var created := Execute(Execute(INITIAL, prior), Turn(PutOp(value, token, ctx)));
      value.published <= 0 <==> SafeHereafter(created)
  {
    hide Creatable, ServesApproved, Turn, Next, Unclaiming, Perform, VouchedSystem, Normalize;
    var sys, op := Execute(INITIAL, prior), PutOp(value, token, ctx);
    var created := Execute(sys, Turn(op));
    if value.published <= 0 {
      UnclaimingIsVouched(prior);
      TurnIsPerform(sys, op);
      ExecuteKeepsVouched(sys, Turn(op));
      forall later | AllUnclaiming(created, later) ensures ServesApproved(Execute(created, later).world.db) {
        ExecuteKeepsVouched(created, later);
        VouchedServesApproved(Execute(created, later));
      }
    } else {
      var later := ClaimedRevisionIsServedUnapproved(sys, value, token, ctx);
      assert AllUnclaiming(created, later) && !ServesApproved(Execute(created, later).world.db);
    }
  }

  // ----- tokens from the future -----

  lemma SettleDraft(db: Db, value: Entry, expected: int, ctx: Context, target: Read<Snapshot>, cur: Entry)
    requires var v := Normalize(value); Acceptable(v) && Allowed(ctx, v.scope)
    requires cur.id in db.entries && db.entries[cur.id].version == expected >= 1
    ensures var row := cur.(content := Normalize(value).content, status := Draft, revision := cur.revision + 1,
                            review := NO_REVIEW, updatedBy := Actor(ctx));
      Settle(db, Plan(PutDraft(value, expected), ctx, target, Found(cur)), {}) ==
      Outcome(db.(entries := Updated(db, row)), Ok(row.(version := expected + 1)))
  {
    hide Normalize, Acceptable, Authorize, ExecAll;
    var row := cur.(content := Normalize(value).content, status := Draft, revision := cur.revision + 1,
                    review := NO_REVIEW, updatedBy := Actor(ctx));
    DraftBody(db, row, expected, {});
  }

  /** Two clients: the first reads and decides to draft with a token one ahead of what it read, the second reads and
      commits `theirs`, then the first commits. */
  function Race(mine: Entry, theirs: Request, version: int, ctx: Context): seq<Action> {
    [Invoke(1, PutDraft(mine, version + 1), ctx, false), Load(1, false),
     Invoke(2, theirs, ctx, false), Load(2, false), Finish(2, {}), Finish(1, {})]
  }

  lemma ExecuteSix(sys: System, s: seq<Action>)
    requires |s| == 6
    ensures Execute(sys, s) == Next(Next(Next(Next(Next(Next(sys, s[0]), s[1]), s[2]), s[3]), s[4]), s[5])
  {
    hide Next;
    var s1 := Next(sys, s[0]);
    var s2 := Next(s1, s[1]);
    var s3 := Next(s2, s[2]);
    var s4 := Next(s3, s[3]);
    var s5 := Next(s4, s[4]);
    var s6 := Next(s5, s[5]);
    assert s[5..][0] == s[5] && s[5..][1..] == [];
    assert Execute(s5, s[5..]) == Execute(s6, []);
    assert s[4..][0] == s[4] && s[4..][1..] == s[5..];
    assert Execute(s4, s[4..]) == s6;
    assert s[3..][0] == s[3] && s[3..][1..] == s[4..];
    assert Execute(s3, s[3..]) == s6;
    assert s[2..][0] == s[2] && s[2..][1..] == s[3..];
    assert Execute(s2, s[2..]) == s6;
    assert s[1..][0] == s[1] && s[1..][1..] == s[2..];
    assert Execute(s1, s[1..]) == s6;
  }

  /** Both clients have read the entry. */
  function BothLoaded(w: World, e: Entry, mine: Entry, theirs: Request, ctx: Context): System {
    System(w, map[1 := Loaded(PutDraft(mine, e.version + 1), ctx, Missing, Found(e)),
                  2 := Loaded(theirs, ctx, Missing, Found(e))])
  }

  lemma RaceLoads(w: World, e: Entry, mine: Entry, theirs: Request, ctx: Context)
    requires GetByScope(w.db, Normalize(mine).scope) == Some(e) && ReadEntry(w.db, theirs) == Found(e)
    requires !theirs.Rollback?
    ensures var s := Race(mine, theirs, e.version, ctx);
      Next(Next(Next(Next(System(w, map[]), s[0]), s[1]), s[2]), s[3]) == BothLoaded(w, e, mine, theirs, ctx)
  {
    hide Normalize, GetByScope, Settled;
    var s := Race(mine, theirs, e.version, ctx);
    var s2 := Next(Next(System(w, map[]), s[0]), s[1]);
    assert s2.sessions == map[1 := Loaded(PutDraft(mine, e.version + 1), ctx, Missing, Found(e))];
  }

  /** The row that is left: two versions up, and the first client's draft of what it had read. */
  function Overwritten(e: Entry, mine: Entry, ctx: Context): Entry {
    e.(content := Normalize(mine).content, status := Draft, revision := e.revision + 1, review := NO_REVIEW,
       version := e.version + 2, updatedBy := Actor(ctx))
  }

  /** When the second client's commit changed the row under the next version, the first client's overwrites it. */
  lemma RaceFinishes(w: World, e: Entry, mine: Entry, theirs: Request, ctx: Context, r: Outcome)
    requires e.id in w.db.entries && w.db.entries[e.id] == e && e.version >= 0
    requires Acceptable(Normalize(mine)) && Allowed(ctx, Normalize(mine).scope)
    requires r == Settle(w.db, Plan(theirs, ctx, Missing, Found(e)), {}) && r.reply.Ok?
    requires e.id in r.db.entries && r.db.entries[e.id].version == e.version + 1
    requires RowEvolves(e, r.db.entries[e.id])
    ensures var end := Next(Next(BothLoaded(w, e, mine, theirs, ctx), Finish(2, {})), Finish(1, {})).world;
      |end.log| == |w.log| + 2 && end.db == With(r.db, Overwritten(e, mine, ctx))
  {
    hide Normalize, Acceptable, Authorize, Plan, Settle;
    SettleDraft(r.db, mine, e.version + 1, ctx, Missing, e);
  }

  lemma RaceRuns(w: World, id: string, mine: Entry, theirs: Request, ctx: Context, r: Outcome)
    requires Constraints(w.db) && id in w.db.entries && w.db.entries[id].version >= 0
    requires var v := Normalize(mine); Acceptable(v) && v.scope == w.db.entries[id].scope && Allowed(ctx, v.scope)
    requires !theirs.Rollback? && ReadEntry(w.db, theirs) == Found(w.db.entries[id])
    requires r == Settle(w.db, Plan(theirs, ctx, Missing, Found(w.db.entries[id])), {}) && r.reply.Ok?
    requires id in r.db.entries && r.db.entries[id].version == w.db.entries[id].version + 1
    requires RowEvolves(w.db.entries[id], r.db.entries[id])
    ensures var e := w.db.entries[id];
      var end := Execute(System(w, map[]), Race(mine, theirs, e.version, ctx)).world;
      |end.log| == |w.log| + 2 && end.db == With(r.db, Overwritten(e, mine, ctx))
  {
    hide Normalize, Acceptable, Authorize, Constraints, Execute, GetByScope, Next, BothLoaded, Plan, Settle, ReadEntry;
    var e := w.db.entries[id];
    GetByScopeFinds(w.db, id);
    assert e.id == id by { RowHasItsId(w.db, id); }
    ExecuteSix(System(w, map[]), Race(mine, theirs, e.version, ctx));
    RaceLoads(w, e, mine, theirs, ctx);
    RaceFinishes(w, e, mine, theirs, ctx, r);
  }

  /** A lost update: with a token one above the version it read, a draft overwrites another client's draft that it
      never saw. Both commit, yet the revision rises by one only and the other draft leaves no trace. */
  lemma FutureTokenLosesUpdate(w: World, id: string, mine: Entry, theirs: Entry, ctx: Context)
    requires Constraints(w.db) && id in w.db.entries && w.db.entries[id].version >= 1
    requires var v, u := Normalize(mine), Normalize(theirs);
      && Acceptable(v) && Acceptable(u) && v.scope == u.scope == w.db.entries[id].scope && Allowed(ctx, v.scope)
    ensures var e := w.db.entries[id];
      var end := Execute(System(w, map[]), Race(mine, PutDraft(theirs, e.version), e.version, ctx)).world;
      |end.log| == |w.log| + 2 && end.db == With(w.db, Overwritten(e, mine, ctx))
  {
    hide Normalize, Acceptable, Authorize, Constraints, Execute, GetByScope, Plan, Settle, Race;
    var e := w.db.entries[id];
    GetByScopeFinds(w.db, id);
    assert e.id == id by { RowHasItsId(w.db, id); }
    SettleDraft(w.db, theirs, e.version, ctx, Missing, e);
    RaceRuns(w, id, mine, PutDraft(theirs, e.version), ctx,
             Settle(w.db, Plan(PutDraft(theirs, e.version), ctx, Missing, Found(e)), {}));
  }

  lemma SettlePublish(db: Db, e: Entry, ctx: Context)
    requires e.id in db.entries && db.entries[e.id] == e && e.status == Approved && Allowed(ctx, e.scope)
    requires Disciplined(e.scope.key, e.content)
    ensures var eff := PublishEffect(e, Actor(ctx));
      Settle(db, Plan(Publish(e.id, e.version), ctx, Missing, Found(e)), {}) == Outcome(Apply(db, eff), Ok(eff.row))
  {
    hide Authorize, Disciplined, ExecAll;
    var plan := Plan(Publish(e.id, e.version), ctx, Missing, Found(e));
    var stmts := plan.value.stmts;
    assert stmts == [stmts[0], stmts[1]];
    PublishBody(db, stmts[0].row, e.version, stmts[1].event, {});
    EventCarriesRow(plan.value.reply, StatusChange(Published), Actor(ctx));
  }

  /** A withdrawn publication: with a token one above the version it read, a draft puts the published revision back to
      what it was before a publication it never saw, although the event of that publication stays. So neither the
      invisibility of drafts, nor the rise of published revisions, nor the agreement with the event log survives tokens
      that were not observed. */
  lemma FutureTokenWithdrawsPublication(w: World, id: string, mine: Entry, ctx: Context)
    requires Core(w.db) && id in w.db.entries && w.db.entries[id].status == Approved
    requires w.db.entries[id].published < w.db.entries[id].revision
    requires var v := Normalize(mine); Acceptable(v) && v.scope == w.db.entries[id].scope && Allowed(ctx, v.scope)
    ensures var e := w.db.entries[id]; var eff := PublishEffect(e, Actor(ctx));
      var end := Execute(System(w, map[]), Race(mine, Publish(id, e.version), e.version, ctx)).world;
      && |end.log| == |w.log| + 2
      && end.db == With(Apply(w.db, eff), Overwritten(e, mine, ctx))
      && end.db.outbox == w.db.outbox + [eff.event.value] && eff.event.value.entry.published == e.revision
      && Overwritten(e, mine, ctx).published < e.revision
  {
    hide Normalize, Acceptable, Authorize, Core, Execute, Plan, Settle, Race, Disciplined;
    var e := w.db.entries[id];
    EntryFacts(w.db, id);
    CoreConstraints(w.db);
    assert e.version >= 0 by { CoreEntry(w.db, id); }
    SettlePublish(w.db, e, ctx);
    RaceRuns(w, id, mine, Publish(id, e.version), ctx,
             Settle(w.db, Plan(Publish(id, e.version), ctx, Missing, Found(e)), {}));
  }

  /** What the others do meanwhile: a draft and its submission. */
  function DraftAndSubmit(theirs: Entry, id: string, version: int, ctx: Context): seq<Op> {
    [PutOp(theirs, version, ctx), Op(Submit(id, version + 1), ctx, {})]
  }

  lemma RunTwo(w: World, a: Op, b: Op)
    ensures Run(w, [a, b]).db == Step(Step(w.db, a).db, b).db
  {
    hide Step, ReadEntry;
    assert [a, b][1..] == [b] && [b][1..] == [];
    var v := Perform(w, a);
    assert Run(v, [b]) == Run(Perform(v, b), []);
  }

  lemma DraftAndSubmitRun(w: World, id: string, theirs: Entry, ctx: Context)
    requires Core(w.db) && id in w.db.entries
    requires var u := Normalize(theirs); Acceptable(u) && u.scope == w.db.entries[id].scope && Allowed(ctx, u.scope)
    ensures var e := w.db.entries[id];
      var db := Run(w, DraftAndSubmit(theirs, id, e.version, ctx)).db;
      id in db.entries && db.entries[id].version == e.version + 2 && (id, e.revision + 1) in db.revisions
  {
    hide Normalize, Acceptable, Authorize, Core, Step, Run, Disciplined, Constraints;
    var e := w.db.entries[id];
    var draft, submit := PutOp(theirs, e.version, ctx), Op(Submit(id, e.version + 1), ctx, {});
    CoreConstraints(w.db);
    EntryFacts(w.db, id);
    CoreEntry(w.db, id);
    DraftStep(w.db, draft, e);
    AcceptableIsDisciplined(Normalize(theirs));
    SubmitStep(Step(w.db, draft).db, submit, DraftEffect(e, Normalize(theirs).content, Actor(ctx)).row);
    RunTwo(w, draft, submit);
  }

  /** One client reads and decides to draft with a token two ahead, the others draft and submit, then it commits. */
  function Overtaken(mine: Entry, theirs: Entry, e: Entry, ctx: Context): seq<Action> {
    [Invoke(1, PutDraft(mine, e.version + 2), ctx, false), Load(1, false)]
    + Schedule(DraftAndSubmit(theirs, e.id, e.version, ctx)) + [Finish(1, {})]
  }

  /** A draft row with a snapshot at its own revision. */
  predicate Uncoupled(db: Db, id: string) {
    id in db.entries && db.entries[id].status == Draft && (id, db.entries[id].revision) in db.revisions
  }

  lemma StaleDraftUncouples(db: Db, e: Entry, mine: Entry, ctx: Context)
    requires Acceptable(Normalize(mine)) && Allowed(ctx, Normalize(mine).scope) && e.version >= 0
    requires e.id in db.entries && db.entries[e.id].version == e.version + 2 && (e.id, e.revision + 1) in db.revisions
    ensures Uncoupled(Settle(db, Plan(PutDraft(mine, e.version + 2), ctx, Missing, Found(e)), {}).db, e.id)
  {
    hide Normalize, Acceptable, Authorize, Plan, Settle;
    SettleDraft(db, mine, e.version + 2, ctx, Missing, e);
  }

  /** A broken coupling: with a token two above the version it read, a draft lands on a revision another client has
      submitted meanwhile, so a draft row has a snapshot at its own revision. */
  lemma FutureTokenBreaksCoupling(sys: System, id: string, mine: Entry, theirs: Entry, ctx: Context)
    requires Core(sys.world.db) && id in sys.world.db.entries
    requires var v, u := Normalize(mine), Normalize(theirs);
      && Acceptable(v) && Acceptable(u) && v.scope == u.scope == sys.world.db.entries[id].scope && Allowed(ctx, v.scope)
    ensures Uncoupled(Execute(sys, Overtaken(mine, theirs, sys.world.db.entries[id], ctx)).world.db, id)
  {
    hide Normalize, Acceptable, Authorize, Core, Execute, GetByScope, Plan, Settle, Schedule, Run, Uncoupled,
      DraftAndSubmit, Constraints;
    var e := sys.world.db.entries[id];
    CoreConstraints(sys.world.db);
    CoreEntry(sys.world.db, id);
    GetByScopeFinds(sys.world.db, id);
    var a, ops := [Invoke(1, PutDraft(mine, e.version + 2), ctx, false), Load(1, false)],
                  DraftAndSubmit(theirs, id, e.version, ctx);
    var b := Schedule(ops);
    var loaded := Execute(sys, a);
    LoadedSession(sys, a);
    assert SessionOf(loaded, 1) == Loaded(PutDraft(mine, e.version + 2), ctx, Missing, Found(e));
    SequentialIsInterleaved(loaded, ops);
    DraftAndSubmitRun(sys.world, id, theirs, ctx);
    var between := Execute(loaded, b);
    StaleDraftUncouples(between.world.db, e, mine, ctx);
    ExecuteAppend(sys, a + b, [Finish(1, {})]);
    ExecuteAppend(sys, a, b);
    OneStep(between, Finish(1, {}));
  }

  lemma LoadedSession(sys: System, a: seq<Action>)
    requires |a| == 2
    ensures Execute(sys, a) == Next(Next(sys, a[0]), a[1])
  {
    hide Next;
    assert a[1..][0] == a[1] && a[1..][1..] == [];
    var s1 := Next(sys, a[0]);
    assert Execute(s1, a[1..]) == Execute(Next(s1, a[1]), []);
  }

  lemma OneStep(sys: System, a: Action)
    ensures Execute(sys, [a]) == Next(sys, a)
  {
    hide Next;
    assert [a][1..] == [];
    assert Execute(Next(sys, a), []) == Next(sys, a);
  }

  lemma RowHasItsId(db: Db, id: string)
    requires Constraints(db) && id in db.entries
    ensures db.entries[id].id == id
  {
  }

  // ----- who may approve -----

  /** With the row pending and its snapshot too, an approval succeeds exactly for callers other than the last
      updater. */
  lemma ApprovalStep(db: Db, id: string, ctx: Context, comment: string)
    requires Keyed(db) && id in db.entries && PendingOk(db, id)
    requires db.entries[id].status == PendingApproval && Allowed(ctx, db.entries[id].scope)
    ensures Step(db, Op(Approve(id, db.entries[id].version, comment), ctx, {})).reply.Ok?
      <==> Actor(ctx) != db.entries[id].updatedBy
  {
    hide Authorize, TrimSpace, ExecAll, UuidShape;
    var e := db.entries[id];
    var plan := PlanReview(e.version, Approved, comment, ctx, Found(e));
    if plan.Ok? {
      var stmts := plan.value.stmts;
      ReviewBody(db, stmts[1].row, e.version, stmts[2].event, {});
    }
  }

  /** Independence is from the submitter alone: in every run whatsoever, an approval of a pending entry by a caller
      allowed on its scope, with the right token, commits if and only if the caller is not the submitter on its
      snapshot. Who wrote the draft plays no part. */
  lemma ApprovalTurnsOnTheSubmitter(actions: seq<Action>, id: string, ctx: Context, comment: string)
    requires id in After(actions).entries
    requires After(actions).entries[id].status == PendingApproval && Allowed(ctx, After(actions).entries[id].scope)
    ensures var db := After(actions); var e := db.entries[id];
      && (id, e.revision) in db.revisions
      && (Step(db, Op(Approve(id, e.version, comment), ctx, {})).reply.Ok?
          <==> Actor(ctx) != db.revisions[(id, e.revision)].createdBy)
  {
    hide Execute, Step, Allowed, Disciplined, ScopesUnique, UuidShape, SnapshotBacked, LogOk;
    var db := After(actions);
    AnyIsGrounded(actions);
    AlwaysPendingOk(actions);
    assert PendingOk(db, id) && Backed(db, db.entries[id]) && db.entries[id].id == id;
    ApprovalStep(db, id, ctx, comment);
  }

  /** In particular an author's approval of their own draft commits if and only if someone else submitted it. */
  lemma AuthorMayApproveOwnDraft(db: Db, value: Entry, author: Context, submitter: Context, comment: string)
    requires Core(db) && Creatable(db, value, author) && Allowed(submitter, Normalize(value).scope)
    ensures var id := author.newId;
      var drafted := Step(db, PutOp(value, 0, author)).db;
      var submitted := Step(drafted, Op(Submit(id, 1), submitter, {})).db;
      var approved := Step(submitted, Op(Approve(id, 2, comment), author, {}));
      && (approved.reply.Ok? <==> Actor(author) != Actor(submitter))
      && (approved.reply.Ok? ==>
            && approved.reply.value.status == Approved && approved.reply.value.content == Normalize(value).content
            && approved.reply.value.review.reviewedBy == approved.reply.value.createdBy == Actor(author))
  {
    hide Normalize, Acceptable, Authorize, Step, Core, TrimSpace, Evolves;
    var id := author.newId;
    var draft := PutOp(value, 0, author);
    assert GetByScope(db, Normalize(value).scope) == None;
    StepFollows(db, draft);
    StepKeepsCore(db, draft);
    var drafted := Step(db, draft).db;
    var submit := Op(Submit(id, 1), submitter, {});
    StepFollows(drafted, submit);
    StepKeepsCore(drafted, submit);
    var submitted := Step(drafted, submit).db;
    StepFollows(submitted, Op(Approve(id, 2, comment), author, {}));
  }

  // ----- what the etag leaves out -----

  /** A served row also carries the entry's version, which drafting raises: the row a client gets changes although its
      etag and its content do not. */
  lemma EtagIgnoresVersion(db: Db, op: Op)
    requires Inv(db) && op.req.PutDraft? && Legal(db, op)
    requires ScopeTaken(db, Normalize(op.req.value).scope)
    requires Serves(db, GetByScope(db, Normalize(op.req.value).scope).value.id)
    ensures var id := GetByScope(db, Normalize(op.req.value).scope).value.id; var after := Step(db, op).db;
      && Constraints(db) && Constraints(after) && Indistinguishable(db, after)
      && Serves(after, id) && RowOf(after, id).version == RowOf(db, id).version + 1
  {
    hide Normalize, Acceptable, Authorize, Step, Core, EntryPublication, Evolves, Advances, Constraints,
      SamePublications, Indistinguishable;
    StepFollows(db, op);
    StepKeeps(db, op);
    CoreConstraints(db);
    CoreConstraints(Step(db, op).db);
    InProgressIsInvisible(db, op);
    SamePublicationsLookAlike(db, Step(db, op).db);
    RowFacts(db, Normalize(op.req.value).scope);
  }

  function Versions(rows: seq<Entry>): seq<int> {
    seq(|rows|, i requires 0 <= i < |rows| => rows[i].version)
  }

  /** Two served rows of one entry are equal exactly when their versions are. */
  lemma RowsAgreeExactlyWhenVersionsDo(a: Db, b: Db, id: string)
    requires Tied(a, b) && Serves(a, id) && Serves(b, id)
    ensures RowOf(a, id) == RowOf(b, id) <==> RowOf(a, id).version == RowOf(b, id).version
  {
    assert TiedAt(a, b, id);
  }

  /** The exact reach of the etag: at any two points of any run, resolutions with the same etag preimage return equal
      rows, every field included, if and only if their rows carry the same versions. */
  lemma EqualEtagsMeanEqualRowsExactlyWhenVersionsAgree(a: seq<Action>, b: seq<Action>, bucketA: string -> nat,
      bucketB: string -> nat, qa: Query, qb: Query)
    ensures Constraints(After(a)) && Constraints(After(a + b))
    ensures var xs, ys := Resolution(After(a), bucketA, qa), Resolution(After(a + b), bucketB, qb);
      Preimage(xs) == Preimage(ys) ==> (xs == ys <==> Versions(xs) == Versions(ys))
  {
    hide After, Constraints, Preimage, Resolution, Tied, Items;
    AnyIsConstrained(a);
    AnyIsConstrained(a + b);
    VersionPinsHistory(a, b);
    ResolutionRows(After(a), bucketA, qa);
    ResolutionRows(After(a + b), bucketB, qb);
    var xs, ys := Resolution(After(a), bucketA, qa), Resolution(After(a + b), bucketB, qb);
    if Preimage(xs) == Preimage(ys) && Versions(xs) == Versions(ys) {
      PreimageInjective(xs, ys);
      forall i | 0 <= i < |xs| ensures xs[i] == ys[i] {
        assert ServedRow(After(a), xs[i]) && ServedRow(After(a + b), ys[i]);
        assert Versions(xs)[i] == Versions(ys)[i];
        RowsAgreeExactlyWhenVersionsDo(After(a), After(a + b), xs[i].id);
      }
    }
  }
}
