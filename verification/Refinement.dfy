/** Interleaved runs against sequential ones. */
module Refinement {
  import opened Model
  import opened Tables
  import opened Workflow
  import opened Invariant
  import opened Preservation
  import opened Runs
  import opened Interleaving

  // ----- one commit -----

  /** What a body that succeeded tells about the row it was guarded by. */
  ghost predicate GuardHeld(db: Db, s: Session, r: Outcome)
    requires s.Loaded?
  {
    r.reply.Ok? ==>
      if s.current.Found? then
        var e := s.current.value;
        && Current(db, e, s.req.expected)
        && r.reply.value.id == e.id && r.reply.value.version == s.req.expected + 1
        && e.id in r.db.entries && r.db.entries[e.id].version == s.req.expected + 1
      else
        && s.current.Missing? && s.req.PutDraft?
        && !ScopeTaken(db, Normalize(s.req.value).scope) && s.ctx.newId !in db.entries
        && r.reply.value.id == s.ctx.newId && r.reply.value.version == 1
        && r.reply.value.scope == Normalize(s.req.value).scope
        && s.ctx.newId in r.db.entries && r.db.entries[s.ctx.newId] == r.reply.value
  }

  lemma DraftGuard(db: Db, s: Session, faults: set<Site>)
    requires s.Loaded? && s.req.PutDraft?
    ensures GuardHeld(db, s, Settled(db, s, faults))
  {
    hide Normalize, Acceptable, Authorize;
    var plan := Plan(s.req, s.ctx, s.target, s.current);
    if plan.Ok? {
      ExecOne(db, plan.value.stmts[0], faults);
    }
  }

  lemma StatusGuard(db: Db, s: Session, faults: set<Site>)
    requires s.Loaded? && (s.req.Submit? || s.req.Publish?)
    ensures GuardHeld(db, s, Settled(db, s, faults))
  {
    hide Authorize, ExecAll, EventOf;
    var plan := Plan(s.req, s.ctx, s.target, s.current);
    if plan.Ok? {
      var stmts := plan.value.stmts;
      if s.req.Submit? {
        assert stmts == [stmts[0], stmts[1], stmts[2]];
        SnapshotBody(db, stmts[0].row, stmts[1].row, s.req.expected, stmts[2].event, faults);
      } else {
        assert stmts == [stmts[0], stmts[1]];
        PublishBody(db, stmts[0].row, s.req.expected, stmts[1].event, faults);
      }
    }
  }

  lemma ReviewGuard(db: Db, s: Session, faults: set<Site>)
    requires s.Loaded? && (s.req.Approve? || s.req.Reject?)
    ensures GuardHeld(db, s, Settled(db, s, faults))
  {
    hide Authorize, ExecAll, EventOf;
    var plan := Plan(s.req, s.ctx, s.target, s.current);
    if plan.Ok? {
      var stmts := plan.value.stmts;
      ReviewBody(db, stmts[1].row, s.req.expected, stmts[2].event, faults);
    }
  }

  lemma RollbackGuard(db: Db, s: Session, faults: set<Site>)
    requires s.Loaded? && s.req.Rollback?
    ensures GuardHeld(db, s, Settled(db, s, faults))
  {
    hide Authorize, ExecAll, EventOf;
    var plan := Plan(s.req, s.ctx, s.target, s.current);
    if plan.Ok? {
      var stmts := plan.value.stmts;
      SnapshotBody(db, stmts[0].row, stmts[1].row, s.req.expected, stmts[2].event, faults);
    }
  }

  lemma CommitGuard(db: Db, s: Session, faults: set<Site>)
    requires s.Loaded?
    ensures GuardHeld(db, s, Settled(db, s, faults))
  {
    hide GuardHeld, Settled;
    match s.req
    case PutDraft(_, _) => DraftGuard(db, s, faults);
    case Submit(_, _) => StatusGuard(db, s, faults);
    case Approve(_, _, _) => ReviewGuard(db, s, faults);
    case Reject(_, _, _) => ReviewGuard(db, s, faults);
    case Publish(_, _) => StatusGuard(db, s, faults);
    case Rollback(_, _, _) => RollbackGuard(db, s, faults);
  }

  /** The exact premise of optimistic locking here: a commit that succeeds finds the row exactly as it was read
      if and only if its token was not above the version it read. */
  lemma CommitSeesWhatItRead(db: Db, s: Session, faults: set<Site>)
    requires s.Loaded? && Stable(db, s) && Settled(db, s, faults).reply.Ok? && s.current.Found?
    ensures s.current.value.id in db.entries
    ensures db.entries[s.current.value.id] == s.current.value <==> s.req.expected <= s.current.value.version
  {
    hide Settled;
    CommitGuard(db, s, faults);
  }

  lemma {:induction false} NoFaultNeeded(db: Db, stmts: seq<Stmt>, faults: set<Site>)
    requires ExecAll(db, stmts, faults).Ok?
    ensures ExecAll(db, stmts, {}) == ExecAll(db, stmts, faults)
    decreases |stmts|
  {
    hide Exec;
    if stmts != [] {
      NoFaultNeeded(Exec(db, stmts[0]).value, stmts[1..], faults);
    }
  }

  lemma SettleWithoutFaults(db: Db, plan: Result<Transaction, AppError>, faults: set<Site>)
    requires Settle(db, plan, faults).reply.Ok?
    ensures Settle(db, plan, {}) == Settle(db, plan, faults)
  {
    hide ExecAll;
    NoFaultNeeded(db, plan.value.stmts, faults);
  }

  /** Reading again at commit time gives what the session read. */
  lemma RereadAgrees(db: Db, s: Session, faults: set<Site>)
    requires s.Loaded? && Constraints(db) && Stable(db, s) && Settled(db, s, faults).reply.Ok?
    requires s.current.Found? ==> s.req.expected <= s.current.value.version
    ensures ReadEntry(db, s.req) == s.current
  {
    hide Settled, Normalize;
    CommitGuard(db, s, faults);
    if s.current.Found? {
      CommitSeesWhatItRead(db, s, faults);
      GetByScopeFinds(db, s.current.value.id);
    }
  }

  /** A rollback that went through had an approved target, which has not changed since. */
  lemma RereadTargetAgrees(db: Db, s: Session, faults: set<Site>)
    requires s.Loaded? && s.req.Rollback? && Keyed(db) && Stable(db, s) && Settled(db, s, faults).reply.Ok?
    ensures ReadTarget(db, s.req) == s.target
  {
    hide Authorize, Within, CurrentStable;
    assert (s.req.id, s.req.target).0 in db.entries;
  }

  /** A commit that succeeds does what the whole operation would do on the spot, from reading to answering. */
  lemma CommitIsAtomic(db: Db, s: Session, faults: set<Site>)
    requires s.Loaded? && Constraints(db) && Stable(db, s) && Settled(db, s, faults).reply.Ok?
    requires s.current.Found? ==> s.req.expected <= s.current.value.version
    ensures Step(db, Intent(s)) == Settled(db, s, faults)
    ensures s.current.Missing? == ReadEntry(db, s.req).Missing?
  {
    hide ReadEntry, ReadTarget, PlanDraft, PlanSubmit, PlanPublish, PlanReview, PlanRollback, Settle, Constraints,
      Stable;
    RereadAgrees(db, s, faults);
    SettleWithoutFaults(db, Plan(s.req, s.ctx, s.target, s.current), faults);
    if s.req.Rollback? {
      ConstraintsKeyed(db);
      RereadTargetAgrees(db, s, faults);
    } else {
      TargetIsUnused(s.req, s.ctx, s.target, ReadTarget(db, s.req), s.current);
    }
  }

  lemma ConstraintsKeyed(db: Db)
    requires Constraints(db)
    ensures Keyed(db)
  {
  }

  lemma TargetIsUnused(req: Request, ctx: Context, a: Read<Snapshot>, b: Read<Snapshot>, current: Read<Entry>)
    requires !req.Rollback?
    ensures Plan(req, ctx, a, current) == Plan(req, ctx, b, current)
  {
    hide PlanDraft, PlanSubmit, PlanPublish, PlanReview;
  }

  // ----- whole runs -----

  function Intents(log: seq<Commit>): seq<Op> {
    seq(|log|, i requires 0 <= i < |log| => log[i].op)
  }

  /** A session whose token is not above the version it read. */
  ghost predicate Prepared(db: Db, s: Session) {
    && Stable(db, s)
    && (s.Loaded? && s.current.Found? ==> s.req.expected <= s.current.value.version)
  }

  ghost predicate AllPrepared(sys: System) {
    forall c :: c in sys.sessions ==> Prepared(sys.world.db, sys.sessions[c])
  }

  /** The concurrent world is the outcome of performing its committed requests one after the other. */
  ghost predicate Linear(sys: System) {
    && sys.world == Run(START, Intents(sys.world.log))
    && Constraints(sys.world.db)
    && AllPrepared(sys)
  }

  /** Sequential runs from the empty tables keep the core of the invariant and their accounts. */
  lemma LinearIsSound(sys: System)
    requires Linear(sys)
    ensures Core(sys.world.db) && Accounted(sys.world) && RevisionsAccounted(sys.world)
  {
    hide Core, Run, AllPrepared;
    assert Core(EMPTY_DB) by { EmptyInv(); InvCore(EMPTY_DB); }
    RunKeepsCore(START, Intents(sys.world.log));
    assert Accounted(START) && RevisionsAccounted(START);
    RunAccounts(START, Intents(sys.world.log));
  }

  /** A finish either changes nothing or performs the request at that moment. */
  lemma FinishIsPerform(sys: System, c: nat, faults: set<Site>)
    requires Constraints(sys.world.db) && c in sys.sessions && sys.sessions[c].Loaded?
    requires Prepared(sys.world.db, sys.sessions[c])
    ensures var s := sys.sessions[c]; var next := Next(sys, Finish(c, faults));
      next.world == if Settled(sys.world.db, s, faults).reply.Ok? then Perform(sys.world, Intent(s)) else sys.world
  {
    hide Step, Settled, Constraints, Stable, ReadEntry;
    var s := sys.sessions[c];
    if Settled(sys.world.db, s, faults).reply.Ok? {
      CommitIsAtomic(sys.world.db, s, faults);
    } else {
      FailedSettle(sys.world.db, s, faults);
    }
  }

  lemma FailedSettle(db: Db, s: Session, faults: set<Site>)
    requires s.Loaded? && Settled(db, s, faults).reply.Err?
    ensures Settled(db, s, faults).db == db
  {
    hide Plan;
  }

  lemma NextKeepsPrepared(sys: System, a: Action)
    requires Constraints(sys.world.db) && Observed(sys, a) && AllPrepared(sys)
    ensures AllPrepared(Next(sys, a))
  {
    hide Constraints, Stable, Settled, ReadTarget, ReadEntry;
    NextKeepsStable(sys, a);
  }

  lemma NextKeepsLinear(sys: System, a: Action)
    requires Linear(sys) && Observed(sys, a)
    ensures Linear(Next(sys, a))
  {
    hide Constraints, Evolves, Run, Perform, Prepared, Settled, Observed;
    NextKeepsPrepared(sys, a);
    NextEvolves(sys, a);
    var s := SessionOf(sys, a.client);
    if a.Finish? && s.Loaded? {
      FinishIsPerform(sys, a.client, a.faults);
      if Settled(sys.world.db, s, a.faults).reply.Ok? {
        var next := Next(sys, a);
        RunLast(START, Intents(sys.world.log), Intent(s));
        assert Intents(next.world.log) == Intents(sys.world.log) + [Intent(s)];
      }
    }
  }

  lemma {:induction false} ExecuteKeepsLinear(sys: System, actions: seq<Action>)
    requires Linear(sys) && AllObserved(sys, actions)
    ensures Linear(Execute(sys, actions))
    decreases |actions|
  {
    hide Linear, Next, Observed;
    if actions != [] {
      NextKeepsLinear(sys, actions[0]);
      ExecuteKeepsLinear(Next(sys, actions[0]), actions[1..]);
    }
  }

  lemma InitialIsLinear()
    ensures Linear(INITIAL)
  {
    assert Intents([]) == [];
  }

  /** Interleaving refines atomic steps: whatever the schedule, the faults, the number of clients and what their
      requests claim, the tables, the log and every answer are those of performing the committed requests one at a
      time in commit order. */
  lemma InterleavingRefinesAtomic(actions: seq<Action>)
    requires AllObserved(INITIAL, actions)
    ensures var world := Execute(INITIAL, actions).world; world == Run(START, Intents(world.log))
  {
    hide Execute, AllObserved;
    InitialIsLinear();
    ExecuteKeepsLinear(INITIAL, actions);
  }

  // ----- runs whose creates claim nothing -----

  /** A session that will create, if it commits, claims no published revision. */
  predicate Modest(s: Session) {
    s.Loaded? && s.req.PutDraft? && s.current.Missing? ==> s.req.value.published <= 0
  }

  ghost predicate AllModest(sys: System) {
    forall c :: c in sys.sessions ==> Modest(sys.sessions[c])
  }

  lemma NextKeepsModest(sys: System, a: Action)
    requires AllModest(sys) && Unclaiming(sys, a)
    ensures AllModest(Next(sys, a))
  {
    hide Settled, Normalize, ReadTarget;
  }

  /** What a modest session commits is clean at that moment. */
  lemma ModestIsClean(db: Db, s: Session, faults: set<Site>)
    requires s.Loaded? && Modest(s) && Stable(db, s) && Settled(db, s, faults).reply.Ok?
    ensures Clean(db, s.req)
  {
    hide Settled, Normalize;
    CommitGuard(db, s, faults);
    if s.req.PutDraft? && s.current.Found? {
      assert db.entries[s.current.value.id].scope == Normalize(s.req.value).scope;
    }
  }

  /** The full invariant, for runs with observed tokens whose creates claim nothing. */
  ghost predicate Sound(sys: System) {
    Linear(sys) && AllModest(sys) && Inv(sys.world.db)
  }

  /** The world is the outcome of performing and logging this request. */
  ghost predicate Performs(sys: System, op: Op, next: World) {
    && next == Perform(sys.world, op)
    && |next.log| == |sys.world.log| + 1 && next.log[|sys.world.log|].op == op
    && (AllModest(sys) ==> Clean(sys.world.db, op.req))
  }

  /** Either the tables stay, or one request is performed on them and logged; a clean one, when creates claim
      nothing. */
  lemma NextPerforms(sys: System, a: Action)
    requires Linear(sys)
    ensures var next := Next(sys, a).world;
      next == sys.world || exists op: Op :: Performs(sys, op, next)
  {
    hide Constraints, Run, Perform, Settled, Stable, Clean, Modest;
    var s := SessionOf(sys, a.client);
    if a.Finish? && s.Loaded? {
      FinishIsPerform(sys, a.client, a.faults);
      if Settled(sys.world.db, s, a.faults).reply.Ok? {
        if AllModest(sys) { ModestIsClean(sys.world.db, s, a.faults); }
        assert Performs(sys, Intent(s), Next(sys, a).world);
      }
    }
  }

  lemma NextKeepsSound(sys: System, a: Action)
    requires Sound(sys) && Observed(sys, a) && Unclaiming(sys, a)
    ensures Sound(Next(sys, a))
  {
    hide Linear, AllModest, Inv, Step, Settled, Observed, Unclaiming, Advances, Evolves;
    NextKeepsLinear(sys, a);
    NextKeepsModest(sys, a);
    NextPerforms(sys, a);
    var next := Next(sys, a).world;
    if next != sys.world {
      var op: Op :| Performs(sys, op, next);
      StepKeeps(sys.world.db, op);
    }
  }

  lemma {:induction false} ExecuteKeepsSound(sys: System, actions: seq<Action>)
    requires Sound(sys) && AllObserved(sys, actions) && AllUnclaiming(sys, actions)
    ensures Sound(Execute(sys, actions))
    decreases |actions|
  {
    hide Sound, Next, Observed, Unclaiming;
    if actions != [] {
      NextKeepsSound(sys, actions[0]);
      ExecuteKeepsSound(Next(sys, actions[0]), actions[1..]);
    }
  }

  lemma InitialIsSound()
    ensures Sound(INITIAL)
  {
    hide Linear, Inv;
    InitialIsLinear();
    EmptyInv();
  }
}
