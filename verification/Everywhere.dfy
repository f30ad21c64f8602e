/** What holds in every interleaved run, whatever tokens the clients send and however stale their reads are. */
module Everywhere {
  import opened Text
  import opened Model
  import opened Tables
  import opened Workflow
  import opened Invariant
  import opened Transitions
  import opened Preservation
  import opened Runs
  import opened Interleaving
  import opened Refinement
  import opened Drafts

  // ----- what a commit does, in terms of what its session read -----

  /** The entry as read, under the version the token names. */
  function Seen(s: Session): Entry
    requires s.Loaded? && s.current.Found?
  {
    s.current.value.(version := s.req.expected)
  }

  /** Everything that must have held for the commit of a session to succeed. */
  ghost predicate Admitted(db: Db, s: Session)
    requires s.Loaded?
  {
    if s.current.Found? then
      var e := Seen(s);
      var key := (e.id, e.revision);
      && Current(db, e, e.version) && Allowed(s.ctx, e.scope)
      && (match s.req
          case PutDraft(value, _) => Acceptable(Normalize(value))
          case Submit(_, _) => e.status in {Draft, Rejected} && key !in db.revisions
          case Approve(_, _, _) => ReviewAdmitted(db, s.ctx, e)
          case Reject(_, _, comment) => TrimSpace(comment) != "" && ReviewAdmitted(db, s.ctx, e)
          case Publish(_, _) => e.status == Approved
          case Rollback(_, _, _) => s.target.Found? && s.target.value.status in {Approved, Published}
                                    && (e.id, e.revision + 1) !in db.revisions)
    else
      && s.req.PutDraft? && s.current.Missing?
      && (var v := Normalize(s.req.value);
          Acceptable(v) && Allowed(s.ctx, v.scope) && !ScopeTaken(db, v.scope) && s.ctx.newId !in db.entries)
  }

  predicate ReviewAdmitted(db: Db, ctx: Context, e: Entry) {
    && e.status == PendingApproval && Actor(ctx) != e.updatedBy
    && (e.id, e.revision) in db.revisions && db.revisions[(e.id, e.revision)].status == PendingApproval
  }

  /** The effect of the commit: the workflow's own, applied to what was read. */
  ghost function CommitEffect(db: Db, s: Session): Effect
    requires s.Loaded? && Admitted(db, s)
  {
    var actor := Actor(s.ctx);
    if s.current.Missing? then CreateEffect(s.ctx.newId, Normalize(s.req.value), actor)
    else
      var e := Seen(s);
      match s.req
      case PutDraft(value, _) => DraftEffect(e, Normalize(value).content, actor)
      case Submit(_, _) => SubmitEffect(e, actor)
      case Approve(_, _, comment) =>
        ReviewEffect(e, db.revisions[(e.id, e.revision)], Approved, TrimSpace(comment), actor)
      case Reject(_, _, comment) =>
        ReviewEffect(e, db.revisions[(e.id, e.revision)], Rejected, TrimSpace(comment), actor)
      case Publish(_, _) => PublishEffect(e, actor)
      case Rollback(_, _, _) => RollbackEffect(e, s.target.value.content, actor)
  }

  /** What was read carries disciplined content. */
  predicate ReadsDisciplined(s: Session)
    requires s.Loaded?
  {
    && (s.current.Found? ==> Disciplined(s.current.value.scope.key, s.current.value.content))
    && (s.current.Found? && s.req.Rollback? && s.target.Found?
        ==> Disciplined(s.current.value.scope.key, s.target.value.content))
  }

  ghost predicate CommitFollows(db: Db, s: Session, r: Outcome)
    requires s.Loaded?
  {
    r.reply.Ok? ==> Admitted(db, s) && r == Outcome(Apply(db, CommitEffect(db, s)), Ok(CommitEffect(db, s).row))
  }

  lemma DraftCommit(db: Db, s: Session, faults: set<Site>)
    requires s.Loaded? && s.req.PutDraft? && Stable(db, s)
    ensures CommitFollows(db, s, Settled(db, s, faults))
  {
    hide Normalize, Acceptable, Authorize, ExecAll;
    var plan := Plan(s.req, s.ctx, s.target, s.current);
    if plan.Ok? {
      ExecOne(db, plan.value.stmts[0], faults);
      if s.current.Found? {
        DraftBody(db, plan.value.stmts[0].row, s.req.expected, faults);
      }
    }
  }

  lemma SubmitCommit(db: Db, s: Session, faults: set<Site>)
    requires s.Loaded? && s.req.Submit? && Stable(db, s) && ReadsDisciplined(s)
    ensures CommitFollows(db, s, Settled(db, s, faults))
  {
    hide Authorize, Disciplined, ExecAll, Normalize;
    var plan := Plan(s.req, s.ctx, s.target, s.current);
    if plan.Ok? {
      var stmts := plan.value.stmts;
      assert stmts == [stmts[0], stmts[1], stmts[2]];
      SnapshotBody(db, stmts[0].row, stmts[1].row, s.req.expected, stmts[2].event, faults);
      EventCarriesRow(plan.value.reply, StatusChange(PendingApproval), Actor(s.ctx));
    }
  }

  lemma PublishCommit(db: Db, s: Session, faults: set<Site>)
    requires s.Loaded? && s.req.Publish? && Stable(db, s) && ReadsDisciplined(s)
    ensures CommitFollows(db, s, Settled(db, s, faults))
  {
    hide Authorize, Disciplined, ExecAll, Normalize;
    var plan := Plan(s.req, s.ctx, s.target, s.current);
    if plan.Ok? {
      var stmts := plan.value.stmts;
      assert stmts == [stmts[0], stmts[1]];
      PublishBody(db, stmts[0].row, s.req.expected, stmts[1].event, faults);
      EventCarriesRow(plan.value.reply, StatusChange(Published), Actor(s.ctx));
    }
  }

  lemma ReviewCommit(db: Db, s: Session, faults: set<Site>)
    requires s.Loaded? && (s.req.Approve? || s.req.Reject?) && Stable(db, s) && ReadsDisciplined(s)
    ensures CommitFollows(db, s, Settled(db, s, faults))
  {
    hide Authorize, Disciplined, ExecAll, TrimSpace, Normalize;
    var plan := Plan(s.req, s.ctx, s.target, s.current);
    if plan.Ok? {
      var stmts := plan.value.stmts;
      ReviewBody(db, stmts[1].row, s.req.expected, stmts[2].event, faults);
      EventCarriesRow(plan.value.reply, StatusChange(plan.value.reply.status), Actor(s.ctx));
    }
  }

  lemma RollbackCommit(db: Db, s: Session, faults: set<Site>)
    requires s.Loaded? && s.req.Rollback? && Stable(db, s) && ReadsDisciplined(s)
    ensures CommitFollows(db, s, Settled(db, s, faults))
  {
    hide Authorize, Disciplined, ExecAll, Normalize;
    var plan := Plan(s.req, s.ctx, s.target, s.current);
    if plan.Ok? {
      var stmts := plan.value.stmts;
      SnapshotBody(db, stmts[0].row, stmts[1].row, s.req.expected, stmts[2].event, faults);
      EventCarriesRow(plan.value.reply, RolledBack, Actor(s.ctx));
    }
  }

  /** However stale the reads: a commit that succeeds stores the workflow's effect on what was read, and answers
      the stored row. */
  lemma CommitStoresItsEffect(db: Db, s: Session, faults: set<Site>)
    requires s.Loaded? && Stable(db, s) && ReadsDisciplined(s)
    ensures CommitFollows(db, s, Settled(db, s, faults))
  {
    hide CommitFollows, Settled, Stable, ReadsDisciplined;
    match s.req
    case PutDraft(_, _) => DraftCommit(db, s, faults);
    case Submit(_, _) => SubmitCommit(db, s, faults);
    case Approve(_, _, _) => ReviewCommit(db, s, faults);
    case Reject(_, _, _) => ReviewCommit(db, s, faults);
    case Publish(_, _) => PublishCommit(db, s, faults);
    case Rollback(_, _, _) => RollbackCommit(db, s, faults);
  }

  // ----- what rows and stale copies of rows can rely on -----

  /** What the snapshots say for an entry, whether it is a stored row or a copy some client read long ago: its content
      is disciplined and its scope well formed, past the draft its revision has a snapshot, while pending that snapshot
      is its submitter's, and when approved so is the snapshot. */
  ghost predicate Backed(db: Db, e: Entry) {
    var key := (e.id, e.revision);
    && Disciplined(e.scope.key, e.content) && ScopeOk(e.scope)
    && (e.status != Draft ==> key in db.revisions)
    && (e.status == PendingApproval ==> db.revisions[key].createdBy == e.updatedBy)
    && (e.status == Approved ==> db.revisions[key].status == Approved)
  }

  /** Snapshots are permanent, so what they back stays backed. */
  lemma BackedForever(a: Db, b: Db, e: Entry)
    requires Backed(a, e) && SnapshotsEvolve(a, b)
    ensures Backed(b, e)
  {
    hide Disciplined;
  }

  /** Some snapshot of the entry was approved with this content. */
  ghost predicate Sourced(db: Db, id: string, c: Content) {
    exists r: int :: ApprovedWith(db, id, r, c)
  }

  ghost predicate SnapshotBacked(db: Db, k: (string, int))
    requires k in db.revisions
  {
    && k.0 in db.entries
    && SnapshotOk(db.entries[k.0].scope.key, db.revisions[k])
    && (db.revisions[k].status == Published ==> Sourced(db, k.0, db.revisions[k].content))
  }

  ghost predicate Grounded(db: Db) {
    && Constraints(db)
    && (forall id :: id in db.entries ==> Backed(db, db.entries[id]))
    && (forall k :: k in db.revisions ==> SnapshotBacked(db, k))
    && LogOk(db)
  }

  lemma SourcedForever(a: Db, b: Db, id: string, c: Content)
    requires Sourced(a, id, c) && SnapshotsEvolve(a, b)
    ensures Sourced(b, id, c)
  {
    var r :| ApprovedWith(a, id, r, c);
    assert (id, r) in a.revisions;
    assert ApprovedWith(b, id, r, c);
  }

  /** A snapshot an effect may write: sound, and with an approved source when it is born published. */
  ghost predicate Presentable(db: Db, eff: Effect) {
    eff.snapshot.Some? ==>
      && SnapshotOk(eff.row.scope.key, eff.snapshot.value)
      && (eff.snapshot.value.status == Published ==> Sourced(db, eff.row.id, eff.snapshot.value.content))
  }

  lemma SnapshotsStayBacked(db: Db, eff: Effect, k: (string, int))
    requires Grounded(db) && Evolves(db, Apply(db, eff)) && Presentable(db, eff) && k in Apply(db, eff).revisions
    ensures SnapshotBacked(Apply(db, eff), k)
  {
    hide Disciplined, Backed, Constraints, Sourced;
    var db' := Apply(db, eff);
    if eff.snapshot.Some? && k == (eff.row.id, eff.row.revision) {
      if eff.snapshot.value.status == Published { SourcedForever(db, db', k.0, eff.snapshot.value.content); }
    } else {
      assert SnapshotBacked(db, k);
      if db.revisions[k].status == Published { SourcedForever(db, db', k.0, db.revisions[k].content); }
    }
  }

  lemma GroundedKeeps(db: Db, eff: Effect)
    requires Grounded(db) && Evolves(db, Apply(db, eff)) && Constraints(Apply(db, eff))
    requires Backed(Apply(db, eff), eff.row) && Presentable(db, eff) && Fits(db, eff)
    ensures Grounded(Apply(db, eff))
  {
    hide Disciplined, Constraints, EntriesEvolve, SnapshotsEvolve, SnapshotBacked, Presentable, Fits, LogOk;
    var db' := Apply(db, eff);
    forall id | id in db'.entries ensures Backed(db', db'.entries[id]) {
      if id != eff.row.id { BackedForever(db, db', db.entries[id]); }
    }
    forall k | k in db'.revisions ensures SnapshotBacked(db', k) {
      SnapshotsStayBacked(db, eff, k);
    }
    LogKeeps(db, eff);
  }

  /** A session whose copy of the entry is backed. */
  ghost predicate Rooted(db: Db, s: Session) {
    Stable(db, s) && (s.Loaded? && s.current.Found? ==> Backed(db, s.current.value))
  }

  lemma RootedReadsDisciplined(db: Db, s: Session)
    requires Grounded(db) && s.Loaded? && Rooted(db, s)
    ensures ReadsDisciplined(s)
  {
    hide Disciplined, Constraints, Normalize;
    if s.current.Found? && s.req.Rollback? && s.target.Found? {
      assert SnapshotBacked(db, (s.req.id, s.req.target));
    }
  }

  /** The effect of a commit on what a rooted session read leaves a backed row. */
  lemma CommitIsBacked(db: Db, s: Session)
    requires Grounded(db) && s.Loaded? && Rooted(db, s) && Admitted(db, s)
    ensures Backed(Apply(db, CommitEffect(db, s)), CommitEffect(db, s).row)
  {
    hide Disciplined, Authorize, Normalize, Acceptable, TrimSpace, Constraints, SnapshotBacked, Stable;
    RootedReadsDisciplined(db, s);
    if s.req.PutDraft? {
      AcceptableIsDisciplined(Normalize(s.req.value));
      if s.current.Found? { RootedIsStable(db, s); DraftScope(db, s); }
    }
  }

  lemma DraftScope(db: Db, s: Session)
    requires s.Loaded? && Stable(db, s) && s.req.PutDraft? && s.current.Found?
    ensures s.current.value.scope == Normalize(s.req.value).scope
  {
    hide Normalize;
  }

  /** Who decides is never who submitted: the snapshot's creator is the last updater the session read. */
  lemma CommitIsPresentable(db: Db, s: Session)
    requires Grounded(db) && s.Loaded? && Rooted(db, s) && Admitted(db, s)
    ensures Presentable(db, CommitEffect(db, s))
  {
    hide Disciplined, Authorize, Normalize, Acceptable, TrimSpace, Constraints, Sourced;
    RootedReadsDisciplined(db, s);
    if s.current.Found? {
      var e := Seen(s);
      if s.req.Approve? || s.req.Reject? {
        assert SnapshotBacked(db, (e.id, e.revision));
      } else if s.req.Rollback? {
        TargetIsSourced(db, s);
      }
    }
  }

  lemma TargetIsSourced(db: Db, s: Session)
    requires Grounded(db) && s.Loaded? && Stable(db, s) && s.req.Rollback? && s.current.Found? && s.target.Found?
    requires s.target.value.status in {Approved, Published}
    ensures Sourced(db, s.current.value.id, s.target.value.content)
  {
    hide Disciplined, Backed, Constraints;
    var k := (s.req.id, s.req.target);
    assert SnapshotBacked(db, k);
    if s.target.value.status == Approved {
      assert ApprovedWith(db, k.0, k.1, s.target.value.content);
    }
  }

  lemma CommitFits(db: Db, s: Session)
    requires s.Loaded? && Stable(db, s) && Admitted(db, s)
    ensures Fits(db, CommitEffect(db, s)) && Contributes(db, CommitEffect(db, s), KindOf(s.req))
  {
    hide Authorize, Normalize, Acceptable, TrimSpace, ScopeTaken, UuidShape;
  }

  /** One commit, however stale, keeps the tables grounded. */
  lemma CommitKeepsGrounded(db: Db, s: Session, faults: set<Site>)
    requires Grounded(db) && s.Loaded? && Rooted(db, s)
    requires var r := Settled(db, s, faults); Evolves(db, r.db) && Constraints(r.db)
    ensures Grounded(Settled(db, s, faults).db)
  {
    hide Grounded, Rooted, Settled, Evolves, Constraints, Admitted, CommitEffect, Apply, Backed, Presentable, Stable,
      ReadsDisciplined, Fits, Contributes;
    assert Stable(db, s) && ReadsDisciplined(s) by { RootedIsStable(db, s); RootedReadsDisciplined(db, s); }
    CommitStoresItsEffect(db, s, faults);
    if Settled(db, s, faults).reply.Ok? {
      CommitIsBacked(db, s);
      CommitIsPresentable(db, s);
      CommitFits(db, s);
      GroundedKeeps(db, CommitEffect(db, s));
    } else {
      FailedSettle(db, s, faults);
    }
  }

  lemma RootedIsStable(db: Db, s: Session)
    requires Rooted(db, s)
    ensures Stable(db, s)
  {
    hide Stable, Backed;
  }

  ghost predicate AllRooted(sys: System) {
    forall c :: c in sys.sessions ==> Rooted(sys.world.db, sys.sessions[c])
  }

  ghost predicate GroundedSystem(sys: System) {
    Grounded(sys.world.db) && AllRooted(sys)
  }

  lemma GroundedConstraints(db: Db)
    requires Grounded(db)
    ensures Constraints(db)
  {
    hide Constraints, Backed, SnapshotBacked, Disciplined;
  }

  lemma LoadIsBacked(db: Db, req: Request)
    requires Grounded(db)
    ensures var current := ReadEntry(db, req); current.Found? ==> Backed(db, current.value)
  {
    hide Constraints, Backed, SnapshotBacked, Disciplined, Normalize;
  }

  lemma NextKeepsRooted(sys: System, a: Action)
    requires GroundedSystem(sys)
    ensures AllRooted(Next(sys, a))
  {
    hide Grounded, Stable, Backed, Settled, ReadEntry, ReadTarget, Constraints, EntriesEvolve, SnapshotsEvolve;
    var db, next := sys.world.db, Next(sys, a);
    GroundedConstraints(db);
    NextKeepsStable(sys, a);
    NextEvolves(sys, a);
    forall c | c in next.sessions ensures Rooted(next.world.db, next.sessions[c]) {
      var s := SessionOf(sys, c);
      if c in sys.sessions && s.Loaded? && s.current.Found? { BackedForever(db, next.world.db, s.current.value); }
      if c == a.client && a.Load? && s.Invoked? { LoadIsBacked(db, s.req); }
    }
  }

  lemma NextKeepsGrounded(sys: System, a: Action)
    requires GroundedSystem(sys)
    ensures GroundedSystem(Next(sys, a))
  {
    hide Grounded, Rooted, Settled, Constraints, Evolves;
    GroundedConstraints(sys.world.db);
    NextEvolves(sys, a);
    NextKeepsRooted(sys, a);
    var s := SessionOf(sys, a.client);
    if a.Finish? && s.Loaded? {
      CommitKeepsGrounded(sys.world.db, s, a.faults);
    }
  }

  lemma {:induction false} ExecuteKeepsGrounded(sys: System, actions: seq<Action>)
    requires GroundedSystem(sys)
    ensures GroundedSystem(Execute(sys, actions))
    decreases |actions|
  {
    hide GroundedSystem, Next;
    if actions != [] {
      NextKeepsGrounded(sys, actions[0]);
      ExecuteKeepsGrounded(Next(sys, actions[0]), actions[1..]);
    }
  }

  lemma AlwaysGrounded(actions: seq<Action>)
    ensures GroundedSystem(Execute(INITIAL, actions))
  {
    hide Execute;
    ExecuteKeepsGrounded(INITIAL, actions);
  }

  // ----- consequences for single commits -----

  /** What a commit owes to its request: a scope its caller is allowed, the draft as normalised, the comment as
      trimmed. */
  ghost predicate Conforms(c: Commit) {
    && Allowed(c.op.ctx, c.reply.scope)
    && (match c.op.req
        case PutDraft(value, _) =>
          var v := Normalize(value); Acceptable(v) && c.reply.scope == v.scope && c.reply.content == v.content
        case Approve(_, _, comment) => c.reply.review == Review(TrimSpace(comment), Actor(c.op.ctx))
        case Reject(_, _, comment) =>
          TrimSpace(comment) != "" && c.reply.review == Review(TrimSpace(comment), Actor(c.op.ctx))
        case _ => true)
  }

  lemma CommitConforms(db: Db, s: Session, faults: set<Site>, created: bool)
    requires Grounded(db) && s.Loaded? && Rooted(db, s) && Settled(db, s, faults).reply.Ok?
    ensures Conforms(Commit(Intent(s), Settled(db, s, faults).reply.value, created))
  {
    hide Grounded, Settled, Allowed, Normalize, Acceptable, Backed, ReadsDisciplined, TrimSpace, ScopeTaken;
    RootedReadsDisciplined(db, s);
    CommitStoresItsEffect(db, s, faults);
  }

  ghost predicate LogConforms(log: seq<Commit>) {
    forall i :: 0 <= i < |log| ==> Conforms(log[i]) && Tidy(log[i].reply.scope)
  }

  ghost predicate AllTidy(db: Db) {
    forall id :: id in db.entries ==> Tidy(db.entries[id].scope)
  }

  /** Only a create names an entry. */
  lemma CommitKeepsTidy(db: Db, s: Session, faults: set<Site>)
    requires Grounded(db) && s.Loaded? && Rooted(db, s) && AllTidy(db)
    ensures var r := Settled(db, s, faults); AllTidy(r.db) && (r.reply.Ok? ==> Tidy(r.reply.value.scope))
  {
    hide Grounded, Settled, Stable, Admitted, CommitEffect, Backed, ReadsDisciplined, ScopeTaken, UuidShape, Tidy,
      Contributes;
    RootedReadsDisciplined(db, s);
    CommitStoresItsEffect(db, s, faults);
    FailedUnlessOk(db, s, faults);
    if Settled(db, s, faults).reply.Ok? {
      CommitFits(db, s);
      assert CommitEffect(db, s).row.id in db.entries || Tidy(CommitEffect(db, s).row.scope) by { CreateIsTidy(db, s); }
    }
  }

  lemma CreateIsTidy(db: Db, s: Session)
    requires s.Loaded? && Stable(db, s) && Admitted(db, s)
    ensures CommitEffect(db, s).row.id in db.entries || Tidy(CommitEffect(db, s).row.scope)
  {
    hide Allowed, Normalize, Acceptable, TrimSpace, ScopeTaken, Tidy, StoredAs, ContentStoredAs;
    if s.current.Missing? {
      NormalizeExactly(s.req.value, s.req.value.scope, s.req.value.content);
    }
  }

  /** Along every run, each commit conforms to its request and every stored name is tidy. */
  lemma {:induction false} ExecuteConforms(sys: System, actions: seq<Action>)
    requires GroundedSystem(sys) && LogConforms(sys.world.log) && AllTidy(sys.world.db)
    ensures var end := Execute(sys, actions).world; LogConforms(end.log) && AllTidy(end.db)
    decreases |actions|
  {
    hide Grounded, Rooted, Settled, Conforms, AllTidy, Tidy;
    if actions != [] {
      var a := actions[0];
      var s := SessionOf(sys, a.client);
      if a.Finish? && s.Loaded? {
        CommitKeepsTidy(sys.world.db, s, a.faults);
        if Settled(sys.world.db, s, a.faults).reply.Ok? {
          CommitConforms(sys.world.db, s, a.faults, s.req.PutDraft? && s.current.Missing?);
        }
      }
      NextKeepsGrounded(sys, a);
      ExecuteConforms(Next(sys, a), actions[1..]);
    }
  }

  lemma AlwaysConforms(actions: seq<Action>)
    ensures var end := Execute(INITIAL, actions).world; LogConforms(end.log) && AllTidy(end.db)
  {
    hide Execute;
    assert GroundedSystem(INITIAL);
    ExecuteConforms(INITIAL, actions);
  }

  /** One commit, however stale, keeps the accounts of version, snapshots and events. */
  lemma CommitAccounts(w: World, s: Session, faults: set<Site>, created: bool)
    requires Grounded(w.db) && Accounted(w) && s.Loaded? && Rooted(w.db, s)
    ensures Accounted(Record(w, Intent(s), created, Settled(w.db, s, faults)))
  {
    hide Settled, Admitted, CommitEffect, Stable, ReadsDisciplined, Backed, SnapshotBacked, LogOk, Fits, Contributes,
      Accounted, Constraints;
    RootedReadsDisciplined(w.db, s);
    CommitStoresItsEffect(w.db, s, faults);
    FailedUnlessOk(w.db, s, faults);
    if Settled(w.db, s, faults).reply.Ok? {
      CommitFits(w.db, s);
      assert Keyed(w.db) by { ConstraintsKeyed(w.db); }
      AccountsKeep(w, CommitEffect(w.db, s), Commit(Intent(s), Settled(w.db, s, faults).reply.value, created));
    }
  }

  lemma {:induction false} ExecuteKeepsAccounts(sys: System, actions: seq<Action>)
    requires GroundedSystem(sys) && Accounted(sys.world)
    ensures Accounted(Execute(sys, actions).world)
    decreases |actions|
  {
    hide Grounded, Rooted, Settled, Accounted, Record;
    if actions != [] {
      var a := actions[0];
      var s := SessionOf(sys, a.client);
      if a.Finish? && s.Loaded? {
        CommitAccounts(sys.world, s, a.faults, s.req.PutDraft? && s.current.Missing?);
      }
      NextKeepsGrounded(sys, a);
      ExecuteKeepsAccounts(Next(sys, a), actions[1..]);
    }
  }

  /** The snapshot of a rejected revision is permanent, so a session that read a rejected row never commits a
      submission. */
  lemma RejectedIsNeverSubmitted(db: Db, s: Session, faults: set<Site>)
    requires Grounded(db) && s.Loaded? && Rooted(db, s)
    requires s.req.Submit? && s.current.Found? && s.current.value.status == Rejected
    ensures Settled(db, s, faults).reply.Err? && Settled(db, s, faults).db == db
  {
    hide Grounded, Settled, Allowed, Stable, Disciplined, ReadsDisciplined;
    RootedReadsDisciplined(db, s);
    CommitStoresItsEffect(db, s, faults);
    FailedUnlessOk(db, s, faults);
  }

  lemma FailedUnlessOk(db: Db, s: Session, faults: set<Site>)
    requires s.Loaded?
    ensures Settled(db, s, faults).reply.Ok? || Settled(db, s, faults).db == db
  {
    hide Plan;
  }

  // ----- pending rows, and what a version pins down -----

  /** A pending row has a pending snapshot: only a submission makes a row pending, with a fresh snapshot, and every
      decision moves the row in the same transaction. */
  ghost predicate PendingOk(db: Db, id: string)
    requires id in db.entries
  {
    var key := (id, db.entries[id].revision);
    db.entries[id].status == PendingApproval ==> key in db.revisions && db.revisions[key].status == PendingApproval
  }

  ghost predicate AllPendingOk(db: Db) {
    forall id :: id in db.entries ==> PendingOk(db, id)
  }

  /** A version pins an entry down with its whole history: as long as it is the same, so are the row and all its
      snapshots. */
  ghost predicate TiedAt(a: Db, b: Db, id: string)
    requires id in a.entries
  {
    && id in b.entries && a.entries[id].version <= b.entries[id].version
    && (a.entries[id].version == b.entries[id].version ==>
          && b.entries[id] == a.entries[id]
          && (forall r: int :: (id, r) in a.revisions <==> (id, r) in b.revisions)
          && (forall r: int :: (id, r) in a.revisions ==> b.revisions[(id, r)] == a.revisions[(id, r)]))
  }

  ghost predicate Tied(a: Db, b: Db) {
    forall id :: id in a.entries ==> TiedAt(a, b, id)
  }

  lemma TiedReflexive(db: Db)
    ensures Tied(db, db)
  {
  }

  lemma TiedTransitive(a: Db, b: Db, c: Db)
    requires Tied(a, b) && Tied(b, c)
    ensures Tied(a, c)
  {
    forall id | id in a.entries ensures TiedAt(a, c, id) {
      assert TiedAt(a, b, id) && TiedAt(b, c, id);
    }
  }

  lemma CommitTies(db: Db, s: Session)
    requires s.Loaded? && Stable(db, s) && Admitted(db, s)
    ensures Tied(db, Apply(db, CommitEffect(db, s)))
    ensures AllPendingOk(db) ==> AllPendingOk(Apply(db, CommitEffect(db, s)))
  {
    hide Admitted, CommitEffect, Stable, ScopeTaken, UuidShape, Contributes;
    CommitFits(db, s);
    CommitPends(db, s);
    var eff := CommitEffect(db, s);
    forall id | id in db.entries ensures TiedAt(db, Apply(db, eff), id) {}
    if AllPendingOk(db) {
      forall id | id in Apply(db, eff).entries ensures PendingOk(Apply(db, eff), id) {
        if id != eff.row.id { assert PendingOk(db, id); }
      }
    }
  }

  /** Only a submission leaves a pending row, and it brings the pending snapshot. */
  lemma CommitPends(db: Db, s: Session)
    requires s.Loaded? && Admitted(db, s)
    ensures var eff := CommitEffect(db, s);
      eff.row.status == PendingApproval ==> eff.snapshot.Some? && eff.snapshot.value.status == PendingApproval
  {
    hide Authorize, Normalize, Acceptable, TrimSpace;
  }

  lemma NextTies(sys: System, a: Action)
    requires GroundedSystem(sys) && AllPendingOk(sys.world.db)
    ensures Tied(sys.world.db, Next(sys, a).world.db) && AllPendingOk(Next(sys, a).world.db)
  {
    hide Grounded, Rooted, Settled, Admitted, CommitEffect, Apply, Tied, AllPendingOk, Stable, ReadsDisciplined;
    var db, s := sys.world.db, SessionOf(sys, a.client);
    TiedReflexive(db);
    if a.Finish? && s.Loaded? {
      RootedIsStable(db, s);
      RootedReadsDisciplined(db, s);
      CommitStoresItsEffect(db, s, a.faults);
      FailedUnlessOk(db, s, a.faults);
      if Settled(db, s, a.faults).reply.Ok? { CommitTies(db, s); }
    }
  }

  lemma {:induction false} ExecuteTies(sys: System, actions: seq<Action>)
    requires GroundedSystem(sys) && AllPendingOk(sys.world.db)
    ensures var end := Execute(sys, actions).world.db; Tied(sys.world.db, end) && AllPendingOk(end)
    decreases |actions|
  {
    hide GroundedSystem, Next, Tied, AllPendingOk;
    if actions == [] {
      TiedReflexive(sys.world.db);
    } else {
      var next := Next(sys, actions[0]);
      NextTies(sys, actions[0]);
      NextKeepsGrounded(sys, actions[0]);
      ExecuteTies(next, actions[1..]);
      TiedTransitive(sys.world.db, next.world.db, Execute(sys, actions).world.db);
    }
  }

  lemma AlwaysPendingOk(actions: seq<Action>)
    ensures AllPendingOk(Execute(INITIAL, actions).world.db)
  {
    hide Execute;
    assert GroundedSystem(INITIAL);
    ExecuteTies(INITIAL, actions);
  }

  // ----- publication, when creates claim none -----

  /** The revision an entry, or a stale copy of one, gives as published was approved or made by a rollback. */
  ghost predicate Vouched(db: Db, e: Entry) {
    e.published > 0 ==>
      (e.id, e.published) in db.revisions && db.revisions[(e.id, e.published)].status in {Approved, Published}
  }

  lemma VouchedForever(a: Db, b: Db, e: Entry)
    requires Vouched(a, e) && SnapshotsEvolve(a, b)
    ensures Vouched(b, e)
  {
  }

  ghost predicate SessionVouched(db: Db, s: Session) {
    Modest(s) && (s.Loaded? && s.current.Found? ==> Vouched(db, s.current.value))
  }

  ghost predicate VouchedSystem(sys: System) {
    && GroundedSystem(sys)
    && (forall id :: id in sys.world.db.entries ==> Vouched(sys.world.db, sys.world.db.entries[id]))
    && (forall c :: c in sys.sessions ==> SessionVouched(sys.world.db, sys.sessions[c]))
  }

  lemma CommitIsVouched(db: Db, s: Session)
    requires s.Loaded? && Rooted(db, s) && Admitted(db, s) && SessionVouched(db, s)
    requires SnapshotsEvolve(db, Apply(db, CommitEffect(db, s)))
    ensures Vouched(Apply(db, CommitEffect(db, s)), CommitEffect(db, s).row)
  {
    hide Disciplined, Authorize, Normalize, Acceptable, TrimSpace, Stable, SnapshotsEvolve, ScopeTaken;
    var db' := Apply(db, CommitEffect(db, s));
    if s.current.Found? {
      VouchedForever(db, db', s.current.value);
    } else {
      NormalizeKeepsPublished(s.req.value);
    }
  }

  lemma CommitKeepsVouched(db: Db, s: Session, faults: set<Site>)
    requires Grounded(db) && s.Loaded? && Rooted(db, s) && SessionVouched(db, s)
    requires forall id :: id in db.entries ==> Vouched(db, db.entries[id])
    requires SnapshotsEvolve(db, Settled(db, s, faults).db)
    ensures var db' := Settled(db, s, faults).db; forall id :: id in db'.entries ==> Vouched(db', db'.entries[id])
  {
    hide Grounded, Rooted, Settled, Admitted, CommitEffect, Vouched, SessionVouched, SnapshotsEvolve, Stable,
      ReadsDisciplined;
    RootedIsStable(db, s);
    RootedReadsDisciplined(db, s);
    CommitStoresItsEffect(db, s, faults);
    FailedUnlessOk(db, s, faults);
    var db' := Settled(db, s, faults).db;
    if Settled(db, s, faults).reply.Ok? {
      var eff := CommitEffect(db, s);
      CommitIsVouched(db, s);
      forall id | id in db'.entries ensures Vouched(db', db'.entries[id]) {
        if id != eff.row.id { VouchedForever(db, db', db.entries[id]); }
      }
    }
  }

  lemma NextKeepsSessionsVouched(sys: System, a: Action)
    requires VouchedSystem(sys) && Unclaiming(sys, a)
    ensures var next := Next(sys, a); forall c :: c in next.sessions ==> SessionVouched(next.world.db, next.sessions[c])
  {
    hide Grounded, Rooted, Vouched, Modest, Settled, ReadEntry, ReadTarget, Constraints, EntriesEvolve, SnapshotsEvolve,
      Unclaiming;
    var db, next := sys.world.db, Next(sys, a);
    GroundedConstraints(db);
    NextEvolves(sys, a);
    NextKeepsModest(sys, a);
    forall c | c in next.sessions ensures SessionVouched(next.world.db, next.sessions[c]) {
      var s := SessionOf(sys, c);
      if c in sys.sessions && s.Loaded? && s.current.Found? { VouchedForever(db, next.world.db, s.current.value); }
      if c == a.client && a.Load? && s.Invoked? { LoadIsVouched(db, s.req); }
    }
  }

  lemma LoadIsVouched(db: Db, req: Request)
    requires forall id :: id in db.entries ==> Vouched(db, db.entries[id])
    ensures var current := ReadEntry(db, req); current.Found? ==> Vouched(db, current.value)
  {
    hide Vouched, Normalize;
  }

  lemma NextKeepsVouched(sys: System, a: Action)
    requires VouchedSystem(sys) && Unclaiming(sys, a)
    ensures VouchedSystem(Next(sys, a))
  {
    hide Grounded, Rooted, Vouched, SessionVouched, Settled, Constraints, EntriesEvolve, SnapshotsEvolve, Unclaiming;
    GroundedConstraints(sys.world.db);
    NextEvolves(sys, a);
    NextKeepsGrounded(sys, a);
    NextKeepsSessionsVouched(sys, a);
    var s := SessionOf(sys, a.client);
    if a.Finish? && s.Loaded? {
      CommitKeepsVouched(sys.world.db, s, a.faults);
    }
  }

  lemma {:induction false} ExecuteKeepsVouched(sys: System, actions: seq<Action>)
    requires VouchedSystem(sys) && AllUnclaiming(sys, actions)
    ensures VouchedSystem(Execute(sys, actions))
    decreases |actions|
  {
    hide VouchedSystem, Next, Unclaiming;
    if actions != [] {
      NextKeepsVouched(sys, actions[0]);
      ExecuteKeepsVouched(Next(sys, actions[0]), actions[1..]);
    }
  }

  lemma UnclaimingIsVouched(actions: seq<Action>)
    requires AllUnclaiming(INITIAL, actions)
    ensures VouchedSystem(Execute(INITIAL, actions))
  {
    hide Execute, AllUnclaiming;
    ExecuteKeepsVouched(INITIAL, actions);
  }
}
