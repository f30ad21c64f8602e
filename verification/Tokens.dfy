/** At most one effect per token, in every interleaved run, whatever tokens the clients send. */
module Tokens {
  import opened Model
  import opened Tables
  import opened Workflow
  import opened Runs
  import opened Interleaving
  import opened Refinement

  /** What the tables still show of a commit: its version is not above the row's, its scope is the row's, and a
      commit that was not a create raised the version from its token. */
  ghost predicate Traced(db: Db, c: Commit) {
    && c.reply.id in db.entries
    && c.reply.version <= db.entries[c.reply.id].version
    && (if c.created then c.reply.version == 1 else c.reply.version == c.op.req.expected + 1)
    && (c.op.req.PutDraft? ==> db.entries[c.reply.id].scope == Normalize(c.op.req.value).scope)
    && (c.created ==> c.op.req.PutDraft?)
    && (!c.op.req.PutDraft? ==> c.reply.id == c.op.req.id)
  }

  /** Of two commits on one entry, the later one answered the higher version; a later create found its scope free. */
  ghost predicate Ordered(a: Commit, b: Commit) {
    && (a.reply.id == b.reply.id ==> a.reply.version < b.reply.version)
    && (b.created && a.op.req.PutDraft? && b.op.req.PutDraft?
        ==> Normalize(a.op.req.value).scope != Normalize(b.op.req.value).scope)
  }

  ghost predicate LogTraced(w: World) {
    forall i :: 0 <= i < |w.log| ==> Traced(w.db, w.log[i])
  }

  ghost predicate LogOrdered(log: seq<Commit>) {
    forall i, j :: 0 <= i < j < |log| ==> Ordered(log[i], log[j])
  }

  lemma TracedEvolves(a: Db, b: Db, c: Commit)
    requires Traced(a, c) && Evolves(a, b)
    ensures Traced(b, c)
  {
    hide Normalize;
  }

  /** The commit of a session is traced, and ordered after everything traced before it. */
  lemma CommitIsTraced(db: Db, s: Session, faults: set<Site>)
    requires s.Loaded? && Stable(db, s) && Settled(db, s, faults).reply.Ok?
    requires Evolves(db, Settled(db, s, faults).db)
    ensures var r := Settled(db, s, faults);
      Traced(r.db, Commit(Intent(s), r.reply.value, s.req.PutDraft? && s.current.Missing?))
  {
    hide Normalize, Settled;
    CommitGuard(db, s, faults);
  }

  lemma CommitIsOrdered(db: Db, a: Commit, s: Session, faults: set<Site>)
    requires s.Loaded? && Stable(db, s) && Settled(db, s, faults).reply.Ok? && Traced(db, a)
    ensures var r := Settled(db, s, faults);
      Ordered(a, Commit(Intent(s), r.reply.value, s.req.PutDraft? && s.current.Missing?))
  {
    hide Normalize, Settled;
    CommitGuard(db, s, faults);
  }

  lemma NextKeepsLog(sys: System, a: Action)
    requires Constraints(sys.world.db) && AllStable(sys) && LogTraced(sys.world) && LogOrdered(sys.world.log)
    ensures var next := Next(sys, a).world; LogTraced(next) && LogOrdered(next.log)
  {
    hide Constraints, Stable, Settled, Evolves, Traced, Ordered;
    var db, next := sys.world.db, Next(sys, a).world;
    NextEvolves(sys, a);
    forall i | 0 <= i < |sys.world.log| ensures Traced(next.db, sys.world.log[i]) {
      TracedEvolves(db, next.db, sys.world.log[i]);
    }
    var s := SessionOf(sys, a.client);
    if a.Finish? && s.Loaded? && Settled(db, s, a.faults).reply.Ok? {
      CommitIsTraced(db, s, a.faults);
      forall i | 0 <= i < |sys.world.log| ensures Ordered(sys.world.log[i], next.log[|sys.world.log|]) {
        CommitIsOrdered(db, sys.world.log[i], s, a.faults);
      }
    }
  }

  lemma {:induction false} ExecuteKeepsLog(sys: System, actions: seq<Action>)
    requires Constraints(sys.world.db) && AllStable(sys) && LogTraced(sys.world) && LogOrdered(sys.world.log)
    ensures var end := Execute(sys, actions).world; LogTraced(end) && LogOrdered(end.log) && ScopesUnique(end.db)
    decreases |actions|
  {
    hide Next, LogTraced, LogOrdered, AllStable;
    if actions != [] {
      NextEvolves(sys, actions[0]);
      NextKeepsStable(sys, actions[0]);
      NextKeepsLog(sys, actions[0]);
      ExecuteKeepsLog(Next(sys, actions[0]), actions[1..]);
    }
  }

  /** In every interleaved run: two commits on one entry never share a token, the later one having the higher;
      and a scope is created at most once. */
  lemma TokenTakesEffectOnce(actions: seq<Action>, i: nat, j: nat)
    requires i < j < |Execute(INITIAL, actions).world.log|
    ensures var log := Execute(INITIAL, actions).world.log;
      && (log[i].reply.id == log[j].reply.id && !log[i].created && !log[j].created
          ==> log[i].op.req.expected < log[j].op.req.expected)
      && (log[i].created && log[j].created
          ==> log[i].op.req.PutDraft? && log[j].op.req.PutDraft?
              && Normalize(log[i].op.req.value).scope != Normalize(log[j].op.req.value).scope)
  {
    hide Execute, Normalize;
    InitialIsStable();
    ExecuteKeepsLog(INITIAL, actions);
    var w := Execute(INITIAL, actions).world;
    assert Traced(w.db, w.log[i]) && Traced(w.db, w.log[j]) && Ordered(w.log[i], w.log[j]);
  }

  /** A request repeated blindly: the only way to commit twice is a draft whose first attempt created the entry
      and whose token, ignored by that create, then came to match the row. */
  lemma RepeatedRequest(actions: seq<Action>, i: nat, j: nat)
    requires i < j < |Execute(INITIAL, actions).world.log|
    requires var log := Execute(INITIAL, actions).world.log; log[i].op.req == log[j].op.req
    ensures var log := Execute(INITIAL, actions).world.log;
      && log[i].op.req.PutDraft? && log[i].created && !log[j].created && log[i].op.req.expected >= 1
      && log[i].reply.id == log[j].reply.id
  {
    hide Execute, Normalize;
    InitialIsStable();
    ExecuteKeepsLog(INITIAL, actions);
    var w := Execute(INITIAL, actions).world;
    assert Traced(w.db, w.log[i]) && Traced(w.db, w.log[j]) && Ordered(w.log[i], w.log[j]);
  }
}
