/** Many clients at once: each reads, decides and later commits, with any steps of the others in between. */
module Interleaving {
  import opened Model
  import opened Tables
  import opened Workflow
  import opened Preservation
  import opened Runs

  /** How far a client has come with its request, and what it has read so far. A rollback reads its target
      revision before the entry. */
  datatype Session =
    | Idle
    | Invoked(req: Request, ctx: Context, target: Read<Snapshot>)
    | Loaded(req: Request, ctx: Context, target: Read<Snapshot>, current: Read<Entry>)

  datatype System = System(world: World, sessions: map<nat, Session>)

  const INITIAL := System(START, map[])

  /** One step of one client. A lost read fails; a finish decides and runs the transaction, which the given
      faults may hit. */
  datatype Action =
    | Invoke(client: nat, req: Request, ctx: Context, lost: bool)
    | Load(client: nat, lost: bool)
    | Finish(client: nat, faults: set<Site>)

  function SessionOf(sys: System, client: nat): Session {
    if client in sys.sessions then sys.sessions[client] else Idle
  }

  /** The request as it is logged: once it has committed, no fault was in its way. */
  function Intent(s: Session): Op
    requires !s.Idle?
  {
    Op(s.req, s.ctx, {})
  }

  function Settled(db: Db, s: Session, faults: set<Site>): Outcome
    requires s.Loaded?
  {
    Settle(db, Plan(s.req, s.ctx, s.target, s.current), faults)
  }

  /** A step that does not apply to the client's session changes nothing. */
  ghost function Next(sys: System, a: Action): System {
    var s := SessionOf(sys, a.client);
    var db := sys.world.db;
    match a
    case Invoke(c, req, ctx, lost) =>
      sys.(sessions := sys.sessions[c := Invoked(req, ctx, if lost then Failed else ReadTarget(db, req))])
    case Load(c, lost) =>
      if !s.Invoked? then sys
      else
        var current := if lost then Failed else ReadEntry(db, s.req);
        sys.(sessions := sys.sessions[c := Loaded(s.req, s.ctx, s.target, current)])
    case Finish(c, faults) =>
      if !s.Loaded? then sys
      else System(Record(sys.world, Intent(s), s.req.PutDraft? && s.current.Missing?, Settled(db, s, faults)),
                  sys.sessions[c := Idle])
  }

  ghost function Execute(sys: System, actions: seq<Action>): System
    decreases |actions|
  {
    if actions == [] then sys else Execute(Next(sys, actions[0]), actions[1..])
  }

  /** The client's token is one it has observed: not above the version the request reads. */
  ghost predicate Observed(sys: System, a: Action) {
    var s := SessionOf(sys, a.client);
    a.Load? && !a.lost && s.Invoked? ==>
      var current := ReadEntry(sys.world.db, s.req);
      current.Found? ==> s.req.expected <= current.value.version
  }

  ghost predicate AllObserved(sys: System, actions: seq<Action>)
    decreases |actions|
  {
    actions == [] || (Observed(sys, actions[0]) && AllObserved(Next(sys, actions[0]), actions[1..]))
  }

  /** A draft that finds its scope free, and so sets out to create, claims no published revision. */
  ghost predicate Unclaiming(sys: System, a: Action) {
    var s := SessionOf(sys, a.client);
    a.Load? && !a.lost && s.Invoked? ==> Clean(sys.world.db, s.req)
  }

  ghost predicate AllUnclaiming(sys: System, actions: seq<Action>)
    decreases |actions|
  {
    actions == [] || (Unclaiming(sys, actions[0]) && AllUnclaiming(Next(sys, actions[0]), actions[1..]))
  }

  lemma {:induction false} ExecuteAppend(sys: System, a: seq<Action>, b: seq<Action>)
    ensures Execute(sys, a + b) == Execute(Execute(sys, a), b)
    ensures AllObserved(sys, a + b) <==> AllObserved(sys, a) && AllObserved(Execute(sys, a), b)
    ensures AllUnclaiming(sys, a + b) <==> AllUnclaiming(sys, a) && AllUnclaiming(Execute(sys, a), b)
    decreases |a|
  {
    hide Next, Observed, Unclaiming;
    if a == [] {
      assert a + b == b;
    } else {
      assert (a + b)[1..] == a[1..] + b;
      ExecuteAppend(Next(sys, a[0]), a[1..], b);
    }
  }

  // ----- what a session may rely on -----

  /** What was read is still there, or has been superseded visibly: the row under a higher version, a pending
      snapshot by its decision. */
  ghost predicate TargetStable(db: Db, req: Request, target: Read<Snapshot>) {
    target.Found? && req.Rollback? ==>
      && (req.id, req.target) in db.revisions
      && SnapshotEvolves(target.value, db.revisions[(req.id, req.target)])
  }

  ghost predicate CurrentStable(db: Db, req: Request, current: Read<Entry>) {
    current.Found? ==>
      && current.value.id in db.entries
      && RowEvolves(current.value, db.entries[current.value.id])
      && (if req.PutDraft? then current.value.scope == Normalize(req.value).scope else current.value.id == req.id)
  }

  ghost predicate Stable(db: Db, s: Session) {
    && (!s.Idle? ==> TargetStable(db, s.req, s.target))
    && (s.Loaded? ==> CurrentStable(db, s.req, s.current))
  }

  lemma StableEvolves(a: Db, b: Db, s: Session)
    requires Stable(a, s) && Evolves(a, b)
    ensures Stable(b, s)
  {
    hide Normalize;
  }

  lemma ReadsAreStable(db: Db, req: Request)
    requires Constraints(db)
    ensures TargetStable(db, req, ReadTarget(db, req)) && CurrentStable(db, req, ReadEntry(db, req))
  {
    hide Normalize;
  }

  ghost predicate AllStable(sys: System) {
    forall c :: c in sys.sessions ==> Stable(sys.world.db, sys.sessions[c])
  }

  // ----- every run, whatever the tokens -----

  /** Whatever one client does, the tables keep the schema's constraints and nothing is undone. */
  lemma NextEvolves(sys: System, a: Action)
    requires Constraints(sys.world.db)
    ensures var next := Next(sys, a); Constraints(next.world.db) && Evolves(sys.world.db, next.world.db)
  {
    hide Plan, Constraints, Evolves, Settle;
    var s := SessionOf(sys, a.client);
    EvolvesReflexive(sys.world.db);
    if a.Finish? && s.Loaded? {
      SettleEvolves(sys.world.db, s.req, s.ctx, s.target, s.current, a.faults);
    }
  }

  lemma NextKeepsStable(sys: System, a: Action)
    requires Constraints(sys.world.db) && AllStable(sys)
    ensures AllStable(Next(sys, a))
  {
    hide Constraints, Evolves, Settle, Plan, TargetStable, CurrentStable, ReadEntry, ReadTarget;
    var next := Next(sys, a);
    NextEvolves(sys, a);
    forall c | c in next.sessions ensures Stable(next.world.db, next.sessions[c]) {
      var s := SessionOf(sys, c);
      if c in sys.sessions { StableEvolves(sys.world.db, next.world.db, s); }
      if c == a.client && a.Invoke? {
        ReadsAreStable(sys.world.db, a.req);
        LostIsStable(sys.world.db, a.req);
      } else if c == a.client && a.Load? && s.Invoked? {
        ReadsAreStable(sys.world.db, s.req);
        LostIsStable(sys.world.db, s.req);
      }
    }
  }

  /** A read that failed relies on nothing. */
  lemma LostIsStable(db: Db, req: Request)
    ensures TargetStable(db, req, Failed) && CurrentStable(db, req, Failed)
  {
  }

  /** Decide once, and no lost rows, over every interleaved run: between any two of its points, rows keep their
      identity and only gain versions, snapshots keep content and creator and are decided at most once, and the
      outbox only grows. */
  lemma {:induction false} ExecuteEvolves(sys: System, actions: seq<Action>)
    requires Constraints(sys.world.db) && AllStable(sys)
    ensures var end := Execute(sys, actions);
      Constraints(end.world.db) && AllStable(end) && Evolves(sys.world.db, end.world.db)
    decreases |actions|
  {
    hide Constraints, AllStable, Evolves, Next;
    if actions == [] {
      EvolvesReflexive(sys.world.db);
    } else {
      var next := Next(sys, actions[0]);
      NextEvolves(sys, actions[0]);
      NextKeepsStable(sys, actions[0]);
      ExecuteEvolves(next, actions[1..]);
      EvolvesTransitive(sys.world.db, next.world.db, Execute(sys, actions).world.db);
    }
  }

  lemma InitialIsStable()
    ensures Constraints(INITIAL.world.db) && AllStable(INITIAL)
  {
  }
}
