/** Sequential runs as interleaved ones: the converse of refinement. */
module Schedules {
  import opened Tables
  import opened Workflow
  import opened Preservation
  import opened Runs
  import opened Interleaving

  /** One client does a whole operation without interruption. */
  function Turn(op: Op): seq<Action> {
    [Invoke(0, op.req, op.ctx, AtReadTarget in op.faults), Load(0, AtReadEntry in op.faults), Finish(0, op.faults)]
  }

  /** One operation after the other. */
  function Schedule(ops: seq<Op>): seq<Action> {
    if ops == [] then [] else Turn(ops[0]) + Schedule(ops[1..])
  }

  /** The session of an operation done in one turn has read what the atomic step reads. */
  ghost function TurnSession(db: Db, op: Op): Session {
    Loaded(op.req, op.ctx, if AtReadTarget in op.faults then Failed else ReadTarget(db, op.req),
           if AtReadEntry in op.faults then Failed else ReadEntry(db, op.req))
  }

  lemma ExecuteThree(sys: System, s: seq<Action>)
    requires |s| == 3
    ensures Execute(sys, s) == Next(Next(Next(sys, s[0]), s[1]), s[2])
    ensures Unclaiming(sys, s[0]) && Unclaiming(Next(sys, s[0]), s[1]) && Unclaiming(Next(Next(sys, s[0]), s[1]), s[2])
      ==> AllUnclaiming(sys, s)
  {
    hide Next, Unclaiming;
    var s1 := Next(sys, s[0]);
    var s2 := Next(s1, s[1]);
    assert s[2..][0] == s[2] && s[2..][1..] == [];
    assert Execute(s2, s[2..]) == Execute(Next(s2, s[2]), []);
    assert AllUnclaiming(s2, s[2..]) <==> Unclaiming(s2, s[2]) && AllUnclaiming(Next(s2, s[2]), []);
    assert s[1..][0] == s[1] && s[1..][1..] == s[2..];
  }

  lemma TurnLoads(sys: System, op: Op)
    ensures var s := Turn(op); var db := sys.world.db;
      && Next(Next(sys, s[0]), s[1]) == sys.(sessions := sys.sessions[0 := TurnSession(db, op)])
      && (Clean(db, op.req) ==> Unclaiming(sys, s[0]) && Unclaiming(Next(sys, s[0]), s[1]))
  {
    hide ReadTarget, ReadEntry, Clean, Settled;
    var s := Turn(op);
    var once := Next(sys, s[0]);
    assert once.sessions[0 := TurnSession(sys.world.db, op)] == sys.sessions[0 := TurnSession(sys.world.db, op)];
  }

  /** A turn does to the tables what the atomic step does, and without faults it logs the same commit. */
  lemma TurnIsPerform(sys: System, op: Op)
    ensures var end := Execute(sys, Turn(op));
      && end.world.db == Perform(sys.world, op).db && (op.faults == {} ==> end.world == Perform(sys.world, op))
      && forall c: nat :: c != 0 ==> SessionOf(end, c) == SessionOf(sys, c)
    ensures Clean(sys.world.db, op.req) ==> AllUnclaiming(sys, Turn(op))
  {
    hide ReadTarget, ReadEntry, Clean, Plan, Settle, Execute, AllUnclaiming;
    ExecuteThree(sys, Turn(op));
    TurnLoads(sys, op);
    assert Settled(sys.world.db, TurnSession(sys.world.db, op), op.faults) == Step(sys.world.db, op);
  }

  lemma {:induction false} RunDb(v: World, w: World, ops: seq<Op>)
    requires v.db == w.db
    ensures Run(v, ops).db == Run(w, ops).db && (AllClean(v, ops) <==> AllClean(w, ops))
    decreases |ops|
  {
    hide Step, ReadEntry, Clean;
    if ops != [] { RunDb(Perform(v, ops[0]), Perform(w, ops[0]), ops[1..]); }
  }

  predicate Faultless(ops: seq<Op>) {
    forall i :: 0 <= i < |ops| ==> ops[i].faults == {}
  }

  /** Every sequential run is an interleaved one, with the same tables, the same claims and, without faults, the same
      log. */
  lemma {:induction false} SequentialIsInterleaved(sys: System, ops: seq<Op>)
    ensures var end := Execute(sys, Schedule(ops)).world;
      end.db == Run(sys.world, ops).db && (Faultless(ops) ==> end == Run(sys.world, ops))
    ensures forall c: nat :: c != 0 ==> SessionOf(Execute(sys, Schedule(ops)), c) == SessionOf(sys, c)
    ensures AllClean(sys.world, ops) ==> AllUnclaiming(sys, Schedule(ops))
    decreases |ops|
  {
    hide Perform, Clean, Turn;
    if ops == [] {
      assert Execute(sys, []) == sys;
    } else {
      var next := Execute(sys, Turn(ops[0]));
      TurnIsPerform(sys, ops[0]);
      ExecuteAppend(sys, Turn(ops[0]), Schedule(ops[1..]));
      SequentialIsInterleaved(next, ops[1..]);
      RunDb(next.world, Perform(sys.world, ops[0]), ops[1..]);
    }
  }
}
