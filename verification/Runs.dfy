/** Sequential runs of the workflow, the log of what committed, and conservation over whole runs. */
module Runs {
  import opened Model
  import opened Tables
  import opened Workflow
  import opened Invariant
  import opened Transitions
  import opened Preservation

  /** A committed operation, with the entry it answered. */
  datatype Commit = Commit(op: Op, reply: Entry, created: bool)

  datatype World = World(db: Db, log: seq<Commit>)

  const START := World(EMPTY_DB, [])

  function Record(w: World, op: Op, created: bool, r: Outcome): World {
    World(r.db, if r.reply.Ok? then w.log + [Commit(op, r.reply.value, created)] else w.log)
  }

  ghost function Perform(w: World, op: Op): World {
    Record(w, op, op.req.PutDraft? && ReadEntry(w.db, op.req).Missing?, Step(w.db, op))
  }

  ghost function Run(w: World, ops: seq<Op>): World
    decreases |ops|
  {
    if ops == [] then w else Run(Perform(w, ops[0]), ops[1..])
  }

  /** No operation of the run that finds its scope free claims a published revision. */
  ghost predicate AllClean(w: World, ops: seq<Op>)
    decreases |ops|
  {
    ops == [] || (Clean(w.db, ops[0].req) && AllClean(Perform(w, ops[0]), ops[1..]))
  }

  lemma {:induction false} RunAppend(w: World, a: seq<Op>, b: seq<Op>)
    ensures Run(w, a + b) == Run(Run(w, a), b)
    ensures AllClean(w, a + b) <==> AllClean(w, a) && AllClean(Run(w, a), b)
    decreases |a|
  {
    hide Perform, Clean;
    if a == [] {
      assert a + b == b;
    } else {
      assert (a + b)[1..] == a[1..] + b;
      RunAppend(Perform(w, a[0]), a[1..], b);
    }
  }

  lemma RunLast(w: World, ops: seq<Op>, op: Op)
    ensures Run(w, ops + [op]) == Perform(Run(w, ops), op)
  {
    hide Perform;
    RunAppend(w, ops, [op]);
    assert [op][1..] == [];
    var v := Run(w, ops);
    assert Run(v, [op]) == Run(Perform(v, op), []);
  }

  lemma AdvancesTransitive(a: Db, b: Db, c: Db)
    requires Advances(a, b) && Advances(b, c)
    ensures Advances(a, c)
  {
  }

  /** Every run keeps the core of the invariant and undoes nothing. */
  lemma {:induction false} RunKeepsCore(w: World, ops: seq<Op>)
    requires Core(w.db)
    ensures var v := Run(w, ops); Core(v.db) && Evolves(w.db, v.db)
    decreases |ops|
  {
    hide Core, Step, EntriesEvolve, SnapshotsEvolve;
    if ops == [] {
      EvolvesReflexive(w.db);
    } else {
      var next := Perform(w, ops[0]);
      StepKeepsCore(w.db, ops[0]);
      RunKeepsCore(next, ops[1..]);
      EvolvesTransitive(w.db, next.db, Run(w, ops).db);
    }
  }

  /** From any sound state, every run whose creates claim nothing ends in a sound state that takes no publication
      back. */
  lemma {:induction false} RunKeeps(w: World, ops: seq<Op>)
    requires Inv(w.db) && AllClean(w, ops)
    ensures var v := Run(w, ops); Inv(v.db) && Advances(w.db, v.db)
    decreases |ops|
  {
    hide Inv, Step, Evolves, Clean;
    if ops != [] {
      var next := Perform(w, ops[0]);
      StepKeeps(w.db, ops[0]);
      RunKeeps(next, ops[1..]);
      AdvancesTransitive(w.db, next.db, Run(w, ops).db);
    }
  }

  // ----- conservation -----

  datatype Kind = DraftKind | SubmitKind | ReviewKind | PublishKind | RollbackKind

  function KindOf(req: Request): Kind {
    match req
    case PutDraft(_, _) => DraftKind
    case Submit(_, _) => SubmitKind
    case Approve(_, _, _) => ReviewKind
    case Reject(_, _, _) => ReviewKind
    case Publish(_, _) => PublishKind
    case Rollback(_, _, _) => RollbackKind
  }

  /** How often an operation of this kind committed on this entry. */
  function Count(log: seq<Commit>, id: string, kind: Kind): nat {
    if log == [] then 0
    else
      var last := log[|log| - 1];
      Count(log[..|log| - 1], id, kind) + if last.reply.id == id && KindOf(last.op.req) == kind then 1 else 0
  }

  function EventCount(outbox: seq<Event>, id: string): nat {
    if outbox == [] then 0
    else EventCount(outbox[..|outbox| - 1], id) + if outbox[|outbox| - 1].entry.id == id then 1 else 0
  }

  function SnapshotKeys(db: Db, id: string): set<(string, int)> {
    set k | k in db.revisions && k.0 == id
  }

  /** What the outbox must hold: the answers of all commits except drafts, in commit order. */
  function Emitted(log: seq<Commit>): seq<Entry> {
    if log == [] then []
    else
      var last := log[|log| - 1];
      Emitted(log[..|log| - 1]) + if last.op.req.PutDraft? then [] else [last.reply]
  }

  function Payloads(outbox: seq<Event>): seq<Entry> {
    seq(|outbox|, i requires 0 <= i < |outbox| => outbox[i].entry)
  }

  /** Version and number of snapshots of one entry against the log. */
  ghost predicate Balanced(w: World, id: string)
    requires id in w.db.entries
  {
    var e := w.db.entries[id];
    && e.version == Count(w.log, id, DraftKind) + EventCount(w.db.outbox, id)
    && |SnapshotKeys(w.db, id)| == Count(w.log, id, SubmitKind) + Count(w.log, id, RollbackKind)
  }

  /** The revision of one entry against the log. */
  ghost predicate Revised(w: World, id: string)
    requires id in w.db.entries
  {
    w.db.entries[id].revision == Count(w.log, id, DraftKind) + Count(w.log, id, RollbackKind)
  }

  ghost predicate Accounted(w: World) {
    && (forall i :: 0 <= i < |w.log| ==> w.log[i].reply.id in w.db.entries)
    && (forall id :: id in w.db.entries ==> Balanced(w, id))
    && Payloads(w.db.outbox) == Emitted(w.log)
  }

  ghost predicate RevisionsAccounted(w: World) {
    forall id :: id in w.db.entries ==> Revised(w, id)
  }

  lemma CountOfAppend(log: seq<Commit>, c: Commit, id: string, kind: Kind)
    ensures Count(log + [c], id, kind) ==
            Count(log, id, kind) + if c.reply.id == id && KindOf(c.op.req) == kind then 1 else 0
  {
    assert (log + [c])[..|log|] == log;
  }

  lemma EventCountOfAppend(outbox: seq<Event>, ev: Event, id: string)
    ensures EventCount(outbox + [ev], id) == EventCount(outbox, id) + if ev.entry.id == id then 1 else 0
  {
    assert (outbox + [ev])[..|outbox|] == outbox;
  }

  lemma EmittedOfAppend(log: seq<Commit>, c: Commit)
    ensures Emitted(log + [c]) == Emitted(log) + if c.op.req.PutDraft? then [] else [c.reply]
  {
    assert (log + [c])[..|log|] == log;
  }

  lemma {:induction false} CountOfStranger(log: seq<Commit>, id: string, kind: Kind)
    requires forall i :: 0 <= i < |log| ==> log[i].reply.id != id
    ensures Count(log, id, kind) == 0
    decreases |log|
  {
    if log != [] {
      CountOfStranger(log[..|log| - 1], id, kind);
    }
  }

  lemma {:induction false} EventCountOfStranger(outbox: seq<Event>, id: string)
    requires forall i :: 0 <= i < |outbox| ==> outbox[i].entry.id != id
    ensures EventCount(outbox, id) == 0
    decreases |outbox|
  {
    if outbox != [] {
      EventCountOfStranger(outbox[..|outbox| - 1], id);
    }
  }

  /** An effect's share in the counters: what it adds to version, revision, snapshots and events. */
  datatype Share = Share(version: int, revision: int, snapshots: int, events: int)

  function ShareOf(kind: Kind): Share {
    match kind
    case DraftKind => Share(1, 1, 0, 0)
    case SubmitKind => Share(1, 0, 1, 1)
    case ReviewKind => Share(1, 0, 0, 1)
    case PublishKind => Share(1, 0, 0, 1)
    case RollbackKind => Share(1, 1, 1, 1)
  }

  /** The effect moves version, snapshots and events of its entry by the share of its kind; a create starts from
      zero. */
  ghost predicate Contributes(db: Db, eff: Effect, kind: Kind) {
    var share := ShareOf(kind);
    var key := (eff.row.id, eff.row.revision);
    && eff.row.version == (if eff.row.id in db.entries then db.entries[eff.row.id].version else 0) + share.version
    && (share.snapshots == 1 ==> eff.snapshot.Some? && key !in db.revisions)
    && (share.snapshots == 0 ==> eff.snapshot.None? || key in db.revisions)
    && (share.events == 1 <==> eff.event.Some?)
    && (eff.event.Some? ==> eff.event.value.entry == eff.row)
    && (eff.row.id !in db.entries ==> kind == DraftKind)
  }

  /** The effect moves the revision of its entry by the share of its kind. */
  predicate Revises(db: Db, eff: Effect, kind: Kind) {
    var before := if eff.row.id in db.entries then db.entries[eff.row.id].revision else 0;
    eff.row.revision == before + ShareOf(kind).revision
  }

  lemma EffectContributes(db: Db, op: Op)
    requires Core(db) && Legal(db, op)
    ensures Contributes(db, EffectOf(db, op), KindOf(op.req)) && Revises(db, EffectOf(db, op), KindOf(op.req))
  {
    hide Core, EntryCore, Disciplined, Authorize, Acceptable, Normalize;
    if op.req.PutDraft? {
      var scope := Normalize(op.req.value).scope;
      if ScopeTaken(db, scope) { RowFacts(db, scope); }
    } else {
      EntryFacts(db, op.req.id);
    }
  }

  lemma SnapshotKeysOfApply(db: Db, eff: Effect, id: string)
    ensures SnapshotKeys(Apply(db, eff), id) ==
            if eff.snapshot.Some? && eff.row.id == id then SnapshotKeys(db, id) + {(id, eff.row.revision)}
            else SnapshotKeys(db, id)
  {
  }

  lemma SnapshotCountKeeps(db: Db, eff: Effect, kind: Kind, id: string)
    requires Contributes(db, eff, kind)
    ensures |SnapshotKeys(Apply(db, eff), id)| ==
            |SnapshotKeys(db, id)| + if eff.row.id == id then ShareOf(kind).snapshots else 0
  {
    SnapshotKeysOfApply(db, eff, id);
    var key := (id, eff.row.revision);
    if key in SnapshotKeys(db, id) {
      assert SnapshotKeys(db, id) + {key} == SnapshotKeys(db, id);
    }
  }

  /** The counters of one entry stay balanced when the world records one more effect. */
  lemma BalanceKeeps(w: World, eff: Effect, c: Commit, id: string)
    requires Accounted(w) && LogOk(w.db) && Keyed(w.db)
    requires c.reply == eff.row && Contributes(w.db, eff, KindOf(c.op.req))
    requires id in w.db.entries || id == eff.row.id
    ensures id in Apply(w.db, eff).entries && Balanced(World(Apply(w.db, eff), w.log + [c]), id)
  {
    hide LogOk, Keyed, Emitted, Payloads, SnapshotKeys, Count, EventCount;
    CountOfAppend(w.log, c, id, DraftKind);
    CountOfAppend(w.log, c, id, SubmitKind);
    CountOfAppend(w.log, c, id, RollbackKind);
    SnapshotCountKeeps(w.db, eff, KindOf(c.op.req), id);
    if eff.event.Some? {
      EventCountOfAppend(w.db.outbox, eff.event.value, id);
    }
    if id !in w.db.entries {
      NewcomerHasNothing(w, id);
    }
  }

  lemma NewcomerHasNothing(w: World, id: string)
    requires Accounted(w) && LogOk(w.db) && Keyed(w.db) && id !in w.db.entries
    ensures forall kind :: Count(w.log, id, kind) == 0
    ensures EventCount(w.db.outbox, id) == 0 && SnapshotKeys(w.db, id) == {}
  {
    forall kind ensures Count(w.log, id, kind) == 0 { CountOfStranger(w.log, id, kind); }
    assert forall i :: 0 <= i < |w.db.outbox| ==> EventOk(w.db, w.db.outbox[i]);
    EventCountOfStranger(w.db.outbox, id);
  }

  lemma PayloadsKeep(w: World, eff: Effect, c: Commit)
    requires Payloads(w.db.outbox) == Emitted(w.log)
    requires c.reply == eff.row && Contributes(w.db, eff, KindOf(c.op.req))
    ensures Payloads(Apply(w.db, eff).outbox) == Emitted(w.log + [c])
  {
    EmittedOfAppend(w.log, c);
    if eff.event.Some? {
      assert Payloads(w.db.outbox + [eff.event.value]) == Payloads(w.db.outbox) + [eff.row];
    }
  }

  /** Recording one more effect keeps the accounts. */
  lemma AccountsKeep(w: World, eff: Effect, c: Commit)
    requires Accounted(w) && LogOk(w.db) && Keyed(w.db)
    requires c.reply == eff.row && Contributes(w.db, eff, KindOf(c.op.req))
    ensures Accounted(World(Apply(w.db, eff), w.log + [c]))
  {
    hide LogOk, Keyed, Contributes, Balanced, Emitted, Payloads;
    var v := World(Apply(w.db, eff), w.log + [c]);
    PayloadsKeep(w, eff, c);
    forall id | id in v.db.entries ensures Balanced(v, id) {
      BalanceKeeps(w, eff, c, id);
    }
  }

  lemma RevisionsKeep(w: World, eff: Effect, c: Commit)
    requires RevisionsAccounted(w) && Accounted(w) && LogOk(w.db) && Keyed(w.db)
    requires c.reply == eff.row && Revises(w.db, eff, KindOf(c.op.req))
    requires eff.row.id !in w.db.entries ==> KindOf(c.op.req) == DraftKind
    ensures RevisionsAccounted(World(Apply(w.db, eff), w.log + [c]))
  {
    hide LogOk, Keyed, Accounted, Count;
    var v := World(Apply(w.db, eff), w.log + [c]);
    forall id | id in v.db.entries ensures Revised(v, id) {
      CountOfAppend(w.log, c, id, DraftKind);
      CountOfAppend(w.log, c, id, RollbackKind);
      if id !in w.db.entries { NewcomerHasNothing(w, id); }
    }
  }

  lemma PerformAccounts(w: World, op: Op)
    requires Core(w.db) && Accounted(w) && RevisionsAccounted(w)
    ensures Accounted(Perform(w, op)) && RevisionsAccounted(Perform(w, op))
  {
    hide EntryCore, LogOk, Legal, EffectOf, Step, Revises, Accounted, RevisionsAccounted, ScopesUnique;
    StepFollows(w.db, op);
    if Legal(w.db, op) {
      var eff := EffectOf(w.db, op);
      var c := Perform(w, op).log[|w.log|];
      EffectContributes(w.db, op);
      AccountsKeep(w, eff, c);
      RevisionsKeep(w, eff, c);
    }
  }

  /** Conservation: after any sequential run from the empty tables, every counter of every entry is explained by the
      log, and the outbox is exactly the sequence of committed answers other than drafts. */
  lemma {:induction false} RunAccounts(w: World, ops: seq<Op>)
    requires Core(w.db) && Accounted(w) && RevisionsAccounted(w)
    ensures Accounted(Run(w, ops)) && RevisionsAccounted(Run(w, ops))
    decreases |ops|
  {
    hide Core, Step, Accounted, RevisionsAccounted, Evolves;
    if ops != [] {
      PerformAccounts(w, ops[0]);
      StepKeepsCore(w.db, ops[0]);
      RunAccounts(Perform(w, ops[0]), ops[1..]);
    }
  }
}
