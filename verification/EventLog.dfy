/** A consumer of the change events against the served view. */
module EventLog {
  import opened Model
  import opened Tables
  import opened Workflow
  import opened Invariant
  import opened Transitions
  import opened Preservation
  import opened Served

  predicate Publishes(ev: Event, id: string) {
    ev.entry.id == id && ev.entry.status == Published
  }

  /** A consumer keeps, per entry, the newest payload whose status is published. Older and repeated
      deliveries are ignored. */
  function Absorb(view: map<string, Entry>, ev: Event): map<string, Entry> {
    var id := ev.entry.id;
    if ev.entry.status == Published && (id in view ==> view[id].version < ev.entry.version)
    then view[id := ev.entry]
    else view
  }

  function Consume(delivered: seq<Event>): map<string, Entry> {
    if delivered == [] then map[] else Absorb(Consume(delivered[..|delivered| - 1]), delivered[|delivered| - 1])
  }

  /** What the consumer holds for an entry: an event it received, and none it received is newer. */
  ghost predicate HoldsNewest(delivered: seq<Event>, id: string) {
    var view := Consume(delivered);
    && (id in view <==> exists i :: 0 <= i < |delivered| && Publishes(delivered[i], id))
    && (id in view ==>
          exists i :: 0 <= i < |delivered| && Publishes(delivered[i], id) && delivered[i].entry == view[id])
    && (id in view ==>
          forall i :: 0 <= i < |delivered| && Publishes(delivered[i], id)
            ==> delivered[i].entry.version <= view[id].version)
  }

  lemma {:induction false} ConsumerHoldsNewest(delivered: seq<Event>, id: string)
    ensures HoldsNewest(delivered, id)
    decreases |delivered|
  {
    if delivered != [] {
      var n := |delivered| - 1;
      var earlier := delivered[..n];
      ConsumerHoldsNewest(earlier, id);
      assert forall i :: 0 <= i < n ==> delivered[i] == earlier[i];
      if id in Consume(earlier) {
        var i :| 0 <= i < n && Publishes(earlier[i], id) && earlier[i].entry == Consume(earlier)[id];
        assert Publishes(delivered[i], id);
      }
      if Publishes(delivered[n], id) {
        assert id in Consume(delivered);
      }
    }
  }

  /** The last published event of an entry is in the log, and none is newer. */
  lemma {:induction false} LastPublishedIsNewest(outbox: seq<Event>, id: string)
    requires Increasing(outbox)
    ensures var last := LastPublished(outbox, id);
      if last.Some?
      then last.value in outbox && Publishes(last.value, id)
           && forall i :: 0 <= i < |outbox| && Publishes(outbox[i], id)
                ==> outbox[i].entry.version <= last.value.entry.version
      else forall i :: 0 <= i < |outbox| ==> !Publishes(outbox[i], id)
    decreases |outbox|
  {
    if outbox != [] && !Publishes(outbox[|outbox| - 1], id) {
      LastPublishedIsNewest(outbox[..|outbox| - 1], id);
    }
  }

  /** The log identifies an event by entry and version. */
  lemma VersionIdentifies(outbox: seq<Event>, a: Event, b: Event)
    requires Increasing(outbox) && a in outbox && b in outbox
    requires a.entry.id == b.entry.id && a.entry.version == b.entry.version
    ensures a == b
  {
    var i :| 0 <= i < |outbox| && outbox[i] == a;
    var j :| 0 <= j < |outbox| && outbox[j] == b;
  }

  /** Exactly the events of the log were delivered, in any order and any number of times. */
  ghost predicate DeliversAll(delivered: seq<Event>, outbox: seq<Event>) {
    && (forall i :: 0 <= i < |delivered| ==> delivered[i] in outbox)
    && (forall i :: 0 <= i < |outbox| ==> outbox[i] in delivered)
  }

  lemma ConsumerHoldsLast(outbox: seq<Event>, delivered: seq<Event>, id: string)
    requires Increasing(outbox) && DeliversAll(delivered, outbox)
    ensures var view, last := Consume(delivered), LastPublished(outbox, id);
      (id in view <==> last.Some?) && (id in view ==> view[id] == last.value.entry)
  {
    hide Consume, LastPublished, Increasing;
    ConsumerHoldsNewest(delivered, id);
    LastPublishedIsNewest(outbox, id);
    var view, last := Consume(delivered), LastPublished(outbox, id);
    if last.Some? {
      var k :| 0 <= k < |outbox| && outbox[k] == last.value;
      assert outbox[k] in delivered;
      var j :| 0 <= j < |delivered| && delivered[j] == last.value;
      assert Publishes(delivered[j], id);
      var i :| 0 <= i < |delivered| && Publishes(delivered[i], id) && delivered[i].entry == view[id];
      assert delivered[i] in outbox;
      VersionIdentifies(outbox, delivered[i], last.value);
    }
  }

  /** The event log agrees with the join: a consumer that got every event, however shuffled or repeated, holds
      exactly the entries that are served, each with the published revision and the content the join serves. */
  lemma ConsumerAgreesWithJoin(db: Db, delivered: seq<Event>, id: string)
    requires Inv(db) && DeliversAll(delivered, db.outbox)
    ensures var view := Consume(delivered);
      && (id in view <==> Serves(db, id))
      && (id in view ==> view[id].published == view[id].revision == RowOf(db, id).revision
                         && view[id].content == RowOf(db, id).content && view[id].scope == RowOf(db, id).scope)
  {
    hide Consume, LastPublished, Disciplined, EntryCore, DeliversAll;
    ConsumerHoldsLast(db.outbox, delivered, id);
    LastPublishedIsNewest(db.outbox, id);
    if id in db.entries {
      assert EntryPublication(db, id);
      if LastPublished(db.outbox, id).Some? {
        var k :| 0 <= k < |db.outbox| && db.outbox[k] == LastPublished(db.outbox, id).value;
        assert EventOk(db, db.outbox[k]);
      }
    }
  }

  // ----- whatever creates claim -----

  /** Once an entry has a published event, the newest one is what the join serves. A revision a create merely claimed
      has no event. */
  ghost predicate ProjectionSafe(db: Db, id: string)
    requires id in db.entries
  {
    LastPublished(db.outbox, id).Some? ==> StatusOk(db.entries[id]) && PublishedOk(db, id) && ProjectionOk(db, id)
  }

  ghost predicate ProjectionsSafe(db: Db) {
    forall id :: id in db.entries ==> ProjectionSafe(db, id)
  }

  /** The effect creates an entry no event speaks of, moves the publication with an event, or leaves it. */
  ghost predicate OnPublication(db: Db, eff: Effect) {
    || eff.row.id !in db.entries
    || MovesPublication(db, eff)
    || (eff.row.status != Published && (StatusOk(db.entries[eff.row.id]) ==> LeavesPublication(db, eff)))
  }

  lemma EffectOnPublication(db: Db, op: Op)
    requires Core(db) && Legal(db, op)
    ensures OnPublication(db, EffectOf(db, op))
  {
    hide Core, Disciplined, Authorize, Acceptable, Normalize, MovesPublication;
    if op.req.PutDraft? {
      var scope := Normalize(op.req.value).scope;
      if ScopeTaken(db, scope) { RowFacts(db, scope); }
    } else {
      EntryFacts(db, op.req.id);
      if op.req.Publish? || op.req.Rollback? { PublicationMoves(db, op); }
    }
  }

  /** An effect that publishes nothing adds no published event. */
  lemma UnchangedLast(db: Db, eff: Effect, id: string)
    requires eff.event.Some? ==> eff.event.value.entry == eff.row
    requires eff.row.id != id || eff.row.status != Published
    ensures LastPublished(Apply(db, eff).outbox, id) == LastPublished(db.outbox, id)
  {
    if eff.event.Some? { LastPublishedOfAppend(db.outbox, eff.event.value, id); }
  }

  lemma TouchedProjectionKeeps(db: Db, eff: Effect)
    requires LogOk(db) && ProjectionsSafe(db) && Fits(db, eff) && OnPublication(db, eff)
    ensures ProjectionSafe(Apply(db, eff), eff.row.id)
  {
    hide LogOk, MovesPublication, LeavesPublication, LastPublished, StatusOk, PublishedOk, ProjectionOk, ScopeTaken;
    var id := eff.row.id;
    if id !in db.entries {
      NoPublishedEvent(db, id);
    } else if MovesPublication(db, eff) {
      MovedPublicationHolds(db, eff);
    } else {
      UnchangedLast(db, eff, id);
      if LastPublished(db.outbox, id).Some? {
        assert ProjectionSafe(db, id);
        LeftPublicationKeeps(db, eff);
      }
    }
  }

  lemma ProjectionsKeep(db: Db, eff: Effect)
    requires LogOk(db) && ProjectionsSafe(db) && Fits(db, eff) && OnPublication(db, eff)
    ensures ProjectionsSafe(Apply(db, eff))
  {
    hide LogOk, OnPublication, LastPublished, StatusOk, PublishedOk, ProjectionOk, ScopeTaken;
    var db' := Apply(db, eff);
    forall id | id in db'.entries ensures ProjectionSafe(db', id) {
      if id == eff.row.id {
        TouchedProjectionKeeps(db, eff);
      } else {
        UnchangedLast(db, eff, id);
        assert ProjectionSafe(db, id);
        if LastPublished(db.outbox, id).Some? { OthersKeepPublication(db, eff, id); }
      }
    }
  }

  lemma StepKeepsProjections(db: Db, op: Op)
    requires Core(db) && ProjectionsSafe(db)
    ensures ProjectionsSafe(Step(db, op).db)
  {
    hide Core, Legal, EffectOf, Apply, Step, ProjectionsSafe, OnPublication, Fits;
    StepFollows(db, op);
    if Legal(db, op) {
      CoreLog(db);
      EffectFits(db, op);
      EffectOnPublication(db, op);
      ProjectionsKeep(db, EffectOf(db, op));
    }
  }

  /** Whatever a consumer that got every event holds is served, with the revision, content and scope it holds. */
  lemma ConsumerHoldsOnlyServed(db: Db, delivered: seq<Event>, id: string)
    requires Core(db) && ProjectionsSafe(db) && DeliversAll(delivered, db.outbox) && id in Consume(delivered)
    ensures Serves(db, id)
    ensures var e := Consume(delivered)[id];
      && e.published == e.revision == RowOf(db, id).revision
      && e.content == RowOf(db, id).content && e.scope == RowOf(db, id).scope
  {
    hide Consume, LastPublished, Disciplined, EntryCore, DeliversAll;
    ConsumerHoldsLast(db.outbox, delivered, id);
    LastPublishedIsNewest(db.outbox, id);
    var k :| 0 <= k < |db.outbox| && db.outbox[k] == LastPublished(db.outbox, id).value;
    assert EventOk(db, db.outbox[k]);
    assert ProjectionSafe(db, id);
  }
}
