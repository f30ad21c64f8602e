/** The guarantees of the configuration engine, over whole runs with any number of clients. */
module Guarantees {
  import opened Text
  import opened Model
  import opened Tables
  import opened Workflow
  import opened Invariant
  import opened Transitions
  import opened Preservation
  import opened Runs
  import opened Interleaving
  import opened Refinement
  import opened Served
  import opened Etag
  import opened Publications
  import opened EventLog
  import opened Everywhere
  import opened Admission
  import opened Drafts

  ghost function WorldAfter(actions: seq<Action>): World {
    Execute(INITIAL, actions).world
  }

  ghost function After(actions: seq<Action>): Db {
    WorldAfter(actions).db
  }

  // Premises on a run. Each guarantee below names the ones it needs.

  /** Every client sends a token it has observed: not above the version its request reads. */
  ghost predicate ObservedRun(actions: seq<Action>) {
    AllObserved(INITIAL, actions)
  }

  /** No create claims a published revision. */
  ghost predicate UnclaimingRun(actions: seq<Action>) {
    AllUnclaiming(INITIAL, actions)
  }

  ghost predicate Proper(actions: seq<Action>) {
    ObservedRun(actions) && UnclaimingRun(actions)
  }

  // ----- runs and their continuations -----

  lemma AnyIsConstrained(actions: seq<Action>)
    ensures Constraints(After(actions)) && AllStable(Execute(INITIAL, actions))
  {
    hide Constraints, AllStable, Execute, Evolves;
    InitialIsStable();
    ExecuteEvolves(INITIAL, actions);
  }

  lemma AnyIsGrounded(actions: seq<Action>)
    ensures Grounded(After(actions))
  {
    hide Execute, Grounded, AllRooted;
    AlwaysGrounded(actions);
  }

  lemma ObservedIsSound(actions: seq<Action>)
    requires ObservedRun(actions)
    ensures Core(After(actions)) && RevisionsAccounted(WorldAfter(actions))
  {
    hide Core, Accounted, RevisionsAccounted, Linear, Execute, AllObserved;
    InitialIsLinear();
    ExecuteKeepsLinear(INITIAL, actions);
    LinearIsSound(Execute(INITIAL, actions));
  }

  lemma UnclaimingRows(actions: seq<Action>, id: string)
    requires UnclaimingRun(actions) && id in After(actions).entries
    ensures Vouched(After(actions), After(actions).entries[id])
  {
    hide Execute, GroundedSystem, Vouched, SessionVouched, AllUnclaiming;
    UnclaimingIsVouched(actions);
  }

  lemma ProperIsSoundSystem(actions: seq<Action>)
    requires Proper(actions)
    ensures Sound(Execute(INITIAL, actions))
  {
    hide Sound, Execute, AllObserved, AllUnclaiming;
    InitialIsSound();
    ExecuteKeepsSound(INITIAL, actions);
  }

  /** Every state of every proper run satisfies the full invariant. */
  lemma ProperIsSound(actions: seq<Action>)
    requires Proper(actions)
    ensures Inv(After(actions))
  {
    hide Inv, Linear, AllModest, Execute, Proper;
    ProperIsSoundSystem(actions);
  }

  lemma ProperPrefix(a: seq<Action>, b: seq<Action>)
    requires Proper(a + b)
    ensures Proper(a) && Sound(Execute(INITIAL, a))
    ensures AllObserved(Execute(INITIAL, a), b) && AllUnclaiming(Execute(INITIAL, a), b)
    ensures Execute(INITIAL, a + b) == Execute(Execute(INITIAL, a), b)
  {
    hide Sound, Execute, AllObserved, AllUnclaiming;
    ExecuteAppend(INITIAL, a, b);
    ProperIsSoundSystem(a);
  }

  // ----- what one step of a client does to the tables of a sound system -----

  lemma PerformAdvances(w: World, op: Op)
    requires Inv(w.db) && Clean(w.db, op.req)
    ensures Advances(w.db, Perform(w, op).db)
    ensures InProgress(op.req) ==> SamePublications(w.db, Perform(w, op).db)
  {
    hide Inv, Step, Evolves, SamePublications, Clean;
    StepKeeps(w.db, op);
    if InProgress(op.req) { InProgressIsInvisible(w.db, op); }
  }

  ghost predicate InProgressFrom(log: seq<Commit>, n: nat) {
    forall i :: n <= i < |log| ==> InProgress(log[i].op.req)
  }

  lemma SamePublicationsReflexive(db: Db)
    ensures SamePublications(db, db)
  {
    forall id ensures SamePublication(db, db, id) {}
  }

  lemma NextAdvances(sys: System, a: Action)
    requires Sound(sys)
    ensures var next := Next(sys, a).world;
      && Advances(sys.world.db, next.db) && |sys.world.log| <= |next.log|
      && (InProgressFrom(next.log, |sys.world.log|) ==> SamePublications(sys.world.db, next.db))
  {
    hide Linear, AllModest, Next, Perform, SamePublications, InProgress, Inv, Clean;
    NextPerforms(sys, a);
    SamePublicationsReflexive(sys.world.db);
    var next := Next(sys, a).world;
    if next != sys.world {
      var op: Op :| Performs(sys, op, next);
      PerformAdvances(sys.world, op);
    }
  }

  lemma NextLog(sys: System, a: Action)
    ensures sys.world.log <= Next(sys, a).world.log
  {
    hide Settled;
  }

  lemma {:induction false} ExecuteLog(sys: System, actions: seq<Action>)
    ensures sys.world.log <= Execute(sys, actions).world.log
    decreases |actions|
  {
    hide Next;
    if actions != [] {
      NextLog(sys, actions[0]);
      ExecuteLog(Next(sys, actions[0]), actions[1..]);
    }
  }

  lemma {:induction false} ExecuteAdvances(sys: System, actions: seq<Action>)
    requires Sound(sys) && AllObserved(sys, actions) && AllUnclaiming(sys, actions)
    ensures var end := Execute(sys, actions).world;
      && Advances(sys.world.db, end.db)
      && (InProgressFrom(end.log, |sys.world.log|) ==> SamePublications(sys.world.db, end.db))
    decreases |actions|
  {
    hide Sound, Next, Observed, Unclaiming, SamePublications, InProgress;
    if actions == [] {
      SamePublicationsReflexive(sys.world.db);
    } else {
      var next := Next(sys, actions[0]);
      var end := Execute(sys, actions).world;
      NextKeepsSound(sys, actions[0]);
      NextAdvances(sys, actions[0]);
      ExecuteAdvances(next, actions[1..]);
      ExecuteLog(next, actions[1..]);
      AdvancesTransitive(sys.world.db, next.world.db, end.db);
      if InProgressFrom(end.log, |sys.world.log|) {
        assert InProgressFrom(next.world.log, |sys.world.log|) by {
          forall i | |sys.world.log| <= i < |next.world.log| ensures InProgress(next.world.log[i].op.req) {
            assert end.log[i] == next.world.log[i];
          }
        }
        SamePublicationsTransitive(sys.world.db, next.world.db, end.db);
      }
    }
  }

  // ----- every run, whatever tokens are sent and whatever creates claim -----

  /** Decide once, in every run whatsoever: from any point to any later one, rows keep identity, scope and creator
      and change only under a higher version; snapshots keep content and creator, and change status at most once,
      from pending to approved or rejected; events stay. */
  lemma NothingIsUndone(a: seq<Action>, b: seq<Action>)
    ensures Evolves(After(a), After(a + b))
  {
    hide Constraints, AllStable, Execute, Evolves, AllObserved;
    ExecuteAppend(INITIAL, a, b);
    AnyIsConstrained(a);
    ExecuteEvolves(Execute(INITIAL, a), b);
  }

  /** Etag soundness, in every run whatsoever: resolutions at any two points, of any two queries, whose etags hash
      the same text serve the same ids, revisions, values, secret references and rollouts in the same order. */
  lemma EtagIsSound(a: seq<Action>, b: seq<Action>, bucketA: string -> nat, bucketB: string -> nat,
                    qa: Query, qb: Query)
    ensures Constraints(After(a)) && Constraints(After(a + b))
    ensures Preimage(Resolution(After(a), bucketA, qa)) == Preimage(Resolution(After(a + b), bucketB, qb))
      ==> Items(Resolution(After(a), bucketA, qa)) == Items(Resolution(After(a + b), bucketB, qb))
  {
    hide After, Constraints, Evolves, Preimage, Resolution, Items;
    AnyIsConstrained(a);
    AnyIsConstrained(a + b);
    NothingIsUndone(a, b);
    SamePreimageSameItems(After(a), After(a + b), bucketA, bucketB, qa, qb);
  }

  /** Independent review, in every run whatsoever: no snapshot is approved or rejected by its submitter. */
  lemma ReviewIsIndependent(actions: seq<Action>, id: string, r: int)
    requires (id, r) in After(actions).revisions
    requires After(actions).revisions[(id, r)].status in {Approved, Rejected}
    ensures var s := After(actions).revisions[(id, r)]; s.review.reviewedBy != s.createdBy
  {
    hide Execute, Disciplined, Constraints, Backed, Sourced;
    AnyIsGrounded(actions);
    assert SnapshotBacked(After(actions), (id, r));
  }

  /** Value and secret discipline, in every run whatsoever: exactly one of the two in every entry, snapshot and event,
      and never a value under a sensitive key. */
  lemma ContentIsDisciplined(actions: seq<Action>)
    ensures var db := After(actions);
      && (forall id :: id in db.entries ==> Disciplined(db.entries[id].scope.key, db.entries[id].content))
      && (forall k :: k in db.revisions ==>
            k.0 in db.entries && Disciplined(db.entries[k.0].scope.key, db.revisions[k].content))
      && (forall i :: 0 <= i < |db.outbox| ==> Disciplined(db.outbox[i].entry.scope.key, db.outbox[i].entry.content))
  {
    hide Execute, Disciplined, Constraints, Sourced;
    AnyIsGrounded(actions);
    var db := After(actions);
    forall id | id in db.entries ensures Disciplined(db.entries[id].scope.key, db.entries[id].content) {
      assert Backed(db, db.entries[id]);
    }
    forall k | k in db.revisions
      ensures k.0 in db.entries && Disciplined(db.entries[k.0].scope.key, db.revisions[k].content)
    {
      assert SnapshotBacked(db, k);
    }
    forall i | 0 <= i < |db.outbox| ensures Disciplined(db.outbox[i].entry.scope.key, db.outbox[i].entry.content) {
      assert EventOk(db, db.outbox[i]);
    }
  }

  /** Rollback lineage, in every run whatsoever: a snapshot made by a rollback, through chains of any length, repeats
      the content of an approved revision of its entry. */
  lemma RollbackRepeatsApproved(actions: seq<Action>, id: string, r: int)
    requires (id, r) in After(actions).revisions && After(actions).revisions[(id, r)].status == Published
    ensures Sourced(After(actions), id, After(actions).revisions[(id, r)].content)
  {
    hide Execute, Disciplined, Constraints, Backed, Sourced;
    AnyIsGrounded(actions);
    assert SnapshotBacked(After(actions), (id, r));
  }

  lemma LoggedConforms(actions: seq<Action>, i: nat)
    requires i < |WorldAfter(actions).log|
    ensures var c := WorldAfter(actions).log[i]; Conforms(c) && Tidy(c.reply.scope)
  {
    hide Execute, Conforms, Tidy;
    AlwaysConforms(actions);
  }

  /** Access, in every run whatsoever: whatever was committed, its caller was permitted on the entry's tenant and
      application. */
  lemma CommitsArePermitted(actions: seq<Action>, i: nat)
    requires i < |WorldAfter(actions).log|
    ensures var c := WorldAfter(actions).log[i];
      && Permitted(c.op.ctx, c.reply.scope.tenant, c.reply.scope.application)
      && (!Blank(c.reply.scope.application) ==> c.op.ctx.access == Granted && !Blank(c.reply.scope.tenant))
  {
    hide Execute, Authorize, InOwnTenant, Blank, Normalize, Acceptable, TrimSpace, Tidy;
    LoggedConforms(actions, i);
    var c := WorldAfter(actions).log[i];
    AuthorizeExactly(c.op.ctx, c.reply.scope.tenant, c.reply.scope.application);
  }

  /** Tenant isolation, in every run whatsoever: whatever a user principal committed is on an entry of its own,
      non-blank tenant. */
  lemma WritersStayInTheirTenant(actions: seq<Action>, i: nat, caller: Principal)
    requires i < |WorldAfter(actions).log|
    requires WorldAfter(actions).log[i].op.ctx.caller == Some(caller) && caller.isUser
    ensures !Blank(caller.tenant) && WorldAfter(actions).log[i].reply.scope.tenant == caller.tenant
  {
    hide Execute, AccessGranted, Blank, Strips, Trimmed, Plain, Conforms;
    LoggedConforms(actions, i);
    CommitsArePermitted(actions, i);
    TrimmedStrips(WorldAfter(actions).log[i].reply.scope.tenant, caller.tenant);
  }

  lemma StartIsInitial()
    ensures Execute(INITIAL, []) == INITIAL
  {
  }

  /** Conservation, in every run whatsoever: version = drafts + events, snapshots = submissions + rollbacks, and the
      outbox is exactly the answers of the commits other than drafts, in order and with rising versions per entry. */
  lemma Conservation(actions: seq<Action>, id: string)
    requires id in After(actions).entries
    ensures var w := WorldAfter(actions);
      && w.db.entries[id].version == Count(w.log, id, DraftKind) + EventCount(w.db.outbox, id)
      && |SnapshotKeys(w.db, id)| == Count(w.log, id, SubmitKind) + Count(w.log, id, RollbackKind)
      && Payloads(w.db.outbox) == Emitted(w.log) && Increasing(w.db.outbox)
  {
    hide Execute, Grounded, AllRooted, Count, EventCount, SnapshotKeys, Payloads, Emitted, Increasing;
    assert GroundedSystem(INITIAL) by { AlwaysGrounded([]); StartIsInitial(); }
    assert Accounted(INITIAL.world) by { EmptyAccounts(); }
    ExecuteKeepsAccounts(INITIAL, actions);
    assert Balanced(WorldAfter(actions), id);
    AnyIsGrounded(actions);
    GroundedLog(After(actions));
  }

  lemma EmptyAccounts()
    ensures Accounted(START)
  {
  }

  lemma GroundedLog(db: Db)
    requires Grounded(db)
    ensures Increasing(db.outbox)
  {
    hide Constraints, Backed, SnapshotBacked, EventOk, Increasing;
  }

  /** The CHECK constraints of the schema never fire, in any run: every stored row has a percentage, exactly one of
      value and secret reference, and a tenant wherever it has an application. */
  lemma ChecksNeverFire(actions: seq<Action>, id: string)
    requires id in After(actions).entries
    ensures var e := After(actions).entries[id];
      && 0 <= e.content.rollout <= 100 && (|e.content.value| == 0 <==> e.content.secretRef != "")
      && (e.scope.tenant == "" ==> e.scope.application == "")
  {
    hide Execute, Constraints, LogOk, SnapshotBacked, SensitiveKey;
    AnyIsGrounded(actions);
    assert Backed(After(actions), After(actions).entries[id]);
  }

  /** A version pins an entry down, in every run: between two points with the same version, row and snapshots are the
      same. */
  lemma VersionPinsHistory(a: seq<Action>, b: seq<Action>)
    ensures Tied(After(a), After(a + b))
  {
    hide Execute, GroundedSystem, Tied, AllPendingOk, AllObserved, AllUnclaiming;
    ExecuteAppend(INITIAL, a, b);
    AlwaysGrounded(a);
    AlwaysPendingOk(a);
    ExecuteTies(Execute(INITIAL, a), b);
  }

  // ----- observed tokens -----

  /** Entry and snapshot coupling: no snapshot above the newest revision, one there exactly when it is not a draft,
      with the same content. */
  lemma SnapshotsFollowEntries(actions: seq<Action>, id: string)
    requires ObservedRun(actions) && id in After(actions).entries
    ensures Coupled(After(actions), id)
  {
    hide Execute, RevisionsAccounted, Coupled, HistoryOk, RowOk, Core;
    ObservedIsSound(actions);
    CoreEntry(After(actions), id);
  }

  /** With observed tokens the approved revision a rollback repeats is an earlier one. */
  lemma RollbackRepeatsEarlier(actions: seq<Action>, id: string, r: int)
    requires ObservedRun(actions)
    requires (id, r) in After(actions).revisions && After(actions).revisions[(id, r)].status == Published
    ensures ApprovedBefore(After(actions), id, r, After(actions).revisions[(id, r)].content)
  {
    hide Execute, RevisionsAccounted, Coupled, Disciplined, RowOk, Core;
    ObservedIsSound(actions);
    SnapshotFacts(After(actions), id, r);
    CoreEntry(After(actions), id);
  }

  /** With observed tokens the revision is accounted for too: drafts + rollbacks. */
  lemma RevisionConservation(actions: seq<Action>, id: string)
    requires ObservedRun(actions) && id in After(actions).entries
    ensures var w := WorldAfter(actions);
      w.db.entries[id].revision == Count(w.log, id, DraftKind) + Count(w.log, id, RollbackKind)
  {
    hide Execute, Core, Count;
    ObservedIsSound(actions);
    assert Revised(WorldAfter(actions), id);
  }

  lemma NextRises(sys: System, a: Action)
    requires Linear(sys)
    ensures var next := Next(sys, a).world;
      && Rises(sys.world.db, next.db) && |sys.world.log| <= |next.log|
      && (InProgressFrom(next.log, |sys.world.log|) ==> Retains(sys.world.db, next.db))
  {
    hide Linear, Next, Step, Serves, RowOf, InProgress, Core, Accounted, RevisionsAccounted, AllModest, Clean;
    LinearIsSound(sys);
    NextPerforms(sys, a);
    var next := Next(sys, a).world;
    if next != sys.world {
      var op: Op :| Performs(sys, op, next);
      StepRises(sys.world.db, op);
    }
  }

  lemma RisesTransitive(a: Db, b: Db, c: Db)
    ensures Rises(a, b) && Rises(b, c) ==> Rises(a, c)
    ensures Retains(a, b) && Retains(b, c) ==> Retains(a, c)
  {
    hide Serves, RowOf;
  }

  lemma {:induction false} ExecuteRises(sys: System, actions: seq<Action>)
    requires Linear(sys) && AllObserved(sys, actions)
    ensures var end := Execute(sys, actions).world;
      && Rises(sys.world.db, end.db)
      && (InProgressFrom(end.log, |sys.world.log|) ==> Retains(sys.world.db, end.db))
    decreases |actions|
  {
    hide Linear, Next, Observed, Serves, RowOf, InProgress;
    if actions != [] {
      var next := Next(sys, actions[0]);
      var end := Execute(sys, actions).world;
      NextKeepsLinear(sys, actions[0]);
      NextRises(sys, actions[0]);
      ExecuteRises(next, actions[1..]);
      ExecuteLog(next, actions[1..]);
      RisesTransitive(sys.world.db, next.world.db, end.db);
      if InProgressFrom(end.log, |sys.world.log|) {
        assert InProgressFrom(next.world.log, |sys.world.log|) by {
          forall i | |sys.world.log| <= i < |next.world.log| ensures InProgress(next.world.log[i].op.req) {
            assert end.log[i] == next.world.log[i];
          }
        }
      }
    }
  }

  lemma ObservedPrefix(a: seq<Action>, b: seq<Action>)
    requires ObservedRun(a + b)
    ensures ObservedRun(a) && Linear(Execute(INITIAL, a)) && AllObserved(Execute(INITIAL, a), b)
    ensures Execute(INITIAL, a + b) == Execute(Execute(INITIAL, a), b)
  {
    hide Linear, Execute, AllObserved, AllUnclaiming;
    ExecuteAppend(INITIAL, a, b);
    InitialIsLinear();
    ExecuteKeepsLinear(INITIAL, a);
  }

  /** No ABA, whatever creates claim: an entry that is served stays served, its served revision only rises, and a pair
      of entry and revision that has been superseded is never served again. */
  lemma SupersededStaysSuperseded(a: seq<Action>, b: seq<Action>, c: seq<Action>, id: string)
    requires ObservedRun(a + b + c) && Serves(After(a), id)
    ensures Serves(After(a + b), id) && Serves(After(a + b + c), id)
    ensures var x, y, z := RowOf(After(a), id).revision, RowOf(After(a + b), id).revision,
                           RowOf(After(a + b + c), id).revision;
      x <= y <= z && (x != y ==> z != x)
  {
    hide Execute, AllObserved, Linear, Retains, InProgressFrom, Serves, RowOf;
    ObservedPrefix(a + b, c);
    ObservedPrefix(a, b);
    ExecuteRises(Execute(INITIAL, a), b);
    ExecuteRises(Execute(INITIAL, a + b), c);
  }

  /** Work in progress changes and removes nothing that is served, whatever creates claim. (The one thing it can add is
      an entry whose claimed revision is submitted, see `InProgressAddsExactly`.) */
  lemma WorkInProgressRetains(a: seq<Action>, b: seq<Action>)
    requires ObservedRun(a + b) && InProgressFrom(WorldAfter(a + b).log, |WorldAfter(a).log|)
    ensures Retains(After(a), After(a + b))
  {
    hide Execute, AllObserved, Linear, Retains, InProgressFrom, Rises;
    ObservedPrefix(a, b);
    ExecuteRises(Execute(INITIAL, a), b);
  }

  lemma {:induction false} RunKeepsProjections(w: World, ops: seq<Op>)
    requires Core(w.db) && ProjectionsSafe(w.db)
    ensures ProjectionsSafe(Run(w, ops).db)
    decreases |ops|
  {
    hide Core, Step, ProjectionsSafe, Evolves;
    if ops != [] {
      StepKeepsCore(w.db, ops[0]);
      StepKeepsProjections(w.db, ops[0]);
      RunKeepsProjections(Perform(w, ops[0]), ops[1..]);
    }
  }

  /** The safe half of event agreement, whatever creates claim: what a consumer holds, having got every event in any
      order and number, is served with that revision, content and scope. */
  lemma ConsumersHoldOnlyServed(actions: seq<Action>, delivered: seq<Event>, id: string)
    requires ObservedRun(actions) && DeliversAll(delivered, After(actions).outbox) && id in Consume(delivered)
    ensures Serves(After(actions), id)
    ensures var e, row := Consume(delivered)[id], RowOf(After(actions), id);
      e.published == e.revision == row.revision && e.content == row.content && e.scope == row.scope
  {
    hide Execute, AllObserved, Core, RevisionsAccounted, DeliversAll, Consume, Run;
    ObservedIsSound(actions);
    InterleavingRefinesAtomic(actions);
    assert Core(EMPTY_DB) by { EmptyInv(); InvCore(EMPTY_DB); }
    RunKeepsProjections(START, Intents(WorldAfter(actions).log));
    ConsumerHoldsOnlyServed(After(actions), delivered, id);
  }

  // ----- creates that claim nothing, whatever tokens are sent -----

  /** Published lineage: whatever is published exists as an approved snapshot, or as one made by a rollback. */
  lemma PublishedLineage(actions: seq<Action>, id: string)
    requires UnclaimingRun(actions) && id in After(actions).entries && After(actions).entries[id].published > 0
    ensures var db := After(actions); var p := db.entries[id].published;
      (id, p) in db.revisions && db.revisions[(id, p)].status in {Approved, Published}
  {
    hide Execute, AllUnclaiming;
    UnclaimingRows(actions, id);
    assert After(actions).entries[id].id == id by { AnyIsConstrained(actions); }
  }

  /** Everything any resolution serves has the content of a revision of the same entry that someone other than its
      submitter approved. No client, by whatever token, gets unreviewed content served. */
  lemma ServedHasApprovedSource(actions: seq<Action>, bucket: string -> nat, q: Query, i: nat) returns (r: int)
    requires UnclaimingRun(actions)
    ensures Constraints(After(actions))
    ensures i < |Resolution(After(actions), bucket, q)| ==>
      var row := Resolution(After(actions), bucket, q)[i]; Endorses(After(actions), row.id, r, row.content)
  {
    hide After, UnclaimingRun, Resolution, Constraints, Grounded, Endorses;
    var db := After(actions);
    AnyIsConstrained(actions);
    r := 0;
    if i < |Resolution(db, bucket, q)| {
      ResolutionRows(db, bucket, q);
      var id := Resolution(db, bucket, q)[i].id;
      assert ServedRow(db, Resolution(db, bucket, q)[i]);
      PublishedLineage(actions, id);
      r := SourceOf(actions, id, db.entries[id].published);
    }
  }

  /** An approved or rollback-made snapshot leads to an independently approved one with the same content. */
  lemma SourceOf(actions: seq<Action>, id: string, p: int) returns (r: int)
    requires (id, p) in After(actions).revisions
    requires After(actions).revisions[(id, p)].status in {Approved, Published}
    ensures Endorses(After(actions), id, r, After(actions).revisions[(id, p)].content)
  {
    hide After;
    var db := After(actions);
    r := p;
    if db.revisions[(id, p)].status == Published {
      RollbackRepeatsApproved(actions, id, p);
      var r0 :| ApprovedWith(db, id, r0, db.revisions[(id, p)].content);
      r := r0;
    }
    ReviewIsIndependent(actions, id, r);
  }

  // ----- proper runs: observed tokens, and creates that claim nothing -----

  /** With observed tokens the approved source of what is served is no later than the served revision. */
  lemma ServedWasApproved(actions: seq<Action>, bucket: string -> nat, q: Query, i: nat) returns (r: int)
    requires Proper(actions)
    ensures Constraints(After(actions))
    ensures i < |Resolution(After(actions), bucket, q)| ==>
      var row := Resolution(After(actions), bucket, q)[i];
      1 <= r <= row.revision && Endorses(After(actions), row.id, r, row.content)
  {
    hide After, Proper, Resolution, Inv, Endorses, Constraints;
    ProperIsSound(actions);
    var db := After(actions);
    AnyIsConstrained(actions);
    ResolutionRows(db, bucket, q);
    r := 0;
    if i < |Resolution(db, bucket, q)| {
      assert ServedRow(db, Resolution(db, bucket, q)[i]);
      r := ServedIsEndorsed(db, Resolution(db, bucket, q)[i].id);
    }
  }

  /** Work in progress is invisible: as long as only drafts, submissions and reviews commit, no query can tell the
      difference, neither by what it is served nor by its etag. */
  lemma WorkInProgressIsInvisible(a: seq<Action>, b: seq<Action>)
    requires Proper(a + b) && InProgressFrom(WorldAfter(a + b).log, |WorldAfter(a).log|)
    ensures Constraints(After(a)) && Constraints(After(a + b)) && Indistinguishable(After(a), After(a + b))
  {
    hide Execute, AllObserved, AllUnclaiming, Constraints, Sound, SamePublications, Indistinguishable, InProgressFrom;
    ProperPrefix(a, b);
    AnyIsConstrained(a);
    AnyIsConstrained(a + b);
    ExecuteAdvances(Execute(INITIAL, a), b);
    SamePublicationsLookAlike(After(a), After(a + b));
  }

  /** In proper runs the published column itself never goes back, and the status is published exactly when the newest
      revision is. */
  lemma PublishedNeverGoesBack(a: seq<Action>, b: seq<Action>, id: string)
    requires Proper(a + b) && id in After(a).entries
    ensures id in After(a + b).entries
    ensures var before, later := After(a).entries[id], After(a + b).entries[id];
      before.published <= later.published && (later.status == Published <==> later.published == later.revision)
  {
    hide Execute, AllObserved, AllUnclaiming, Sound, SamePublications, InProgressFrom, Inv;
    ProperPrefix(a, b);
    ExecuteAdvances(Execute(INITIAL, a), b);
    ProperIsSound(a + b);
    InvEntry(After(a + b), id);
  }

  /** The event log agrees with what is served, for a consumer that got the events in any order, any number of times. */
  lemma ConsumersConverge(actions: seq<Action>, delivered: seq<Event>, id: string)
    requires Proper(actions) && DeliversAll(delivered, After(actions).outbox)
    ensures var db, view := After(actions), Consume(delivered);
      && (id in view <==> Serves(db, id))
      && (id in view ==> view[id].published == view[id].revision == RowOf(db, id).revision
                         && view[id].content == RowOf(db, id).content && view[id].scope == RowOf(db, id).scope)
  {
    hide Execute, Inv, DeliversAll, Consume;
    ProperIsSound(actions);
    ConsumerAgreesWithJoin(After(actions), delivered, id);
  }
}
