/** What changes the served view, and what everything served leads back to. */
module Publications {
  import opened Model
  import opened Tables
  import opened Workflow
  import opened Invariant
  import opened Transitions
  import opened Preservation
  import opened Served
  import opened Etag

  // ----- work in progress is invisible -----

  /** Drafting, submitting and reviewing. */
  predicate InProgress(req: Request) {
    !req.Publish? && !req.Rollback?
  }

  ghost predicate SamePublication(a: Db, b: Db, id: string) {
    && (Serves(a, id) <==> Serves(b, id))
    && (Serves(a, id) ==> ItemOf(RowOf(a, id)) == ItemOf(RowOf(b, id)) && RowOf(a, id).scope == RowOf(b, id).scope)
  }

  /** The same entries are served, in the same scopes, with the same revision and content. */
  ghost predicate SamePublications(a: Db, b: Db) {
    forall id :: SamePublication(a, b, id)
  }

  /** Equal up to what a client sees. */
  ghost predicate Alike(a: Option<Entry>, b: Option<Entry>) {
    && (a.Some? <==> b.Some?)
    && (a.Some? ==> ItemOf(a.value) == ItemOf(b.value) && a.value.scope == b.value.scope)
  }

  lemma SamePublishedAt(a: Db, b: Db, scope: Scope)
    requires Constraints(a) && Constraints(b) && SamePublications(a, b)
    ensures Alike(PublishedAt(a, scope), PublishedAt(b, scope))
  {
    if PublishedAt(a, scope).Some? {
      var id := PublishedAt(a, scope).value.id;
      assert SamePublication(a, b, id);
      GetByScopeFinds(b, id);
    } else if PublishedAt(b, scope).Some? {
      var id := PublishedAt(b, scope).value.id;
      assert SamePublication(a, b, id);
      GetByScopeFinds(a, id);
    }
  }

  lemma SamePick(a: Db, b: Db, bucket: string -> nat, q: Query, key: string)
    requires Constraints(a) && Constraints(b) && SamePublications(a, b)
    ensures Alike(Pick(a, bucket, q, key), Pick(b, bucket, q, key))
  {
    hide Constraints, SamePublications, PublishedAt, Level;
    SamePublishedAt(a, b, Level(q, key, 0));
    SamePublishedAt(a, b, Level(q, key, 1));
    SamePublishedAt(a, b, Level(q, key, 2));
  }

  lemma {:induction false} SameSelection(a: Db, b: Db, bucket: string -> nat, q: Query, keys: seq<string>)
    requires Constraints(a) && Constraints(b) && SamePublications(a, b)
    ensures Items(Selection(a, bucket, q, keys)) == Items(Selection(b, bucket, q, keys))
    decreases |keys|
  {
    hide Constraints, SamePublications, Pick;
    if keys != [] {
      var n := |keys| - 1;
      SameSelection(a, b, bucket, q, keys[..n]);
      SamePick(a, b, bucket, q, keys[n]);
      ItemsOfConcat(Selection(a, bucket, q, keys[..n]), Listed(Pick(a, bucket, q, keys[n])));
      ItemsOfConcat(Selection(b, bucket, q, keys[..n]), Listed(Pick(b, bucket, q, keys[n])));
      SameListed(Pick(a, bucket, q, keys[n]), Pick(b, bucket, q, keys[n]));
    }
  }

  lemma ItemsOfConcat(xs: seq<Entry>, ys: seq<Entry>)
    ensures Items(xs + ys) == Items(xs) + Items(ys)
  {
  }

  lemma SameListed(a: Option<Entry>, b: Option<Entry>)
    requires Alike(a, b)
    ensures Items(Listed(a)) == Items(Listed(b))
  {
  }

  /** Every query of either state gets the same items and the same etag preimage. */
  ghost predicate Indistinguishable(a: Db, b: Db)
    requires Constraints(a) && Constraints(b)
  {
    forall bucket: string -> nat, q: Query ::
      && Items(Resolution(a, bucket, q)) == Items(Resolution(b, bucket, q))
      && Preimage(Resolution(a, bucket, q)) == Preimage(Resolution(b, bucket, q))
  }

  lemma SamePublicationsLookAlike(a: Db, b: Db)
    requires Constraints(a) && Constraints(b) && SamePublications(a, b)
    ensures Indistinguishable(a, b)
  {
    hide Constraints, SamePublications, Selection, Preimage, Items;
    forall bucket: string -> nat, q: Query
      ensures Items(Resolution(a, bucket, q)) == Items(Resolution(b, bucket, q))
      ensures Preimage(Resolution(a, bucket, q)) == Preimage(Resolution(b, bucket, q))
    {
      SameSelection(a, b, bucket, q, q.keys);
      SameItemsSamePreimage(Resolution(a, bucket, q), Resolution(b, bucket, q));
    }
  }

  /** An effect that keeps the published revision and does not touch its content. */
  ghost predicate Unpublished(db: Db, eff: Effect) {
    var id, key := eff.row.id, (eff.row.id, eff.row.revision);
    if id in db.entries then
      && eff.row.published == db.entries[id].published && eff.row.scope == db.entries[id].scope
      && (eff.snapshot.Some? && eff.row.published == eff.row.revision
          ==> key in db.revisions && eff.snapshot.value.content == db.revisions[key].content)
    else eff.row.published <= 0
  }

  lemma UnpublishedIsInvisible(db: Db, eff: Effect)
    requires Keyed(db) && Unpublished(db, eff)
    ensures SamePublications(db, Apply(db, eff))
  {
    forall id ensures SamePublication(db, Apply(db, eff), id) {
    }
  }

  lemma InProgressIsUnpublished(db: Db, op: Op)
    requires Inv(db) && Legal(db, op) && Clean(db, op.req) && InProgress(op.req)
    ensures Unpublished(db, EffectOf(db, op))
  {
    hide Core, EntryPublication, Disciplined, Authorize, Acceptable, Normalize;
    if op.req.PutDraft? {
      var v := Normalize(op.req.value);
      NormalizeKeepsPublished(op.req.value);
      if ScopeTaken(db, v.scope) { RowFacts(db, v.scope); }
    } else {
      EntryFacts(db, op.req.id);
      NotYetPublished(db, op.req.id);
    }
  }

  lemma NotYetPublished(db: Db, id: string)
    requires Inv(db) && id in db.entries && db.entries[id].status != Published
    ensures db.entries[id].published < db.entries[id].revision
  {
    hide Inv;
    InvEntry(db, id);
  }

  lemma InProgressIsInvisible(db: Db, op: Op)
    requires Inv(db) && Clean(db, op.req) && InProgress(op.req)
    ensures SamePublications(db, Step(db, op).db)
  {
    hide Core, EntryPublication, Legal, EffectOf, Apply, Step, Serves, RowOf, Clean;
    StepFollows(db, op);
    if Legal(db, op) {
      InProgressIsUnpublished(db, op);
      CoreConstraints(db);
      UnpublishedIsInvisible(db, EffectOf(db, op));
    }
  }

  /** Publishing and rolling back raise the published revision strictly, to the newest revision. */
  lemma PublicationRises(db: Db, op: Op)
    requires Inv(db) && Legal(db, op) && !InProgress(op.req)
    ensures var row := EffectOf(db, op).row;
      row.id in db.entries && db.entries[row.id].published < row.published == row.revision
  {
    hide Core, EntryPublication, Disciplined, Authorize;
    EntryFacts(db, op.req.id);
    InvEntry(db, op.req.id);
  }

  lemma SamePublicationsTransitive(a: Db, b: Db, c: Db)
    requires SamePublications(a, b) && SamePublications(b, c)
    ensures SamePublications(a, c)
  {
    forall id ensures SamePublication(a, c, id) {
      assert SamePublication(a, b, id) && SamePublication(b, c, id);
    }
  }

  // ----- whatever creates claim -----

  /** What is served stays served, and never under a lower revision. */
  ghost predicate Rises(a: Db, b: Db) {
    forall id :: Serves(a, id) ==> Serves(b, id) && RowOf(a, id).revision <= RowOf(b, id).revision
  }

  /** What is served stays served, with the same revision, content and scope. */
  ghost predicate Retains(a: Db, b: Db) {
    forall id :: Serves(a, id) ==> SamePublication(a, b, id)
  }

  /** Serving needs a snapshot, and no snapshot lies above the newest revision. */
  lemma ServedIsBounded(db: Db, id: string)
    requires Core(db) && Serves(db, id)
    ensures db.entries[id].published <= db.entries[id].revision
  {
    hide Core, RowOk, HistoryOk;
    CoreEntry(db, id);
  }

  /** Either the published revision stays and so does the content of every snapshot, or the newest revision, which has
      a snapshot, becomes the published one. */
  ghost predicate StaysOrMovesUp(db: Db, eff: Effect, stays: bool) {
    var id, key := eff.row.id, (eff.row.id, eff.row.revision);
    id in db.entries ==>
      && eff.row.scope == db.entries[id].scope
      && (if stays then
            && eff.row.published == db.entries[id].published
            && (eff.snapshot.Some? && key in db.revisions ==> eff.snapshot.value.content == db.revisions[key].content)
          else
            && eff.row.published == eff.row.revision >= db.entries[id].revision && eff.row.revision > 0
            && (eff.snapshot.Some? || key in db.revisions))
  }

  lemma EffectStaysOrMovesUp(db: Db, op: Op)
    requires Core(db) && Legal(db, op)
    ensures StaysOrMovesUp(db, EffectOf(db, op), InProgress(op.req))
  {
    hide Core, Disciplined, Authorize, Acceptable, Normalize;
    if op.req.PutDraft? {
      var scope := Normalize(op.req.value).scope;
      if ScopeTaken(db, scope) { RowFacts(db, scope); }
    } else {
      EntryFacts(db, op.req.id);
      assert db.entries[op.req.id].revision >= 1 by { CoreEntry(db, op.req.id); }
    }
  }

  lemma EffectRises(db: Db, op: Op)
    requires Core(db) && Legal(db, op)
    ensures var db' := Apply(db, EffectOf(db, op)); Rises(db, db') && (InProgress(op.req) ==> Retains(db, db'))
  {
    hide Core, Legal, EffectOf, InProgress;
    var eff := EffectOf(db, op);
    EffectStaysOrMovesUp(db, op);
    CoreConstraints(db);
    forall id | Serves(db, id)
      ensures Serves(Apply(db, eff), id) && RowOf(db, id).revision <= RowOf(Apply(db, eff), id).revision
      ensures InProgress(op.req) ==> SamePublication(db, Apply(db, eff), id)
    {
      ServedIsBounded(db, id);
    }
  }

  /** One operation, whatever it claims: what is served only rises, and stays exactly as it is unless the operation
      publishes or rolls back. */
  lemma StepRises(db: Db, op: Op)
    requires Core(db)
    ensures Rises(db, Step(db, op).db) && (InProgress(op.req) ==> Retains(db, Step(db, op).db))
  {
    hide Core, Legal, EffectOf, Apply, Step, Serves, RowOf;
    StepFollows(db, op);
    if Legal(db, op) {
      EffectRises(db, op);
    }
  }

  /** The one way work in progress becomes visible: submitting the very revision a create claimed as published. */
  lemma InProgressAddsExactly(db: Db, op: Op, id: string)
    requires Core(db) && Legal(db, op) && InProgress(op.req)
    ensures Serves(Apply(db, EffectOf(db, op)), id) && !Serves(db, id)
      <==> op.req.Submit? && op.req.id == id && db.entries[id].published == db.entries[id].revision
  {
    hide Core, Disciplined, Authorize, Acceptable, Normalize;
    if op.req.PutDraft? {
      var scope := Normalize(op.req.value).scope;
      if ScopeTaken(db, scope) {
        RowFacts(db, scope);
      } else {
        CoreConstraints(db);
        assert forall k :: k in db.revisions ==> k.0 != op.ctx.newId;
      }
    } else {
      EntryFacts(db, op.req.id);
      assert db.entries[op.req.id].revision >= 1 by { CoreEntry(db, op.req.id); }
    }
  }

  // ----- what is served was independently approved -----

  /** A snapshot that someone other than its submitter approved. */
  predicate IndependentlyApproved(s: Snapshot) {
    s.status == Approved && s.review.reviewedBy != s.createdBy
  }

  predicate Endorses(db: Db, id: string, r: int, c: Content) {
    (id, r) in db.revisions && db.revisions[(id, r)].content == c && IndependentlyApproved(db.revisions[(id, r)])
  }

  lemma ApprovedIsEndorsed(db: Db, id: string, r: int)
    requires id in db.entries && HistoryOk(db, id)
    requires (id, r) in db.revisions && db.revisions[(id, r)].status == Approved
    ensures Endorses(db, id, r, db.revisions[(id, r)].content)
  {
    hide Disciplined;
  }

  /** Whatever is served, directly or through a chain of rollbacks, has the content of a revision of the same
      entry that someone other than its submitter approved. */
  lemma ServedIsEndorsed(db: Db, id: string) returns (r: int)
    requires Inv(db) && Serves(db, id)
    ensures 1 <= r <= RowOf(db, id).revision && Endorses(db, id, r, RowOf(db, id).content)
  {
    hide Inv, Disciplined, Coupled, RowOk;
    InvEntry(db, id);
    CoreEntry(db, id);
    var p := db.entries[id].published;
    var c := db.revisions[(id, p)].content;
    if db.revisions[(id, p)].status == Approved {
      r := p;
    } else {
      assert ApprovedBefore(db, id, p, c);
      var r0 :| 1 <= r0 < p && ApprovedWith(db, id, r0, c);
      r := r0;
    }
    ApprovedIsEndorsed(db, id, r);
  }
}
