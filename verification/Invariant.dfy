/** The inductive invariant that ties the three tables together. */
module Invariant {
  import opened Model
  import opened Tables

  // ----- one entry and its history -----

  /** The scope CHECK of the schema: an application belongs to a tenant. */
  predicate ScopeOk(scope: Scope) {
    scope.tenant == "" ==> scope.application == ""
  }

  /** A row by itself. */
  predicate RowOk(id: string, e: Entry) {
    && e.id == id
    && e.revision >= 1 && e.version >= 1
    && Disciplined(e.scope.key, e.content)
    && ScopeOk(e.scope)
  }

  /** The snapshot at an entry's newest revision holds the entry's content and mirrors its status. While a
      review is pending, its creator is whoever last updated the entry: the submitter. */
  predicate Agrees(e: Entry, s: Snapshot) {
    && s.content == e.content
    && (e.status == PendingApproval ==> s.status == PendingApproval && s.createdBy == e.updatedBy)
    && (e.status in {Approved, Rejected} ==> s.status == e.status)
    && (e.status == Published ==> s.status in {Approved, Published})
  }

  /** No snapshot lies above the newest revision, and one exists there exactly when it is not a draft. */
  ghost predicate Coupled(db: Db, id: string)
    requires id in db.entries
  {
    var e := db.entries[id];
    && (forall r: int :: (id, r) in db.revisions ==> 1 <= r <= e.revision)
    && ((id, e.revision) in db.revisions <==> e.status != Draft)
    && ((id, e.revision) in db.revisions ==> Agrees(e, db.revisions[(id, e.revision)]))
  }

  /** Approval and rejection are never signed by the submitter. */
  predicate SnapshotOk(key: string, s: Snapshot) {
    && Disciplined(key, s.content)
    && s.status != Draft
    && (s.status in {Approved, Rejected} ==> s.review.reviewedBy != s.createdBy)
  }

  predicate ApprovedWith(db: Db, id: string, r: int, c: Content) {
    (id, r) in db.revisions && db.revisions[(id, r)].status == Approved && db.revisions[(id, r)].content == c
  }

  /** Some revision of the entry, before `r`, was approved with this very content. */
  ghost predicate ApprovedBefore(db: Db, id: string, r: int, c: Content) {
    exists r0: int :: 1 <= r0 < r && ApprovedWith(db, id, r0, c)
  }

  /** Every snapshot is sound, and one made by a rollback repeats an earlier approved one. */
  ghost predicate HistoryOk(db: Db, id: string)
    requires id in db.entries
  {
    forall r: int :: (id, r) in db.revisions ==>
      && SnapshotOk(db.entries[id].scope.key, db.revisions[(id, r)])
      && (db.revisions[(id, r)].status == Published ==> ApprovedBefore(db, id, r, db.revisions[(id, r)].content))
  }

  /** The status is published exactly when the newest revision is the published one. */
  predicate StatusOk(e: Entry) {
    e.published <= e.revision && (e.status == Published <==> e.published == e.revision)
  }

  /** What the read path joins to exists and was approved, directly or through a rollback. */
  predicate PublishedOk(db: Db, id: string)
    requires id in db.entries
  {
    var p := db.entries[id].published;
    p > 0 ==> (id, p) in db.revisions && db.revisions[(id, p)].status in {Approved, Published}
  }

  /** The newest event of an entry whose status is published. */
  function LastPublished(outbox: seq<Event>, id: string): Option<Event> {
    if outbox == [] then None
    else
      var last := outbox[|outbox| - 1];
      if last.entry.id == id && last.entry.status == Published then Some(last)
      else LastPublished(outbox[..|outbox| - 1], id)
  }

  /** The event log and the join agree on what is published. */
  ghost predicate ProjectionOk(db: Db, id: string)
    requires id in db.entries
  {
    var p := db.entries[id].published;
    match LastPublished(db.outbox, id)
    case None => p <= 0
    case Some(ev) =>
      && p > 0 && ev.entry.published == p && ev.entry.revision == p
      && (id, p) in db.revisions && ev.entry.content == db.revisions[(id, p)].content
  }

  /** What holds of an entry and its history, whatever revision a create claimed as published. */
  ghost predicate EntryCore(db: Db, id: string)
    requires id in db.entries
  {
    RowOk(id, db.entries[id]) && Coupled(db, id) && HistoryOk(db, id)
  }

  /** What holds of an entry's publication when no create claimed one. */
  ghost predicate EntryPublication(db: Db, id: string)
    requires id in db.entries
  {
    StatusOk(db.entries[id]) && PublishedOk(db, id) && ProjectionOk(db, id)
  }

  // ----- the log -----

  /** An event describes an entry that exists, no later than its present version. */
  predicate EventOk(db: Db, ev: Event) {
    && ev.entry.id in db.entries
    && ev.entry.scope == db.entries[ev.entry.id].scope
    && ev.entry.version <= db.entries[ev.entry.id].version
    && Disciplined(ev.entry.scope.key, ev.entry.content)
  }

  /** Along the log, the events of one entry carry strictly increasing versions. */
  ghost predicate Increasing(outbox: seq<Event>) {
    forall i, j :: 0 <= i < j < |outbox| && outbox[i].entry.id == outbox[j].entry.id
      ==> outbox[i].entry.version < outbox[j].entry.version
  }

  ghost predicate LogOk(db: Db) {
    && (forall i :: 0 <= i < |db.outbox| ==> EventOk(db, db.outbox[i]))
    && Increasing(db.outbox)
  }

  ghost predicate Core(db: Db) {
    && Constraints(db)
    && (forall id :: id in db.entries ==> EntryCore(db, id))
    && LogOk(db)
  }

  ghost predicate Inv(db: Db) {
    && Core(db)
    && (forall id :: id in db.entries ==> EntryPublication(db, id))
  }

  lemma EmptyInv()
    ensures Inv(EMPTY_DB)
  {
  }

  lemma InvCore(db: Db)
    requires Inv(db)
    ensures Core(db)
  {
    hide Core;
  }

  lemma CoreConstraints(db: Db)
    requires Core(db)
    ensures Constraints(db) && Keyed(db)
  {
    hide EntryCore, LogOk;
  }

  lemma CoreEntry(db: Db, id: string)
    requires Core(db) && id in db.entries
    ensures EntryCore(db, id) && RowOk(id, db.entries[id])
  {
    hide Coupled, HistoryOk, LogOk, Constraints, RowOk;
  }

  lemma InvEntry(db: Db, id: string)
    requires Inv(db) && id in db.entries
    ensures Core(db) && EntryPublication(db, id) && StatusOk(db.entries[id]) && PublishedOk(db, id)
  {
    hide Core, StatusOk, PublishedOk, ProjectionOk;
  }

  // ----- effects: everything a committed operation changes -----

  /** One row, at most one snapshot at that row's revision, at most one event. */
  datatype Effect = Effect(row: Entry, snapshot: Option<Snapshot>, event: Option<Event>)

  function Apply(db: Db, eff: Effect): Db {
    Db(db.entries[eff.row.id := eff.row],
       if eff.snapshot.Some? then db.revisions[(eff.row.id, eff.row.revision) := eff.snapshot.value] else db.revisions,
       if eff.event.Some? then db.outbox + [eff.event.value] else db.outbox)
  }

  lemma LastPublishedOfAppend(outbox: seq<Event>, ev: Event, id: string)
    ensures LastPublished(outbox + [ev], id) ==
            if ev.entry.id == id && ev.entry.status == Published then Some(ev) else LastPublished(outbox, id)
  {
    assert (outbox + [ev])[..|outbox|] == outbox;
  }

  /** An effect leaves the other entries and their histories alone. */
  lemma OthersKeepCore(db: Db, eff: Effect, id: string)
    requires id in db.entries && id != eff.row.id && EntryCore(db, id)
    ensures EntryCore(Apply(db, eff), id)
  {
    hide Disciplined;
    var db' := Apply(db, eff);
    forall r: int | (id, r) in db'.revisions && db'.revisions[(id, r)].status == Published
      ensures ApprovedBefore(db', id, r, db'.revisions[(id, r)].content)
    {
      var c := db.revisions[(id, r)].content;
      assert ApprovedBefore(db, id, r, c);
      var r0 :| 1 <= r0 < r && ApprovedWith(db, id, r0, c);
      assert ApprovedWith(db', id, r0, c);
    }
  }

  lemma OthersKeepPublication(db: Db, eff: Effect, id: string)
    requires id in db.entries && id != eff.row.id && EntryPublication(db, id)
    requires eff.event.Some? ==> eff.event.value.entry.id == eff.row.id
    ensures EntryPublication(Apply(db, eff), id)
  {
    if eff.event.Some? {
      LastPublishedOfAppend(db.outbox, eff.event.value, id);
    }
  }

  /** An effect on an existing row keeps its scope and raises its version, one on a new row has a free scope, and
      its event describes the row. */
  ghost predicate Fits(db: Db, eff: Effect) {
    && (if eff.row.id in db.entries
        then eff.row.scope == db.entries[eff.row.id].scope && db.entries[eff.row.id].version < eff.row.version
        else UuidShape(eff.row.id) && !ScopeTaken(db, eff.row.scope))
    && (eff.event.Some? ==> eff.row.id in db.entries && eff.event.value.entry == eff.row)
  }

  /** The log stays sound when the version of the row grows with every event. */
  lemma LogKeeps(db: Db, eff: Effect)
    requires LogOk(db) && Fits(db, eff)
    requires Disciplined(eff.row.scope.key, eff.row.content)
    ensures LogOk(Apply(db, eff))
  {
    hide Disciplined, ScopeTaken, UuidShape;
  }

  lemma ConstraintsKeep(db: Db, eff: Effect)
    requires Constraints(db) && Fits(db, eff)
    ensures Constraints(Apply(db, eff))
  {
  }

  /** An effect keeps the core once it is known to hold of the entry it touches. */
  lemma CoreKeeps(db: Db, eff: Effect)
    requires Core(db) && Fits(db, eff)
    requires EntryCore(Apply(db, eff), eff.row.id)
    ensures Core(Apply(db, eff))
  {
    var db' := Apply(db, eff);
    LogKeeps(db, eff);
    ConstraintsKeep(db, eff);
    forall id | id in db'.entries
      ensures EntryCore(db', id)
    {
      if id != eff.row.id {
        OthersKeepCore(db, eff, id);
      }
    }
  }

  lemma InvKeeps(db: Db, eff: Effect)
    requires Inv(db) && Fits(db, eff)
    requires Core(Apply(db, eff)) && EntryPublication(Apply(db, eff), eff.row.id)
    ensures Inv(Apply(db, eff))
  {
    hide Core;
    var db' := Apply(db, eff);
    forall id | id in db'.entries
      ensures EntryPublication(db', id)
    {
      if id != eff.row.id {
        OthersKeepPublication(db, eff, id);
      }
    }
  }
}
