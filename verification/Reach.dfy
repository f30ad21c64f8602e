/** Whom a published entry reaches, in terms of the tables and the query alone. */
module Reach {
  import opened Model
  import opened Tables
  import opened Rollout
  import opened Served
  import opened Etag

  /** The entry is joined with the snapshot of its published revision. */
  ghost predicate Joined(db: Db, id: string, e: Entry, s: Snapshot) {
    && id in db.entries && e == db.entries[id] && e.published > 0
    && (id, e.published) in db.revisions && s == db.revisions[(id, e.published)]
  }

  /** A resolved row is that of a joined entry: content and review are the snapshot's and the revision is the published
      one, the status says so, and everything else is the entry's. */
  ghost predicate IsJoin(db: Db, row: Entry) {
    exists e, s ::
      && Joined(db, row.id, e, s)
      && row.content == s.content && row.review == s.review && row.revision == e.published
      && row.status == Published && row.published == e.published
      && row.scope == e.scope && row.version == e.version
      && row.createdBy == e.createdBy && row.updatedBy == e.updatedBy
  }

  lemma ResolvedRowsAreJoins(db: Db, bucket: string -> nat, q: Query, i: nat)
    requires Constraints(db) && i < |Resolution(db, bucket, q)|
    ensures IsJoin(db, Resolution(db, bucket, q)[i])
  {
    hide Resolution, ScopesUnique, UuidShape;
    ResolutionRows(db, bucket, q);
    var row := Resolution(db, bucket, q)[i];
    assert ServedRow(db, row);
    assert Joined(db, row.id, db.entries[row.id], db.revisions[(row.id, row.revision)]);
  }

  /** The subject is within the rollout: always at 100, never at 0, never without a name below 100, and otherwise by
      its bucket for the key and the revision. */
  predicate Reaches(bucket: string -> nat, subject: string, row: Entry) {
    || row.content.rollout >= 100
    || (row.content.rollout > 0 && subject != ""
        && bucket(BucketInput(subject, row.scope.key, row.revision)) % 100 < row.content.rollout)
  }

  lemma PickReaches(db: Db, bucket: string -> nat, q: Query, key: string)
    requires Constraints(db) && Pick(db, bucket, q, key).Some?
    ensures Reaches(bucket, q.subject, Pick(db, bucket, q, key).value)
  {
    hide Level, PublishedAt, Constraints, BucketInput;
  }

  /** Every resolved row reaches the subject. */
  lemma {:induction false} SelectionReaches(db: Db, bucket: string -> nat, q: Query, keys: seq<string>, i: nat)
    requires Constraints(db) && i < |Selection(db, bucket, q, keys)|
    ensures Reaches(bucket, q.subject, Selection(db, bucket, q, keys)[i])
    decreases |keys|
  {
    hide Pick, Constraints, Reaches;
    var n := |keys| - 1;
    if i < |Selection(db, bucket, q, keys[..n])| {
      SelectionReaches(db, bucket, q, keys[..n], i);
    } else {
      PickReaches(db, bucket, q, keys[n]);
    }
  }

  /** Below full rollout only named subjects are served, by their bucket; nothing is served at rollout 0. */
  lemma ResolvedRowsReach(db: Db, bucket: string -> nat, q: Query, i: nat)
    requires Constraints(db) && i < |Resolution(db, bucket, q)|
    ensures Reaches(bucket, q.subject, Resolution(db, bucket, q)[i])
    ensures Resolution(db, bucket, q)[i].content.rollout > 0
    ensures q.subject == "" ==> Resolution(db, bucket, q)[i].content.rollout >= 100
  {
    hide Selection, Constraints, BucketInput;
    SelectionReaches(db, bucket, q, q.keys, i);
  }

  /** The entry of a key at the query's own application, at its tenant, or at the platform. */
  predicate Concerns(q: Query, key: string, scope: Scope) {
    && scope.environment == q.environment && scope.service == q.service && scope.key == key
    && ((scope.tenant == q.tenant && (scope.application == q.application || scope.application == ""))
        || (scope.tenant == "" && scope.application == ""))
  }

  /** The first scope comes before the second for this query: the application's own before any other, the tenant's
      before the platform's. */
  predicate Overrides(q: Query, a: Scope, b: Scope) {
    && a.tenant == q.tenant
    && (if a.application == q.application then !(b.tenant == q.tenant && b.application == q.application)
        else a.application == "" && b.tenant != q.tenant)
  }

  lemma ReachingEntryHits(db: Db, bucket: string -> nat, q: Query, key: string, id: string) returns (level: nat)
    requires Constraints(db) && Serves(db, id) && Concerns(q, key, db.entries[id].scope)
    requires Reaches(bucket, q.subject, RowOf(db, id))
    ensures level <= 2 && HitAt(db, bucket, q, key, level) == Some(RowOf(db, id))
    ensures forall higher: nat :: higher < level ==> Overrides(q, Level(q, key, higher), db.entries[id].scope)
  {
    hide BucketInput, UuidShape;
    var scope := db.entries[id].scope;
    level := if scope.tenant == q.tenant && scope.application == q.application then 0
             else if scope.tenant == q.tenant then 1 else 2;
    GetByScopeFinds(db, id);
    assert Level(q, key, level) == scope;
  }

  /** What is picked for a key is any entry that reaches the subject, or one that overrides it. */
  lemma ReachingEntryPicks(db: Db, bucket: string -> nat, q: Query, key: string, id: string)
    requires Constraints(db) && Serves(db, id) && Concerns(q, key, db.entries[id].scope)
    requires Reaches(bucket, q.subject, RowOf(db, id))
    ensures Pick(db, bucket, q, key).Some?
    ensures var row := Pick(db, bucket, q, key).value;
      row.scope.key == key && (row == RowOf(db, id) || Overrides(q, row.scope, db.entries[id].scope))
  {
    hide Constraints, Reaches, RowOf, Serves, Concerns, HitAt, Level, Overrides;
    var level := ReachingEntryHits(db, bucket, q, key, id);
    forall l: nat | l <= 2 && HitAt(db, bucket, q, key, l).Some?
      ensures HitAt(db, bucket, q, key, l).value.scope == Level(q, key, l)
    {
      HitScope(db, bucket, q, key, l);
    }
    LevelKey(q, key, 0);
    LevelKey(q, key, 1);
    LevelKey(q, key, 2);
  }

  lemma HitScope(db: Db, bucket: string -> nat, q: Query, key: string, level: nat)
    requires Constraints(db) && HitAt(db, bucket, q, key, level).Some?
    ensures HitAt(db, bucket, q, key, level).value.scope == Level(q, key, level)
  {
    hide Hit, Level;
  }

  /** Every pick of a requested key stands in the selection. */
  lemma {:induction false} PickIsSelected(db: Db, bucket: string -> nat, q: Query, keys: seq<string>, key: string)
    returns (i: nat)
    requires Constraints(db) && key in keys && Pick(db, bucket, q, key).Some?
    ensures i < |Selection(db, bucket, q, keys)|
    ensures Selection(db, bucket, q, keys)[i] == Pick(db, bucket, q, key).value
    decreases |keys|
  {
    hide Pick, Constraints;
    var n := |keys| - 1;
    if keys[n] == key {
      i := |Selection(db, bucket, q, keys[..n])|;
    } else {
      i := PickIsSelected(db, bucket, q, keys[..n], key);
    }
  }

  /** Precedence with fall-through: as soon as one published entry of application, tenant or platform reaches the
      subject, the key is answered with that entry or with one that overrides it. */
  lemma ReachingEntryIsServed(db: Db, bucket: string -> nat, q: Query, key: string, id: string) returns (i: nat)
    requires Constraints(db) && key in q.keys && Serves(db, id) && Concerns(q, key, db.entries[id].scope)
    requires Reaches(bucket, q.subject, RowOf(db, id))
    ensures i < |Resolution(db, bucket, q)|
    ensures var row := Resolution(db, bucket, q)[i];
      row.scope.key == key && (row == RowOf(db, id) || Overrides(q, row.scope, db.entries[id].scope))
  {
    hide Pick, Constraints, Selection, Reaches, RowOf, Serves, Concerns, Overrides;
    ReachingEntryPicks(db, bucket, q, key, id);
    i := PickIsSelected(db, bucket, q, q.keys, key);
  }

  /** Full rollout reaches every subject, the nameless one included: the key is answered, and by the application's own
      entry if that is the one at full rollout. */
  lemma FullRolloutReachesEveryone(db: Db, bucket: string -> nat, q: Query, key: string, id: string, e: Entry,
                                   s: Snapshot)
    returns (i: nat)
    requires Constraints(db) && key in q.keys && Joined(db, id, e, s) && Concerns(q, key, e.scope)
    requires s.content.rollout >= 100
    ensures i < |Resolution(db, bucket, q)| && Resolution(db, bucket, q)[i].scope.key == key
    ensures e.scope.tenant == q.tenant && e.scope.application == q.application ==> Resolution(db, bucket, q)[i].id == id
  {
    hide Resolution, ScopesUnique, UuidShape, Concerns, BucketInput;
    i := ReachingEntryIsServed(db, bucket, q, key, id);
  }
}
