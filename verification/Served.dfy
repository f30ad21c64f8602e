/** The read path: the join behind a resolution, its specification, and the loops that compute it. */
module Served {
  import opened Text
  import opened Model
  import opened Admission
  import opened Tables
  import opened Rollout
  import opened Ordering

  /** The literal request; nothing is normalised on this side. */
  datatype Query = Query(environment: string, tenant: string, application: string, service: string,
                         subject: string, keys: seq<string>)

  // ----- the join -----

  /** The entry has a published revision and its snapshot exists. */
  predicate Serves(db: Db, id: string) {
    id in db.entries && db.entries[id].published > 0 && (id, db.entries[id].published) in db.revisions
  }

  /** The joined row: content, revision and review of the snapshot, everything else of the entry. */
  function RowOf(db: Db, id: string): Entry
    requires Serves(db, id)
  {
    var e := db.entries[id];
    var s := db.revisions[(id, e.published)];
    e.(content := s.content, status := Published, revision := e.published, review := s.review)
  }

  predicate Matches(q: Query, scope: Scope) {
    && scope.environment == q.environment
    && ((scope.tenant == q.tenant && scope.application == q.application)
        || (scope.tenant == q.tenant && scope.application == "")
        || (scope.tenant == "" && scope.application == ""))
    && scope.service == q.service
    && scope.key in q.keys
  }

  function Rank(q: Query, scope: Scope): nat {
    if scope.tenant == q.tenant && scope.application == q.application then 0
    else if scope.tenant == q.tenant && scope.application == "" then 1
    else 2
  }

  /** What the database may answer: each matching row once, by rank, in any order within a rank. */
  ghost predicate Answer(db: Db, q: Query, rows: seq<Entry>) {
    && (forall i :: 0 <= i < |rows| ==>
          Serves(db, rows[i].id) && rows[i] == RowOf(db, rows[i].id) && Matches(q, rows[i].scope))
    && (forall id :: Serves(db, id) && Matches(q, db.entries[id].scope)
          ==> exists i :: 0 <= i < |rows| && rows[i].id == id)
    && (forall i, j :: 0 <= i < j < |rows| ==> rows[i].id != rows[j].id)
    && (forall i, j :: 0 <= i < j < |rows| ==> Rank(q, rows[i].scope) <= Rank(q, rows[j].scope))
  }

  // ----- the specification -----

  ghost function PublishedAt(db: Db, scope: Scope): Option<Entry>
    requires Constraints(db)
  {
    match GetByScope(db, scope)
    case None => None
    case Some(e) => if Serves(db, e.id) then Some(RowOf(db, e.id)) else None
  }

  predicate Hit(bucket: string -> nat, subject: string, row: Entry) {
    RolloutHit(bucket, subject, row.scope.key, row.revision, row.content.rollout)
  }

  function Level(q: Query, key: string, level: nat): Scope {
    if level == 0 then Scope(q.environment, q.tenant, q.application, q.service, key)
    else if level == 1 then Scope(q.environment, q.tenant, "", q.service, key)
    else Scope(q.environment, "", "", q.service, key)
  }

  /** The published entry of a level, if the subject is in its rollout. */
  ghost function HitAt(db: Db, bucket: string -> nat, q: Query, key: string, level: nat): Option<Entry>
    requires Constraints(db)
  {
    var p := PublishedAt(db, Level(q, key, level));
    if p.Some? && Hit(bucket, q.subject, p.value) then p else None
  }

  /** Application, then tenant, then platform; a rollout miss falls through to the next level. */
  ghost function Pick(db: Db, bucket: string -> nat, q: Query, key: string): Option<Entry>
    requires Constraints(db)
  {
    if HitAt(db, bucket, q, key, 0).Some? then HitAt(db, bucket, q, key, 0)
    else if HitAt(db, bucket, q, key, 1).Some? then HitAt(db, bucket, q, key, 1)
    else HitAt(db, bucket, q, key, 2)
  }

  function Listed(o: Option<Entry>): seq<Entry> {
    if o.Some? then [o.value] else []
  }

  /** One row per requested key that has one, in request order, repeated when the key is. */
  ghost function Selection(db: Db, bucket: string -> nat, q: Query, keys: seq<string>): seq<Entry>
    requires Constraints(db)
  {
    if keys == [] then []
    else Selection(db, bucket, q, keys[..|keys| - 1]) + Listed(Pick(db, bucket, q, keys[|keys| - 1]))
  }

  ghost function Resolution(db: Db, bucket: string -> nat, q: Query): seq<Entry>
    requires Constraints(db)
  {
    Selection(db, bucket, q, q.keys)
  }

  function Token(id: string, revision: int): string {
    id + ":" + Print(revision) + ";"
  }

  /** What the etag is the digest of. */
  function Preimage(rows: seq<Entry>): string {
    if rows == [] then ""
    else Preimage(rows[..|rows| - 1]) + Token(rows[|rows| - 1].id, rows[|rows| - 1].revision)
  }

  // ----- the loops -----

  /** Row i is the first hit for its key. */
  ghost predicate FirstHit(bucket: string -> nat, subject: string, rows: seq<Entry>, i: nat, key: string) {
    && i < |rows| && rows[i].scope.key == key && Hit(bucket, subject, rows[i])
    && forall j :: 0 <= j < i && rows[j].scope.key == key ==> !Hit(bucket, subject, rows[j])
  }

  /** A row that hits at some level stands among the rows at a rank no higher than the level. */
  lemma HitIsAnswered(db: Db, bucket: string -> nat, q: Query, rows: seq<Entry>, key: string, level: nat)
    returns (j: nat)
    requires Constraints(db) && Answer(db, q, rows) && key in q.keys && level <= 2
    requires HitAt(db, bucket, q, key, level).Some?
    ensures j < |rows| && rows[j] == HitAt(db, bucket, q, key, level).value
    ensures rows[j].scope == Level(q, key, level) && Rank(q, rows[j].scope) <= level && Hit(bucket, q.subject, rows[j])
  {
    hide Hit;
    var row := HitAt(db, bucket, q, key, level).value;
    assert Serves(db, row.id) && Matches(q, db.entries[row.id].scope);
    j :| 0 <= j < |rows| && rows[j].id == row.id;
  }

  /** The first hit for a key is what the specification picks. */
  lemma FirstHitIsPick(db: Db, bucket: string -> nat, q: Query, rows: seq<Entry>, i: nat, key: string)
    requires Constraints(db) && Answer(db, q, rows) && FirstHit(bucket, q.subject, rows, i, key)
    ensures Pick(db, bucket, q, key) == Some(rows[i])
  {
    hide Hit, Rank, Level, Matches, Constraints, HitAt;
    var level := Rank(q, rows[i].scope);
    assert rows[i].scope == Level(q, key, level) && level <= 2 && key in q.keys by { LevelFacts(q, rows[i].scope); }
    assert HitAt(db, bucket, q, key, level) == Some(rows[i]) by { RowHitsAtItsLevel(db, bucket, q, rows, i); }
    if level > 0 { EarlierLevelMisses(db, bucket, q, rows, i, key, 0); }
    if level > 1 { EarlierLevelMisses(db, bucket, q, rows, i, key, 1); }
  }

  lemma EarlierLevelMisses(db: Db, bucket: string -> nat, q: Query, rows: seq<Entry>, i: nat, key: string, level: nat)
    requires Constraints(db) && Answer(db, q, rows) && FirstHit(bucket, q.subject, rows, i, key)
    requires level < Rank(q, rows[i].scope) && level <= 2 && key in q.keys
    ensures HitAt(db, bucket, q, key, level).None?
  {
    hide Hit, Rank, Level, Matches, Constraints, HitAt;
    LevelKey(q, key, level);
    if HitAt(db, bucket, q, key, level).Some? {
      var j := HitIsAnswered(db, bucket, q, rows, key, level);
      assert false;
    }
  }

  lemma LevelFacts(q: Query, scope: Scope)
    requires Matches(q, scope)
    ensures scope == Level(q, scope.key, Rank(q, scope)) && Rank(q, scope) <= 2 && scope.key in q.keys
  {
  }

  lemma LevelKey(q: Query, key: string, level: nat)
    ensures Level(q, key, level).key == key
  {
  }

  lemma RowHitsAtItsLevel(db: Db, bucket: string -> nat, q: Query, rows: seq<Entry>, i: nat)
    requires Constraints(db) && Answer(db, q, rows) && i < |rows| && Hit(bucket, q.subject, rows[i])
    ensures HitAt(db, bucket, q, rows[i].scope.key, Rank(q, rows[i].scope)) == Some(rows[i])
  {
    hide Hit;
    LevelFacts(q, rows[i].scope);
    GetByScopeFinds(db, rows[i].id);
  }

  /** A requested key none of whose rows hit gets nothing. */
  lemma NoHitIsNone(db: Db, bucket: string -> nat, q: Query, rows: seq<Entry>, key: string)
    requires Constraints(db) && Answer(db, q, rows) && key in q.keys
    requires forall j :: 0 <= j < |rows| && rows[j].scope.key == key ==> !Hit(bucket, q.subject, rows[j])
    ensures Pick(db, bucket, q, key) == None
  {
    hide Hit, Rank, Level, Matches, Constraints, HitAt, Answer;
    forall level: nat | level <= 2
      ensures HitAt(db, bucket, q, key, level).None?
    {
      if HitAt(db, bucket, q, key, level).Some? {
        LevelKey(q, key, level);
        var j := HitIsAnswered(db, bucket, q, rows, key, level);
        assert false;
      }
    }
  }

  /** The outcome of the first loop: per key, the first row the subject hits. */
  ghost predicate SelectsFirstHits(bucket: string -> nat, subject: string, rows: seq<Entry>,
                                   selected: map<string, Entry>)
  {
    && (forall k :: k in selected ==>
          exists i :: 0 <= i < |rows| && FirstHit(bucket, subject, rows, i, k) && selected[k] == rows[i])
    && (forall i :: 0 <= i < |rows| && Hit(bucket, subject, rows[i]) ==> rows[i].scope.key in selected)
  }

  method FirstHits(bucket: string -> nat, subject: string, rows: seq<Entry>) returns (selected: map<string, Entry>)
    ensures SelectsFirstHits(bucket, subject, rows, selected)
  {
    hide Hit;
    selected := map[];
    for n := 0 to |rows|
      invariant forall k :: k in selected ==>
                  exists i :: 0 <= i < n && FirstHit(bucket, subject, rows, i, k) && selected[k] == rows[i]
      invariant forall i :: 0 <= i < n && Hit(bucket, subject, rows[i]) ==> rows[i].scope.key in selected
    {
      var value := rows[n];
      if value.scope.key !in selected && Hit(bucket, subject, value) {
        assert FirstHit(bucket, subject, rows, n, value.scope.key);
        selected := selected[value.scope.key := value];
      }
    }
  }

  /** What the first loop selected for a requested key is what the specification picks. */
  lemma SelectedIsPick(db: Db, bucket: string -> nat, q: Query, rows: seq<Entry>, selected: map<string, Entry>,
                       key: string)
    requires Constraints(db) && Answer(db, q, rows) && key in q.keys
    requires SelectsFirstHits(bucket, q.subject, rows, selected)
    ensures Pick(db, bucket, q, key) == if key in selected then Some(selected[key]) else None
  {
    hide Hit, Answer, Constraints, Pick;
    if key in selected {
      var i :| 0 <= i < |rows| && FirstHit(bucket, q.subject, rows, i, key) && selected[key] == rows[i];
      FirstHitIsPick(db, bucket, q, rows, i, key);
    } else {
      NoHitIsNone(db, bucket, q, rows, key);
    }
  }

  lemma SelectionGrows(db: Db, bucket: string -> nat, q: Query, n: nat)
    requires Constraints(db) && n < |q.keys|
    ensures Selection(db, bucket, q, q.keys[..n + 1]) ==
            Selection(db, bucket, q, q.keys[..n]) + Listed(Pick(db, bucket, q, q.keys[n]))
  {
    hide Pick, Constraints;
    assert q.keys[..n + 1][..n] == q.keys[..n];
  }

  lemma PreimageGrows(rows: seq<Entry>, row: Entry)
    ensures Preimage(rows + [row]) == Preimage(rows) + Token(row.id, row.revision)
  {
    hide Token;
    assert (rows + [row])[..|rows|] == rows;
  }

  /** Resolves the rows the database answered, unless its query is lost; without keys there is no query to lose. The
      result does not depend on which of the possible answers it was. `digest` stands for the hexadecimal SHA-256
      digest. */
  method Resolve(ghost db: Db, bucket: string -> nat, digest: string -> string, ctx: Context, q: Query,
                 rows: seq<Entry>, lost: bool)
    returns (r: Result<(seq<Entry>, string), AppError>)
    requires Constraints(db) && Answer(db, q, rows)
    ensures match Refusal(ctx, q.tenant, q.application)
      case Some(e) => r == Err(e)
      case None =>
        if lost && q.keys != [] then r == Err(Internal)
        else r == Ok((Resolution(db, bucket, q), digest(Preimage(Resolution(db, bucket, q)))))
    ensures r.Ok? ==> Permitted(ctx, q.tenant, q.application)
  {
    hide Authorize, Refusal, Permitted, Hit, Answer, Constraints, Pick, Token, Selection, Preimage, SelectsFirstHits;
    AuthorizeExactly(ctx, q.tenant, q.application);
    var auth := Authorize(ctx, q.tenant, q.application);
    if auth.Err? {
      return Err(auth.error);
    }
    if lost && q.keys != [] {
      return Err(Internal);
    }
    var selected := FirstHits(bucket, q.subject, rows);
    var result, hashed := [], "";
    NothingSelected(db, bucket, q);
    for n := 0 to |q.keys|
      invariant result == Selection(db, bucket, q, q.keys[..n])
      invariant hashed == Preimage(result)
    {
      var key := q.keys[n];
      SelectionGrows(db, bucket, q, n);
      SelectedIsPick(db, bucket, q, rows, selected, key);
      if key in selected {
        var value := selected[key];
        PreimageGrows(result, value);
        result := result + [value];
        hashed := hashed + Token(value.id, value.revision);
      }
    }
    assert q.keys[..|q.keys|] == q.keys;
    r := Ok((result, digest(hashed)));
  }

  lemma NothingSelected(db: Db, bucket: string -> nat, q: Query)
    requires Constraints(db)
    ensures Selection(db, bucket, q, q.keys[..0]) == [] && Preimage([]) == ""
  {
  }

  /** The database always has such an answer. */
  lemma AnswerExists(db: Db, q: Query) returns (rows: seq<Entry>)
    requires Constraints(db)
    ensures Answer(db, q, rows)
  {
    hide Rank, Matches;
    var ids := set id | id in db.entries && Serves(db, id) && Matches(q, db.entries[id].scope);
    var rank := (id: string) => if id in db.entries then Rank(q, db.entries[id].scope) else 0;
    var s := Enumerate((a, b) => rank(a) <= rank(b), ids);
    assert forall i :: 0 <= i < |s| ==> s[i] in ids;
    rows := seq(|s|, i requires 0 <= i < |s| => RowOf(db, s[i]));
    forall id | Serves(db, id) && Matches(q, db.entries[id].scope)
      ensures exists i :: 0 <= i < |rows| && rows[i].id == id
    {
      assert id in s;
      var i :| 0 <= i < |s| && s[i] == id;
      assert rows[i].id == id;
    }
  }
}
