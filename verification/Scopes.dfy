/** Normalised scopes, and the scope of what is read. */
module Scopes {
  import opened Text
  import opened Model
  import opened Tables
  import opened Workflow
  import opened Served

  lemma TrimIsIdempotent(s: string)
    ensures TrimSpace(TrimSpace(s)) == TrimSpace(s)
  {
    TrimSpaceTrims(s);
    var t := TrimSpace(s);
    assert TrimLeft(t) == t;
    assert TrimRight(t) == t;
  }

  /** Sending back what was stored addresses the same scope and content again. */
  lemma NormalizeIsIdempotent(v: Entry)
    ensures Normalize(Normalize(v)) == Normalize(v)
  {
    hide TrimSpace, Fold;
    FoldIsIdempotent(v.scope.environment);
    FoldIsIdempotent(v.scope.service);
    FoldIsIdempotent(v.scope.key);
    TrimIsIdempotent(v.scope.tenant);
    TrimIsIdempotent(v.scope.application);
    TrimIsIdempotent(v.content.secretRef);
  }

  lemma {:induction false} SelectionScopes(db: Db, bucket: string -> nat, q: Query, keys: seq<string>, i: nat)
    requires Constraints(db) && i < |Selection(db, bucket, q, keys)|
    ensures var scope := Selection(db, bucket, q, keys)[i].scope;
      scope.key in keys && exists level: nat :: level <= 2 && scope == Level(q, scope.key, level)
    decreases |keys|
  {
    hide Pick, Constraints, Level;
    var n := |keys| - 1;
    var earlier := Selection(db, bucket, q, keys[..n]);
    if i < |earlier| {
      SelectionScopes(db, bucket, q, keys[..n], i);
    } else {
      var level := PickedLevel(db, bucket, q, keys[n]);
      LevelKey(q, keys[n], level);
    }
  }

  lemma PickedLevel(db: Db, bucket: string -> nat, q: Query, key: string) returns (level: nat)
    requires Constraints(db) && Pick(db, bucket, q, key).Some?
    ensures level <= 2 && Pick(db, bucket, q, key).value.scope == Level(q, key, level)
  {
    hide Level, Hit;
    level := if HitAt(db, bucket, q, key, 0).Some? then 0 else if HitAt(db, bucket, q, key, 1).Some? then 1 else 2;
  }

  /** A resolution only ever serves the requested environment, service and keys, from the requested tenant or the
      platform, and an application's entries only to that application. */
  lemma ReadersStayInTheirScope(db: Db, bucket: string -> nat, q: Query, i: nat)
    requires Constraints(db) && i < |Resolution(db, bucket, q)|
    ensures var scope := Resolution(db, bucket, q)[i].scope;
      && scope.environment == q.environment && scope.service == q.service && scope.key in q.keys
      && (scope.tenant == q.tenant || (scope.tenant == "" && scope.application == ""))
      && (scope.application == q.application || scope.application == "")
  {
    hide Selection, Constraints;
    SelectionScopes(db, bucket, q, q.keys, i);
  }
}
