/** The etag preimage identifies what was served, now and at any other time. */
module Etag {
  import opened Text
  import opened Model
  import opened Tables
  import opened Served

  /** What a client sees of a row. */
  datatype Item = Item(id: string, revision: int, content: Content)

  function ItemOf(row: Entry): Item {
    Item(row.id, row.revision, row.content)
  }

  function Items(rows: seq<Entry>): seq<Item> {
    seq(|rows|, i requires 0 <= i < |rows| => ItemOf(rows[i]))
  }

  predicate Digits(s: string) {
    forall i :: 0 <= i < |s| ==> '0' <= s[i] <= '9'
  }

  /** A colon followed by digits to the end of the text can be split off in one way only. */
  lemma SplitAtColon(p1: string, d1: string, p2: string, d2: string)
    requires Digits(d1) && Digits(d2) && p1 + ":" + d1 == p2 + ":" + d2
    ensures p1 == p2 && d1 == d2
  {
    var a, b := p1 + ":" + d1, p2 + ":" + d2;
    assert a[|p1|] == ':' && b[|p2|] == ':';
    assert |p1| == |p2|;
    assert a[..|p1|] == p1 && b[..|p2|] == p2;
    assert a[|p1| + 1..] == d1 && b[|p2| + 1..] == d2;
  }

  /** A fixed-width suffix splits off in one way only. */
  lemma SplitSuffix(p1: string, s1: string, p2: string, s2: string)
    requires |s1| == |s2| && p1 + s1 == p2 + s2
    ensures p1 == p2 && s1 == s2
  {
    var a, b := p1 + s1, p2 + s2;
    assert a[..|p1|] == p1 && b[..|p2|] == p2;
    assert a[|p1|..] == s1 && b[|p2|..] == s2;
  }

  /** The last token of a preimage can be read off its end: fixed-width id, colon, digits, semicolon. */
  lemma SplitLastToken(p1: string, id1: string, r1: nat, p2: string, id2: string, r2: nat)
    requires |id1| == |id2| == 36 && p1 + Token(id1, r1) == p2 + Token(id2, r2)
    ensures p1 == p2 && id1 == id2 && r1 == r2
  {
    hide Decimal;
    var d1, d2 := Decimal(r1), Decimal(r2);
    assert p1 + Token(id1, r1) == ((p1 + id1) + ":" + d1) + ";";
    assert p2 + Token(id2, r2) == ((p2 + id2) + ":" + d2) + ";";
    SplitSuffix((p1 + id1) + ":" + d1, ";", (p2 + id2) + ":" + d2, ";");
    SplitAtColon(p1 + id1, d1, p2 + id2, d2);
    SplitSuffix(p1, id1, p2, id2);
    DecimalRoundTrip(r1);
    DecimalRoundTrip(r2);
  }

  /** What is hashed for a row: its id, a colon, its revision in decimal, and a semicolon. */
  lemma TokenReads(id: string, revision: nat)
    ensures var s := Token(id, revision); var n := |s| - 1;
      && |id| + 1 < n && s[..|id|] == id && s[|id|] == ':' && s[n] == ';'
      && ParseDecimal(s[|id| + 1..n]) == revision
  {
    hide Decimal;
    DecimalRoundTrip(revision);
    assert Token(id, revision) == id + ":" + Decimal(revision) + ";";
    assert Token(id, revision)[|id| + 1..|Token(id, revision)| - 1] == Decimal(revision);
  }

  predicate Identified(row: Entry) {
    |row.id| == 36 && row.revision >= 0
  }

  /** Equal preimages come from the same ids and revisions, row by row. */
  lemma {:induction false} PreimageInjective(xs: seq<Entry>, ys: seq<Entry>)
    requires forall i :: 0 <= i < |xs| ==> Identified(xs[i])
    requires forall i :: 0 <= i < |ys| ==> Identified(ys[i])
    requires Preimage(xs) == Preimage(ys)
    ensures |xs| == |ys| && forall i :: 0 <= i < |xs| ==> xs[i].id == ys[i].id && xs[i].revision == ys[i].revision
    decreases |xs|
  {
    hide Token;
    if xs != [] && ys != [] {
      var x, y := xs[|xs| - 1], ys[|ys| - 1];
      var xs', ys' := xs[..|xs| - 1], ys[..|ys| - 1];
      assert Identified(x) && Identified(y);
      SplitLastToken(Preimage(xs'), x.id, x.revision, Preimage(ys'), y.id, y.revision);
      PreimageInjective(xs', ys');
    } else if xs != [] {
      TokenIsNotEmpty(xs);
    } else if ys != [] {
      TokenIsNotEmpty(ys);
    }
  }

  lemma TokenIsNotEmpty(rows: seq<Entry>)
    requires rows != []
    ensures Preimage(rows) != ""
  {
  }

  /** The joined row of an entry that is served. */
  predicate ServedRow(db: Db, row: Entry) {
    Serves(db, row.id) && row == RowOf(db, row.id) && Identified(row)
  }

  predicate AllServed(db: Db, rows: seq<Entry>) {
    forall i :: 0 <= i < |rows| ==> ServedRow(db, rows[i])
  }

  lemma PickedRow(db: Db, bucket: string -> nat, q: Query, key: string)
    requires Constraints(db) && Pick(db, bucket, q, key).Some?
    ensures ServedRow(db, Pick(db, bucket, q, key).value)
  {
    hide Hit, Level;
  }

  /** Every resolved row is the joined row of an entry that is served. */
  lemma {:induction false} SelectionRows(db: Db, bucket: string -> nat, q: Query, keys: seq<string>)
    requires Constraints(db)
    ensures AllServed(db, Selection(db, bucket, q, keys))
    decreases |keys|
  {
    hide Pick, Constraints, ServedRow;
    if keys != [] {
      SelectionRows(db, bucket, q, keys[..|keys| - 1]);
      var picked := Pick(db, bucket, q, keys[|keys| - 1]);
      if picked.Some? { PickedRow(db, bucket, q, keys[|keys| - 1]); }
    }
  }

  lemma ResolutionRows(db: Db, bucket: string -> nat, q: Query)
    requires Constraints(db)
    ensures AllServed(db, Resolution(db, bucket, q))
  {
    hide Selection;
    SelectionRows(db, bucket, q, q.keys);
  }

  /** Two resolutions, possibly of different queries and at different times, with the same preimage serve the
      same ids, revisions, values, secret references and rollouts in the same order. */
  lemma SamePreimageSameItems(a: Db, b: Db, bucketA: string -> nat, bucketB: string -> nat, qa: Query, qb: Query)
    requires Constraints(a) && Constraints(b) && Evolves(a, b)
    ensures Preimage(Resolution(a, bucketA, qa)) == Preimage(Resolution(b, bucketB, qb))
      ==> Items(Resolution(a, bucketA, qa)) == Items(Resolution(b, bucketB, qb))
  {
    hide Resolution, Constraints, Preimage, UuidShape;
    ResolutionRows(a, bucketA, qa);
    ResolutionRows(b, bucketB, qb);
    var xs, ys := Resolution(a, bucketA, qa), Resolution(b, bucketB, qb);
    if Preimage(xs) == Preimage(ys) {
      PreimageInjective(xs, ys);
      forall i | 0 <= i < |xs| ensures ItemOf(xs[i]) == ItemOf(ys[i]) {
        assert ServedRow(a, xs[i]) && ServedRow(b, ys[i]);
        assert xs[i] == RowOf(a, xs[i].id) && ys[i] == RowOf(b, xs[i].id);
        assert (xs[i].id, xs[i].revision) in a.revisions;
      }
    }
  }

  /** Conversely the preimage depends on nothing but the items. */
  lemma {:induction false} SameItemsSamePreimage(xs: seq<Entry>, ys: seq<Entry>)
    requires Items(xs) == Items(ys)
    ensures Preimage(xs) == Preimage(ys)
    decreases |xs|
  {
    assert |Items(xs)| == |Items(ys)|;
    if xs != [] {
      var n := |xs| - 1;
      forall i | 0 <= i < |xs| ensures ItemOf(xs[i]) == ItemOf(ys[i]) {
        assert Items(xs)[i] == Items(ys)[i];
      }
      assert Items(xs[..n]) == Items(ys[..n]);
      SameItemsSamePreimage(xs[..n], ys[..n]);
    }
  }
}
