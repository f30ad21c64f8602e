/** Listing the entries of a scope page by page. */
module Paging {
  import opened Model
  import opened Admission
  import opened Tables
  import opened Ordering

  datatype ListQuery = ListQuery(environment: string, tenant: string, application: string, service: string)

  datatype Page = Page(entries: seq<Entry>, total: int, page: int, pageSize: int)

  /** A total order on keys. */
  predicate KeyLeq(a: string, b: string) {
    if a == "" then true
    else if b == "" then false
    else if a[0] != b[0] then a[0] < b[0]
    else KeyLeq(a[1..], b[1..])
  }

  lemma {:induction false} KeyLeqTotal(a: string, b: string)
    ensures KeyLeq(a, b) || KeyLeq(b, a)
    decreases |a|
  {
    if a != "" && b != "" && a[0] == b[0] {
      KeyLeqTotal(a[1..], b[1..]);
    }
  }

  lemma {:induction false} KeyLeqTransitive(a: string, b: string, c: string)
    requires KeyLeq(a, b) && KeyLeq(b, c)
    ensures KeyLeq(a, c)
    decreases |a|
  {
    if a != "" && b != "" && c != "" && a[0] == b[0] == c[0] {
      KeyLeqTransitive(a[1..], b[1..], c[1..]);
    }
  }

  lemma {:induction false} KeyLeqAntisymmetric(a: string, b: string)
    requires KeyLeq(a, b) && KeyLeq(b, a)
    ensures a == b
    decreases |a|
  {
    if a != "" && b != "" {
      KeyLeqAntisymmetric(a[1..], b[1..]);
      assert a == [a[0]] + a[1..] && b == [b[0]] + b[1..];
    }
  }

  /** The keys agree up to position n, where the first one ends or has the smaller character. */
  predicate Precedes(a: string, b: string, n: nat) {
    n <= |a| && n <= |b| && a[..n] == b[..n] && (n == |a| || (n < |b| && a[n] < b[n]))
  }

  /** The order is ascending: by the first difference, a prefix before what extends it. */
  lemma {:induction false} KeyLeqExactly(a: string, b: string)
    ensures KeyLeq(a, b) <==> exists n: nat :: Precedes(a, b, n)
    decreases |a|
  {
    if a == "" {
      assert Precedes(a, b, 0);
    } else if b != "" && a[0] == b[0] {
      KeyLeqExactly(a[1..], b[1..]);
      assert a == [a[0]] + a[1..] && b == [b[0]] + b[1..];
      if n: nat :| Precedes(a[1..], b[1..], n) {
        assert Precedes(a, b, n + 1);
      }
      if n: nat :| Precedes(a, b, n) {
        assert n > 0;
        assert a[1..][..n - 1] == a[..n][1..] && b[1..][..n - 1] == b[..n][1..];
        assert Precedes(a[1..], b[1..], n - 1);
      }
    } else if b != "" && a[0] < b[0] {
      assert Precedes(a, b, 0);
    } else {
      assert forall n: nat :: n > 0 && n <= |a| && n <= |b| && a[..n] == b[..n] ==> a[..n][0] == b[..n][0];
    }
  }

  predicate Within(q: ListQuery, scope: Scope) {
    && scope.environment == q.environment && scope.tenant == q.tenant
    && scope.application == q.application && scope.service == q.service
  }

  ghost predicate InKeyOrder(rows: seq<Entry>) {
    forall i, j :: 0 <= i < j < |rows| ==> KeyLeq(rows[i].scope.key, rows[j].scope.key)
  }

  ghost predicate Lists(db: Db, q: ListQuery, rows: seq<Entry>) {
    && (forall i :: 0 <= i < |rows| ==>
          rows[i].id in db.entries && rows[i] == db.entries[rows[i].id] && Within(q, rows[i].scope))
    && (forall id :: id in db.entries && Within(q, db.entries[id].scope) ==> db.entries[id] in rows)
    && Distinct(rows)
  }

  /** The rows of the scope, each once, ordered by key: the SELECT without its LIMIT. */
  ghost predicate Listing(db: Db, q: ListQuery, rows: seq<Entry>) {
    Lists(db, q, rows) && InKeyOrder(rows)
  }

  lemma SameKeySameRow(db: Db, q: ListQuery, a: Entry, b: Entry)
    requires Constraints(db) && a.id in db.entries && db.entries[a.id] == a
    requires b.id in db.entries && db.entries[b.id] == b
    requires Within(q, a.scope) && Within(q, b.scope) && a.scope.key == b.scope.key
    ensures a == b
  {
  }

  /** Two listings agree on each position once they agree before it: the smallest row left is the same. */
  lemma ListingsAgreeAt(db: Db, q: ListQuery, xs: seq<Entry>, ys: seq<Entry>, n: nat)
    requires Constraints(db) && Listing(db, q, xs) && Listing(db, q, ys)
    requires n < |xs| && n <= |ys| && xs[..n] == ys[..n]
    ensures n < |ys| && xs[n] == ys[n]
  {
    hide Constraints, KeyLeq, Within;
    var j := FindBeyond(db, q, xs, ys, n);
    var i := FindBeyond(db, q, ys, xs, n);
    if i > n && j > n {
      KeyLeqAntisymmetric(xs[n].scope.key, ys[n].scope.key);
      SameKeySameRow(db, q, xs[n], ys[n]);
    }
  }

  /** The n-th row of one listing stands at or beyond position n of the other. */
  lemma FindBeyond(db: Db, q: ListQuery, xs: seq<Entry>, ys: seq<Entry>, n: nat) returns (j: nat)
    requires Lists(db, q, xs) && Lists(db, q, ys)
    requires n < |xs| && n <= |ys| && xs[..n] == ys[..n]
    ensures n <= j < |ys| && ys[j] == xs[n]
  {
    hide Lists;
    assert Distinct(xs) && xs[n] in ys by { Transferred(db, q, xs, ys, n); }
    PrefixAgrees(xs, ys, n);
    j :| 0 <= j < |ys| && ys[j] == xs[n];
  }

  lemma Transferred(db: Db, q: ListQuery, xs: seq<Entry>, ys: seq<Entry>, n: nat)
    requires Lists(db, q, xs) && Lists(db, q, ys) && n < |xs|
    ensures Distinct(xs) && xs[n] in ys
  {
    hide Within, Distinct;
  }

  lemma PrefixAgrees(xs: seq<Entry>, ys: seq<Entry>, n: nat)
    requires n <= |xs| && n <= |ys| && xs[..n] == ys[..n]
    ensures forall k :: 0 <= k < n ==> xs[k] == ys[k]
  {
    forall k | 0 <= k < n ensures xs[k] == ys[k] {
      assert xs[..n][k] == ys[..n][k];
    }
  }

  lemma {:induction false} ListingsAgreeUpTo(db: Db, q: ListQuery, xs: seq<Entry>, ys: seq<Entry>, n: nat)
    requires Constraints(db) && Listing(db, q, xs) && Listing(db, q, ys) && n <= |xs|
    ensures n <= |ys| && xs[..n] == ys[..n]
  {
    hide Constraints, Listing;
    if n > 0 {
      ListingsAgreeUpTo(db, q, xs, ys, n - 1);
      ListingsAgreeAt(db, q, xs, ys, n - 1);
      assert xs[..n] == xs[..n - 1] + [xs[n - 1]] && ys[..n] == ys[..n - 1] + [ys[n - 1]];
    }
  }

  /** Keys are unique within a scope, so the listing is determined: pages fetched one by one fit together. */
  lemma ListingIsUnique(db: Db, q: ListQuery, xs: seq<Entry>, ys: seq<Entry>)
    requires Constraints(db) && Listing(db, q, xs) && Listing(db, q, ys)
    ensures xs == ys
  {
    hide Constraints, Listing;
    ListingsAgreeUpTo(db, q, xs, ys, |xs|);
    ListingsAgreeUpTo(db, q, ys, xs, |ys|);
    assert xs[..|xs|] == xs && ys[..|ys|] == ys;
  }

  lemma ListingExists(db: Db, q: ListQuery) returns (rows: seq<Entry>)
    requires Constraints(db)
    ensures Listing(db, q, rows)
  {
    hide KeyLeq, Within, ScopesUnique;
    var ids := set id | id in db.entries && Within(q, db.entries[id].scope);
    var key := (id: string) => if id in db.entries then db.entries[id].scope.key else "";
    var leq := (a, b) => KeyLeq(key(a), key(b));
    assert TotalPreorder(leq) by {
      forall a, b ensures leq(a, b) || leq(b, a) { KeyLeqTotal(key(a), key(b)); }
      forall a, b, c | leq(a, b) && leq(b, c) ensures leq(a, c) { KeyLeqTransitive(key(a), key(b), key(c)); }
    }
    var s := Enumerate(leq, ids);
    assert forall i :: 0 <= i < |s| ==> s[i] in ids;
    rows := seq(|s|, i requires 0 <= i < |s| => db.entries[s[i]]);
    forall id | id in ids ensures db.entries[id] in rows {
      assert id in s;
      var i :| 0 <= i < |s| && s[i] == id;
      assert rows[i] == db.entries[id];
    }
    forall i, j | 0 <= i < j < |rows|
      ensures KeyLeq(rows[i].scope.key, rows[j].scope.key) && rows[i] != rows[j]
    {
      assert leq(s[i], s[j]) && s[i] != s[j];
    }
  }

  function Clip(n: int, bound: nat): (r: nat)
    ensures r <= bound
  {
    if n < 0 then 0 else if n < bound then n else bound
  }

  /** LIMIT and OFFSET on a listing. */
  function Slice(rows: seq<Entry>, limit: nat, offset: int): seq<Entry> {
    rows[Clip(offset, |rows|)..Clip(offset + limit, |rows|)]
  }

  /** At most `limit` of the rows, fewer only at their end, the first of them at the offset. */
  predicate IsPage(rows: seq<Entry>, offset: int, limit: int, page: seq<Entry>) {
    && offset >= 0
    && |page| == (if offset >= |rows| then 0 else if limit <= |rows| - offset then limit else |rows| - offset)
    && forall i :: 0 <= i < |page| ==> page[i] == rows[offset + i]
  }

  lemma SliceReads(rows: seq<Entry>, limit: nat, offset: nat)
    ensures IsPage(rows, offset, limit, Slice(rows, limit, offset))
  {
  }

  lemma OffsetIsNatural(page: int, size: int)
    requires page >= 1 && size >= 1
    ensures (page - 1) * size >= 0
  {
  }

  /** The rows are of the environment, tenant, application and service asked for. */
  predicate InScope(q: ListQuery, rows: seq<Entry>) {
    forall i :: 0 <= i < |rows| ==>
      && rows[i].scope.environment == q.environment && rows[i].scope.tenant == q.tenant
      && rows[i].scope.application == q.application && rows[i].scope.service == q.service
  }

  /** A listing has the entries of its scope, all of them, by ascending keys. */
  lemma ListingInScope(db: Db, q: ListQuery, rows: seq<Entry>)
    requires Listing(db, q, rows)
    ensures InScope(q, rows)
    ensures forall id :: id in db.entries && InScope(q, [db.entries[id]]) ==> db.entries[id] in rows
  {
    hide InKeyOrder, Distinct;
    forall id | id in db.entries && InScope(q, [db.entries[id]]) ensures db.entries[id] in rows {
      assert [db.entries[id]][0] == db.entries[id];
    }
  }

  /** The number of entries of a scope: the SELECT count(*). */
  ghost function ScopeSize(db: Db, q: ListQuery): nat {
    |set id | id in db.entries && Within(q, db.entries[id].scope)|
  }

  /** A page request: non-positive page and size fall back to 1 and 20, sizes above 100 are refused, and a lost query
      is an internal error. The count and the page are two queries, which may see two states. */
  method List(ghost counted: Db, ghost listed: Db, ctx: Context, q: ListQuery, page: int, pageSize: int, total: nat,
              listing: seq<Entry>, lost: bool)
    returns (r: Result<Page, AppError>)
    requires total == ScopeSize(counted, q) && Listing(listed, q, listing)
    ensures match Refusal(ctx, q.tenant, q.application)
      case Some(e) => r == Err(e)
      case None => if pageSize > 100 then r == Err(Invalid) else if lost then r == Err(Internal) else r.Ok?
    ensures r.Ok? ==>
      && Permitted(ctx, q.tenant, q.application)
      && r.value.total == ScopeSize(counted, q)
      && r.value.page == (if page <= 0 then 1 else page)
      && r.value.pageSize == (if pageSize <= 0 then 20 else pageSize)
      && r.value.entries == PageOf(listing, r.value.pageSize, r.value.page)
      && IsPage(listing, (r.value.page - 1) * r.value.pageSize, r.value.pageSize, r.value.entries)
      && InScope(q, r.value.entries)
  {
    hide Authorize, Refusal, Permitted, Listing, Slice;
    AuthorizeExactly(ctx, q.tenant, q.application);
    var auth := Authorize(ctx, q.tenant, q.application);
    if auth.Err? {
      return Err(auth.error);
    }
    var number, size := page, pageSize;
    if number <= 0 {
      number := 1;
    }
    if size <= 0 {
      size := 20;
    }
    if size > 100 {
      return Err(Invalid);
    }
    if lost {
      return Err(Internal);
    }
    OffsetIsNatural(number, size);
    SliceReads(listing, size, (number - 1) * size);
    ListingInScope(listed, q, listing);
    r := Ok(Page(Slice(listing, size, (number - 1) * size), total, number, size));
  }

  lemma {:induction false} DistinctCount(s: seq<string>)
    requires Distinct(s)
    ensures |set x | x in s| == |s|
    decreases |s|
  {
    if s != [] {
      var rest := s[..|s| - 1];
      DistinctCount(rest);
      assert (set x | x in s) == (set x | x in rest) + {s[|s| - 1]};
    }
  }

  /** The listing has as many rows as the scope has entries. */
  lemma ListingLength(db: Db, q: ListQuery, rows: seq<Entry>)
    requires Constraints(db) && Listing(db, q, rows)
    ensures |rows| == ScopeSize(db, q)
  {
    hide Within, InKeyOrder, ScopesUnique;
    var ids := seq(|rows|, i requires 0 <= i < |rows| => rows[i].id);
    assert Distinct(ids);
    DistinctCount(ids);
    assert (set x | x in ids) == (set id | id in db.entries && Within(q, db.entries[id].scope)) by {
      forall id | id in db.entries && Within(q, db.entries[id].scope) ensures id in ids {
        var i :| 0 <= i < |rows| && rows[i] == db.entries[id];
        assert ids[i] == id;
      }
    }
  }

  /** Entries are never removed, so the total of a request never exceeds what its later query lists. */
  lemma CountNeverExceedsListing(counted: Db, listed: Db, q: ListQuery, listing: seq<Entry>)
    requires Evolves(counted, listed) && Constraints(listed) && Listing(listed, q, listing)
    ensures ScopeSize(counted, q) <= |listing|
  {
    hide Within, Listing, Constraints, SnapshotsEvolve;
    ListingLength(listed, q, listing);
    var before := set id | id in counted.entries && Within(q, counted.entries[id].scope);
    var after := set id | id in listed.entries && Within(q, listed.entries[id].scope);
    assert before <= after;
    SubsetSize(before, after);
  }

  lemma {:induction false} SubsetSize(a: set<string>, b: set<string>)
    requires a <= b
    ensures |a| <= |b|
    decreases a
  {
    if a != {} {
      var x :| x in a;
      SubsetSize(a - {x}, b - {x});
    }
  }

  function PageOf(rows: seq<Entry>, size: int, page: int): seq<Entry>
    requires size >= 1 && page >= 1
  {
    Slice(rows, size, (page - 1) * size)
  }

  /** The first n pages put together. */
  function Pages(rows: seq<Entry>, size: int, n: nat): seq<Entry>
    requires size >= 1
  {
    if n == 0 then [] else Pages(rows, size, n - 1) + PageOf(rows, size, n)
  }

  lemma NextSlice(rows: seq<Entry>, size: nat, offset: int)
    ensures rows[..Clip(offset, |rows|)] + Slice(rows, size, offset) == rows[..Clip(offset + size, |rows|)]
  {
  }

  lemma {:induction false} PagesArePrefix(rows: seq<Entry>, size: int, n: nat)
    requires size >= 1
    ensures Pages(rows, size, n) == rows[..Clip(n * size, |rows|)]
  {
    hide Slice, Clip;
    if n == 0 {
      assert rows[..Clip(0, |rows|)] == [] by { EmptyClip(|rows|); }
      assert n * size == 0;
    } else {
      var offset := (n - 1) * size;
      PagesArePrefix(rows, size, n - 1);
      NextSlice(rows, size, offset);
      assert offset + size == n * size;
    }
  }

  lemma EmptyClip(bound: nat)
    ensures Clip(0, bound) == 0
  {
  }

  function PageCount(total: nat, size: int): nat
    requires size >= 1
  {
    (total + size - 1) / size
  }

  lemma CeilingCovers(total: nat, size: int)
    requires size >= 1
    ensures total <= PageCount(total, size) * size < total + size
  {
    var m := total + size - 1;
    assert m == m / size * size + m % size;
  }

  lemma LaterOffset(total: nat, size: int, page: int)
    requires size >= 1 && page > PageCount(total, size)
    ensures (page - 1) * size >= total
  {
    CeilingCovers(total, size);
    var k := page - 1 - PageCount(total, size);
    assert (page - 1) * size == PageCount(total, size) * size + k * size;
    assert k * size >= 0;
  }

  /** The pages partition the listing: up to the ceiling of total by size they concatenate to every row of the
      scope exactly once in key order, and all later pages are empty. */
  lemma PagesPartition(db: Db, q: ListQuery, listing: seq<Entry>, size: int)
    requires Listing(db, q, listing) && size >= 1
    ensures Pages(listing, size, PageCount(|listing|, size)) == listing
    ensures forall page: int :: page > PageCount(|listing|, size) ==> PageOf(listing, size, page) == []
  {
    hide Listing, PageCount;
    PagesArePrefix(listing, size, PageCount(|listing|, size));
    CeilingCovers(|listing|, size);
    forall page: int | page > PageCount(|listing|, size) ensures PageOf(listing, size, page) == [] {
      LaterOffset(|listing|, size, page);
    }
  }
}
