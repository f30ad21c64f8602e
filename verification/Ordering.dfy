/** Enumerating a finite set of ids in an order, as ORDER BY does. */
module Ordering {

  ghost predicate TotalPreorder(leq: (string, string) -> bool) {
    && (forall a, b :: leq(a, b) || leq(b, a))
    && (forall a, b, c :: leq(a, b) && leq(b, c) ==> leq(a, c))
  }

  ghost predicate Sorted(leq: (string, string) -> bool, s: seq<string>) {
    forall i, j :: 0 <= i < j < |s| ==> leq(s[i], s[j])
  }

  ghost predicate Distinct<T>(s: seq<T>) {
    forall i, j :: 0 <= i < j < |s| ==> s[i] != s[j]
  }

  function Insert(leq: (string, string) -> bool, x: string, s: seq<string>): seq<string> {
    if s == [] || leq(x, s[0]) then [x] + s else [s[0]] + Insert(leq, x, s[1..])
  }

  lemma {:induction false} InsertMembers(leq: (string, string) -> bool, x: string, s: seq<string>)
    ensures forall y :: y in Insert(leq, x, s) <==> y == x || y in s
    decreases |s|
  {
    if s != [] && !leq(x, s[0]) {
      InsertMembers(leq, x, s[1..]);
      assert s == [s[0]] + s[1..];
    }
  }

  lemma {:induction false} InsertSorts(leq: (string, string) -> bool, x: string, s: seq<string>)
    requires TotalPreorder(leq) && Sorted(leq, s)
    ensures Sorted(leq, Insert(leq, x, s))
    decreases |s|
  {
    if s != [] && !leq(x, s[0]) {
      InsertSorts(leq, x, s[1..]);
      InsertMembers(leq, x, s[1..]);
      var t := Insert(leq, x, s[1..]);
      forall j | 0 <= j < |t| ensures leq(s[0], t[j]) {
        assert t[j] in t;
      }
    }
  }

  lemma {:induction false} InsertDistinct(leq: (string, string) -> bool, x: string, s: seq<string>)
    requires Distinct(s) && x !in s
    ensures Distinct(Insert(leq, x, s))
    decreases |s|
  {
    if s != [] && !leq(x, s[0]) {
      InsertDistinct(leq, x, s[1..]);
      InsertMembers(leq, x, s[1..]);
      var t := Insert(leq, x, s[1..]);
      forall j | 0 <= j < |t| ensures s[0] != t[j] {
        assert t[j] in t;
      }
    }
  }

  /** Every finite set can be listed in order, each element once. */
  lemma {:induction false} Enumerate(leq: (string, string) -> bool, ids: set<string>) returns (s: seq<string>)
    requires TotalPreorder(leq)
    ensures Sorted(leq, s) && Distinct(s) && forall y :: y in s <==> y in ids
    decreases |ids|
  {
    if ids == {} {
      s := [];
    } else {
      var x :| x in ids;
      var rest := Enumerate(leq, ids - {x});
      InsertMembers(leq, x, rest);
      InsertSorts(leq, x, rest);
      InsertDistinct(leq, x, rest);
      s := Insert(leq, x, rest);
    }
  }
}
