/** The string operations the configuration service relies on: trimming, lower-casing,
    substring search and decimal formatting. */
module Text {

  /** Go's `unicode.IsSpace`. */
  predicate IsSpace(c: char) {
    || '\t' <= c <= '\r'
    || c == ' ' || c == '\U{0085}' || c == '\U{00A0}' || c == '\U{1680}'
    || '\U{2000}' <= c <= '\U{200A}'
    || c == '\U{2028}' || c == '\U{2029}' || c == '\U{202F}' || c == '\U{205F}' || c == '\U{3000}'
  }

  /** No white space at either end. */
  predicate Trimmed(s: string) {
    s == "" || (!IsSpace(s[0]) && !IsSpace(s[|s| - 1]))
  }

  function TrimLeft(s: string): string {
    if s != "" && IsSpace(s[0]) then TrimLeft(s[1..]) else s
  }

  function TrimRight(s: string): string {
    if s != "" && IsSpace(s[|s| - 1]) then TrimRight(s[..|s| - 1]) else s
  }

  function TrimSpace(s: string): string {
    TrimRight(TrimLeft(s))
  }

  lemma {:induction false} TrimLeftStart(s: string)
    ensures var r := TrimLeft(s); r == "" || !IsSpace(r[0])
    decreases |s|
  {
    if s != "" && IsSpace(s[0]) {
      TrimLeftStart(s[1..]);
    }
  }

  lemma {:induction false} TrimRightEnds(s: string)
    ensures var r := TrimRight(s); r <= s && (r == "" || !IsSpace(r[|r| - 1]))
    decreases |s|
  {
    if s != "" && IsSpace(s[|s| - 1]) {
      TrimRightEnds(s[..|s| - 1]);
    }
  }

  lemma TrimSpaceTrims(s: string)
    ensures Trimmed(TrimSpace(s))
  {
    TrimLeftStart(s);
    TrimRightEnds(TrimLeft(s));
  }

  function LowerChar(c: char): char {
    if 'A' <= c <= 'Z' then (c as int + 32) as char else c
  }

  /** Lower-casing of the ASCII letters. */
  function ToLower(s: string): (r: string)
    ensures |r| == |s|
  {
    seq(|s|, i requires 0 <= i < |s| => LowerChar(s[i]))
  }

  /** Trimming and lower-casing, as applied to environment, service and key. */
  function Fold(s: string): string {
    ToLower(TrimSpace(s))
  }

  lemma ToLowerKeepsTrimmed(s: string)
    requires Trimmed(s)
    ensures Trimmed(ToLower(s)) && ToLower(ToLower(s)) == ToLower(s)
  {
  }

  /** Reading a stored name back and folding it again changes nothing. */
  lemma FoldIsIdempotent(s: string)
    ensures Fold(Fold(s)) == Fold(s)
  {
    TrimSpaceTrims(s);
    var t := TrimSpace(s);
    ToLowerKeepsTrimmed(t);
    var u := ToLower(t);
    assert TrimLeft(u) == u;
    assert TrimRight(u) == u;
  }

  // ----- what trimming and folding mean, without their definitions -----

  /** The code points Go counts as white space. */
  lemma SpacesAre(c: char)
    ensures IsSpace(c) <==>
      c as int in {0x09, 0x0A, 0x0B, 0x0C, 0x0D, 0x20, 0x85, 0xA0, 0x1680, 0x2000, 0x2001, 0x2002, 0x2003, 0x2004,
                   0x2005, 0x2006, 0x2007, 0x2008, 0x2009, 0x200A, 0x2028, 0x2029, 0x202F, 0x205F, 0x3000}
  {
  }

  /** Nothing but white space. */
  predicate Blank(s: string) {
    forall i :: 0 <= i < |s| ==> IsSpace(s[i])
  }

  ghost predicate Framed(s: string, a: string, t: string, b: string) {
    Blank(a) && Blank(b) && s == a + t + b
  }

  /** The text without its outer blanks. */
  ghost predicate Strips(s: string, t: string) {
    Trimmed(t) && exists a, b :: Framed(s, a, t, b)
  }

  lemma {:induction false} TrimLeftCutsBlanks(s: string) returns (a: string)
    ensures Blank(a) && s == a + TrimLeft(s)
    decreases |s|
  {
    if s != "" && IsSpace(s[0]) {
      var rest := TrimLeftCutsBlanks(s[1..]);
      a := [s[0]] + rest;
    } else {
      a := "";
    }
  }

  lemma {:induction false} TrimRightCutsBlanks(s: string) returns (b: string)
    ensures Blank(b) && s == TrimRight(s) + b
    decreases |s|
  {
    if s != "" && IsSpace(s[|s| - 1]) {
      var rest := TrimRightCutsBlanks(s[..|s| - 1]);
      b := rest + [s[|s| - 1]];
    } else {
      b := "";
    }
  }

  /** Trimming takes white space off both ends and nothing else. */
  lemma TrimSpaceStrips(s: string)
    ensures Strips(s, TrimSpace(s))
  {
    TrimSpaceTrims(s);
    var a := TrimLeftCutsBlanks(s);
    var b := TrimRightCutsBlanks(TrimLeft(s));
    assert Framed(s, a, TrimSpace(s), b);
  }

  /** The first character that is not blank stands at the same place in every framing. */
  lemma SameFront(s: string, a: string, t: string, b: string, a': string, t': string, b': string)
    requires Framed(s, a, t, b) && Framed(s, a', t', b') && t != "" && t' != "" && Trimmed(t) && Trimmed(t')
    ensures |a| == |a'| && |b| == |b'|
  {
    assert s[|a|] == t[0] && s[|a'|] == t'[0];
    assert s[|s| - |b| - 1] == t[|t| - 1] && s[|s| - |b'| - 1] == t'[|t'| - 1];
    assert forall i :: 0 <= i < |a| ==> s[i] == a[i];
    assert forall i :: 0 <= i < |a'| ==> s[i] == a'[i];
    assert forall i :: |s| - |b| <= i < |s| ==> s[i] == b[i - (|s| - |b|)];
    assert forall i :: |s| - |b'| <= i < |s| ==> s[i] == b'[i - (|s| - |b'|)];
  }

  /** Only a blank text strips to nothing. */
  lemma StripsToNothing(s: string, t: string)
    requires Strips(s, t)
    ensures t == "" <==> Blank(s)
  {
    var a, b :| Framed(s, a, t, b);
    if t != "" {
      assert s[|a|] == t[0];
    }
  }

  /** A text has one stripped form. */
  lemma StripsUnique(s: string, t: string, t': string)
    requires Strips(s, t) && Strips(s, t')
    ensures t == t'
  {
    StripsToNothing(s, t);
    StripsToNothing(s, t');
    if t != "" {
      var a, b :| Framed(s, a, t, b);
      var a', b' :| Framed(s, a', t', b');
      SameFront(s, a, t, b, a', t', b');
      assert t == s[|a|..|s| - |b|] && t' == s[|a'|..|s| - |b'|];
    }
  }

  /** Trimming is exactly stripping, and leaves nothing exactly of a blank text. */
  lemma TrimSpaceExactly(s: string, t: string)
    ensures Strips(s, t) <==> t == TrimSpace(s)
    ensures TrimSpace(s) == "" <==> Blank(s)
  {
    TrimSpaceStrips(s);
    StripsToNothing(s, TrimSpace(s));
    if Strips(s, t) {
      StripsUnique(s, t, TrimSpace(s));
    }
  }

  predicate Capital(c: char) {
    'A' <= c <= 'Z'
  }

  /** From any case to lower case: a capital becomes the small letter at the same distance from 'a' as it is from 'A',
      everything else stays. */
  predicate CaseFolds(c: char, d: char) {
    if Capital(c) then d as int - 'a' as int == c as int - 'A' as int else d == c
  }

  lemma LowerCharExactly(c: char, d: char)
    ensures CaseFolds(c, d) <==> d == LowerChar(c)
    ensures !Capital(LowerChar(c)) && (IsSpace(c) <==> IsSpace(LowerChar(c)))
  {
  }

  predicate CaseFoldsAll(t: string, u: string) {
    |t| == |u| && forall i :: 0 <= i < |t| ==> CaseFolds(t[i], u[i])
  }

  /** The text without its outer blanks, in lower case. */
  ghost predicate Folds(s: string, u: string) {
    exists t :: Strips(s, t) && CaseFoldsAll(t, u)
  }

  lemma ToLowerExactly(t: string, u: string)
    ensures CaseFoldsAll(t, u) <==> u == ToLower(t)
  {
    hide CaseFolds, LowerChar;
    forall i | 0 <= i < |t| ensures CaseFolds(t[i], ToLower(t)[i]) {
      LowerCharExactly(t[i], ToLower(t)[i]);
    }
    if CaseFoldsAll(t, u) {
      forall i | 0 <= i < |t| ensures u[i] == ToLower(t)[i] {
        LowerCharExactly(t[i], u[i]);
      }
    }
  }

  /** Folding is exactly stripping and lower-casing. */
  lemma FoldExactly(s: string, u: string)
    ensures Folds(s, u) <==> u == Fold(s)
  {
    hide Strips, CaseFoldsAll, TrimSpace, ToLower;
    TrimSpaceExactly(s, TrimSpace(s));
    ToLowerExactly(TrimSpace(s), Fold(s));
    assert Strips(s, TrimSpace(s)) && CaseFoldsAll(TrimSpace(s), Fold(s));
    if Folds(s, u) {
      var t :| Strips(s, t) && CaseFoldsAll(t, u);
      TrimSpaceExactly(s, t);
      ToLowerExactly(t, u);
    }
  }

  /** No capital letter, and no white space at either end. */
  predicate Plain(s: string) {
    Trimmed(s) && forall i :: 0 <= i < |s| ==> !Capital(s[i])
  }

  lemma ToLowerIsPlain(t: string)
    requires Trimmed(t)
    ensures Plain(ToLower(t))
  {
    hide LowerChar, IsSpace, Capital;
    forall i | 0 <= i < |t| ensures !Capital(ToLower(t)[i]) && (IsSpace(t[i]) <==> IsSpace(ToLower(t)[i])) {
      LowerCharExactly(t[i], t[i]);
    }
  }

  lemma FoldIsPlain(s: string)
    ensures Plain(Fold(s)) && (Fold(s) == "" <==> Blank(s))
  {
    hide TrimSpace, Trimmed, Plain, LowerChar;
    TrimSpaceTrims(s);
    TrimSpaceExactly(s, TrimSpace(s));
    ToLowerIsPlain(TrimSpace(s));
  }

  lemma TrimmedStrips(s: string, t: string)
    requires Trimmed(s)
    ensures Strips(s, t) <==> t == s
  {
    assert Framed(s, "", s, "");
    TrimSpaceExactly(s, s);
    TrimSpaceExactly(s, t);
  }

  /** A plain text folds to itself alone. */
  lemma PlainFolds(s: string, u: string)
    requires Plain(s)
    ensures Folds(s, u) <==> u == s
  {
    hide CaseFolds, LowerChar, Trimmed, Strips, TrimSpace;
    FoldExactly(s, u);
    TrimmedStrips(s, s);
    TrimSpaceExactly(s, s);
    forall i | 0 <= i < |s| ensures ToLower(s)[i] == s[i] {
      LowerCharExactly(s[i], s[i]);
      assert CaseFolds(s[i], s[i]) by { PlainCharStays(s[i]); }
    }
  }

  lemma PlainCharStays(c: char)
    requires !Capital(c)
    ensures CaseFolds(c, c)
  {
  }

  predicate Contains(s: string, part: string) {
    exists i :: 0 <= i <= |s| && part <= s[i..]
  }

  /** The part stands at position i of the text, in any case. */
  predicate MentionsAt(s: string, part: string, i: nat) {
    i + |part| <= |s| && CaseFoldsAll(s[i..i + |part|], part)
  }

  /** The part occurs in the text, in any case. */
  predicate Mentions(s: string, part: string) {
    exists i :: 0 <= i <= |s| && MentionsAt(s, part, i)
  }

  lemma ToLowerSlice(s: string, i: nat, j: nat)
    requires i <= j <= |s|
    ensures ToLower(s)[i..j] == ToLower(s[i..j])
  {
    hide LowerChar;
  }

  /** A text contains a part after lower-casing exactly when it mentions the part. */
  lemma ContainsFoldedAt(s: string, part: string, i: nat)
    requires i <= |s|
    ensures part <= ToLower(s)[i..] <==> MentionsAt(s, part, i)
  {
    hide CaseFoldsAll, ToLower;
    if i + |part| <= |s| {
      ToLowerSlice(s, i, i + |part|);
      ToLowerExactly(s[i..i + |part|], part);
      assert ToLower(s)[i..][..|part|] == ToLower(s)[i..i + |part|];
    }
  }

  lemma ContainsFolded(s: string, part: string)
    ensures Contains(ToLower(s), part) <==> Mentions(s, part)
  {
    hide CaseFoldsAll, ToLower, MentionsAt;
    forall i: nat | i <= |s| ensures part <= ToLower(s)[i..] <==> MentionsAt(s, part, i) {
      ContainsFoldedAt(s, part, i);
    }
  }

  /** A part worth searching for: not empty, and free of white space. */
  predicate Solid(part: string) {
    part != "" && forall i :: 0 <= i < |part| ==> !IsSpace(part[i])
  }

  /** Such a part never reaches into the outer blanks of a text. */
  lemma MentionIsInside(s: string, a: string, t: string, b: string, part: string, i: nat)
    requires Framed(s, a, t, b) && Solid(part) && MentionsAt(s, part, i)
    ensures |a| <= i && MentionsAt(t, part, i - |a|)
  {
    hide IsSpace, Capital, CaseFolds;
    var window := s[i..i + |part|];
    forall k | i <= k < i + |part| ensures !IsSpace(s[k]) {
      assert window[k - i] == s[k] && CaseFolds(window[k - i], part[k - i]);
      LowerCharExactly(s[k], part[k - i]);
    }
    var last := i + |part| - 1;
    assert !IsSpace(s[i]) && !IsSpace(s[last]);
    assert t[i - |a|..i - |a| + |part|] == window;
  }

  lemma MentionsStripped(s: string, t: string, part: string)
    requires Strips(s, t) && Solid(part)
    ensures Mentions(s, part) <==> Mentions(t, part)
  {
    hide IsSpace, CaseFoldsAll, Solid, Trimmed;
    var a, b :| Framed(s, a, t, b);
    if Mentions(s, part) {
      var i :| 0 <= i <= |s| && MentionsAt(s, part, i);
      MentionIsInside(s, a, t, b, part, i);
    }
    if Mentions(t, part) {
      var i :| 0 <= i <= |t| && MentionsAt(t, part, i);
      assert s[|a| + i..|a| + i + |part|] == t[i..i + |part|];
      assert MentionsAt(s, part, |a| + i);
    }
  }

  /** Folding a text shows exactly the parts it mentions. */
  lemma FoldMentions(s: string, part: string)
    requires Solid(part)
    ensures Contains(Fold(s), part) <==> Mentions(s, part)
  {
    hide Solid, Strips, Mentions, Contains, TrimSpace, ToLower;
    TrimSpaceStrips(s);
    MentionsStripped(s, TrimSpace(s), part);
    ContainsFolded(TrimSpace(s), part);
  }

  function Digit(n: nat): (c: char)
    requires n < 10
    ensures '0' <= c <= '9'
  {
    ('0' as int + n) as char
  }

  /** The decimal form of a natural number. */
  function Decimal(n: nat): (s: string)
    ensures |s| > 0 && forall i :: 0 <= i < |s| ==> '0' <= s[i] <= '9'
  {
    if n < 10 then [Digit(n)] else Decimal(n / 10) + [Digit(n % 10)]
  }

  /** The decimal form of an integer, as `fmt.Sprint` and `%d` print it. */
  function Print(n: int): (s: string) {
    if n < 0 then "-" + Decimal(-n) else Decimal(n)
  }

  /** Reads a decimal form back. */
  function ParseDecimal(s: string): int {
    if s == "" then 0 else ParseDecimal(s[..|s| - 1]) * 10 + (s[|s| - 1] as int - '0' as int)
  }

  lemma {:induction false} DecimalRoundTrip(n: nat)
    ensures ParseDecimal(Decimal(n)) == n
  {
    if n < 10 {
      assert [Digit(n)][..0] == "";
      assert ParseDecimal("") == 0;
    } else {
      DecimalRoundTrip(n / 10);
      var s := Decimal(n);
      assert s[..|s| - 1] == Decimal(n / 10);
    }
  }

  /** A printed integer reads back, a minus sign in front of the negative ones. */
  lemma PrintReads(n: int)
    ensures var s := Print(n); if n < 0 then s[0] == '-' && ParseDecimal(s[1..]) == -n else ParseDecimal(s) == n
  {
    hide Decimal, ParseDecimal;
    DecimalRoundTrip(if n < 0 then -n else n);
    assert n < 0 ==> Print(n)[1..] == Decimal(-n);
  }
}
