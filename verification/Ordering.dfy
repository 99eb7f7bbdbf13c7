/**
 * The two orders package names are sorted by. Home Assistant compares strings
 * by code point, the tablet by UTF-16 code unit; they disagree as soon as a
 * supplementary character meets one from U+E000..U+FFFF.
 */
module Ordering {
  datatype Order = CodePoint | Utf16

  /** Position of a character in the order; UTF-16 puts U+E000..U+FFFF above every surrogate pair. */
  function Rank(o: Order, c: char): int {
    if o.Utf16? && 0xE000 <= c as int < 0x10000 then c as int + 0x110000 else c as int
  }

  /** Strict lexicographic order. */
  predicate Less(o: Order, s: string, t: string) {
    if t == "" then false
    else if s == "" then true
    else if s[0] == t[0] then Less(o, s[1..], t[1..])
    else Rank(o, s[0]) < Rank(o, t[0])
  }

  lemma {:induction false} LessIsTotal(o: Order, s: string, t: string)
    ensures s == t || Less(o, s, t) || Less(o, t, s)
    ensures !(Less(o, s, t) && Less(o, t, s))
    ensures s == t ==> !Less(o, s, t)
  {
    if s != "" && t != "" && s[0] == t[0] {
      LessIsTotal(o, s[1..], t[1..]);
      assert s == [s[0]] + s[1..] && t == [t[0]] + t[1..];
    }
  }

  lemma {:induction false} LessIsTransitive(o: Order, s: string, t: string, u: string)
    requires Less(o, s, t) && Less(o, t, u)
    ensures Less(o, s, u)
  {
    if s != "" && s[0] == t[0] && t[0] == u[0] {
      LessIsTransitive(o, s[1..], t[1..], u[1..]);
    }
  }

  /** Where two names first part. */
  predicate PartsAt(s: string, t: string, i: nat) {
    i <= |s| && i <= |t| && s[..i] == t[..i] && (i == |s| || i == |t| || s[i] != t[i])
  }

  /** A prefix comes first; otherwise the first differing character decides, by its code point. */
  lemma {:induction false} CodePointOrderIsLexicographic(s: string, t: string, i: nat)
    requires PartsAt(s, t, i)
    ensures Less(CodePoint, s, t) <==> i < |t| && (i == |s| || s[i] < t[i])
    decreases i
  {
    if i > 0 {
      assert s[..i][0] == s[0] && t[..i][0] == t[0];
      assert s[1..][..i - 1] == s[..i][1..] && t[1..][..i - 1] == t[..i][1..];
      CodePointOrderIsLexicographic(s[1..], t[1..], i - 1);
    }
  }

  /** The orders really differ: a supplementary name sorts last by code point and first by code unit. */
  lemma OrdersDisagree()
    ensures Less(CodePoint, "\U{E000}", "\U{10000}") && Less(Utf16, "\U{10000}", "\U{E000}")
  {
  }

  // ----- the Utf16 order is the code unit order --------------------------------

  function Units(c: char): seq<int> {
    var n := c as int;
    if n < 0x10000 then [n] else [0xD800 + (n - 0x10000) / 0x400, 0xDC00 + (n - 0x10000) % 0x400]
  }

  function Encode(s: string): seq<int> {
    if s == "" then [] else Units(s[0]) + Encode(s[1..])
  }

  predicate UnitsLess(a: seq<int>, b: seq<int>) {
    if b == [] then false
    else if a == [] then true
    else if a[0] == b[0] then UnitsLess(a[1..], b[1..])
    else a[0] < b[0]
  }

  lemma UnitsLessSkip(p: seq<int>, a: seq<int>, b: seq<int>)
    ensures UnitsLess(p + a, p + b) == UnitsLess(a, b)
  {
    if p == [] {
      assert p + a == a && p + b == b;
    } else {
      assert (p + a)[1..] == p[1..] + a && (p + b)[1..] == p[1..] + b;
      UnitsLessSkip(p[1..], a, b);
    }
  }

  lemma UnitsOrderChars(c: char, d: char, a: seq<int>, b: seq<int>)
    requires c != d
    ensures UnitsLess(Units(c) + a, Units(d) + b) <==> Rank(Utf16, c) < Rank(Utf16, d)
  {
    var x, y := Units(c) + a, Units(d) + b;
    assert x[0] == Units(c)[0] && y[0] == Units(d)[0];
    if x[0] == y[0] {
      assert x[1..] == Units(c)[1..] + a && y[1..] == Units(d)[1..] + b;
    }
  }

  /** Comparing by Rank is comparing the UTF-16 encodings unit by unit, as the tablet's sort does. */
  lemma {:induction false} Utf16OrderIsCodeUnitOrder(s: string, t: string)
    ensures Less(Utf16, s, t) <==> UnitsLess(Encode(s), Encode(t))
  {
    if s != "" && t != "" {
      if s[0] == t[0] {
        Utf16OrderIsCodeUnitOrder(s[1..], t[1..]);
        UnitsLessSkip(Units(s[0]), Encode(s[1..]), Encode(t[1..]));
      } else {
        UnitsOrderChars(s[0], t[0], Encode(s[1..]), Encode(t[1..]));
      }
    }
  }

  // ----- sorting a set of names -------------------------------------------------

  predicate IsLeast(o: Order, m: string, names: set<string>) {
    m in names && forall x :: x in names && x != m ==> Less(o, m, x)
  }

  lemma {:induction false} LeastExists(o: Order, names: set<string>)
    requires names != {}
    ensures exists m :: IsLeast(o, m, names)
    decreases |names|
  {
    var x :| x in names;
    var rest := names - {x};
    if rest == {} {
      assert names == {x};
      assert IsLeast(o, x, names);
    } else {
      LeastExists(o, rest);
      var m :| IsLeast(o, m, rest);
      LessIsTotal(o, x, m);
      if Less(o, x, m) {
        forall y | y in names && y != x ensures Less(o, x, y) {
          if y != m { LessIsTransitive(o, x, m, y); }
        }
        assert IsLeast(o, x, names);
      } else {
        assert IsLeast(o, m, names);
      }
    }
  }

  lemma LeastIsUnique(o: Order, names: set<string>)
    ensures forall m, n :: IsLeast(o, m, names) && IsLeast(o, n, names) ==> m == n
  {
    forall m, n | IsLeast(o, m, names) && IsLeast(o, n, names) ensures m == n {
      LessIsTotal(o, m, n);
    }
  }

  function Elements(names: seq<string>): set<string> {
    set x | x in names
  }

  predicate StrictlySorted(o: Order, names: seq<string>) {
    forall i, j :: 0 <= i < j < |names| ==> Less(o, names[i], names[j])
  }

  function Least(o: Order, names: set<string>): (m: string)
    requires names != {}
    ensures IsLeast(o, m, names)
  {
    LeastExists(o, names);
    LeastIsUnique(o, names);
    var m :| IsLeast(o, m, names);
    m
  }

  lemma ElementsOfCons(x: string, rest: seq<string>)
    ensures Elements([x] + rest) == {x} + Elements(rest)
  {
  }

  lemma SortedCons(o: Order, x: string, rest: seq<string>)
    requires StrictlySorted(o, rest) && forall y :: y in rest ==> Less(o, x, y)
    ensures StrictlySorted(o, [x] + rest)
  {
    var r := [x] + rest;
    forall i, j | 0 <= i < j < |r| ensures Less(o, r[i], r[j]) {
      assert r[j] == rest[j - 1] && r[j] in rest;
    }
  }

  lemma EmptyElements(r: seq<string>)
    ensures Elements(r) == {} <==> r == []
  {
    assert r != [] ==> r[0] in Elements(r);
  }

  predicate IsSorting(o: Order, names: set<string>, r: seq<string>) {
    Elements(r) == names && StrictlySorted(o, r)
  }

  lemma {:induction false} SortingExists(o: Order, names: set<string>)
    ensures exists r :: IsSorting(o, names, r)
    decreases |names|
  {
    if names == {} {
      assert IsSorting(o, names, []);
    } else {
      var m := Least(o, names);
      SortingExists(o, names - {m});
      var rest :| IsSorting(o, names - {m}, rest);
      ElementsOfCons(m, rest);
      assert forall y :: y in rest ==> y in Elements(rest);
      SortedCons(o, m, rest);
      assert IsSorting(o, names, [m] + rest);
    }
  }

  /** A sorted list is determined by its elements. */
  lemma {:induction false} SortingIsUnique(o: Order, r: seq<string>, q: seq<string>)
    requires StrictlySorted(o, r) && StrictlySorted(o, q) && Elements(r) == Elements(q)
    ensures r == q
    decreases |r|
  {
    if r == [] || q == [] {
      EmptyElements(r);
      EmptyElements(q);
    } else {
      assert r[0] in Elements(q) && q[0] in Elements(r);
      LessIsTotal(o, r[0], q[0]);
      TailElements(o, r);
      TailElements(o, q);
      SortingIsUnique(o, r[1..], q[1..]);
      assert r == [r[0]] + r[1..] && q == [q[0]] + q[1..];
    }
  }

  lemma TailElements(o: Order, r: seq<string>)
    requires StrictlySorted(o, r) && r != []
    ensures Elements(r[1..]) == Elements(r) - {r[0]}
  {
    assert r == [r[0]] + r[1..];
    forall x | x in r[1..] ensures x != r[0] {
      LessIsTotal(o, r[0], x);
    }
  }

  /** What sorting a deduplicated collection returns: each name once, in order. */
  function Sorted(o: Order, names: set<string>): (r: seq<string>)
    ensures Elements(r) == names
    ensures StrictlySorted(o, r)
  {
    SortingExists(o, names);
    assert forall r, q :: IsSorting(o, names, r) && IsSorting(o, names, q) ==> r == q by {
      forall r, q | IsSorting(o, names, r) && IsSorting(o, names, q) ensures r == q {
        SortingIsUnique(o, r, q);
      }
    }
    var r :| IsSorting(o, names, r);
    r
  }

  /** Re-sorting a sorted list changes nothing. */
  lemma SortedListIsFixed(o: Order, r: seq<string>)
    requires StrictlySorted(o, r)
    ensures Sorted(o, Elements(r)) == r
  {
    SortingIsUnique(o, Sorted(o, Elements(r)), r);
  }
}
