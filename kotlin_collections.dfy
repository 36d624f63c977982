/**
 * The Kotlin list operations the screens use: `filter`, `count { }`, and
 * `distinct().sorted()` on strings (natural `String` order: UTF-16 code
 * units compared left to right, a proper prefix first).
 */
module KotlinCollections {

  /** `r` is `s` with some elements left out, the rest in their order. */
  predicate IsSubsequence<T(==)>(r: seq<T>, s: seq<T>)
    decreases |s|
  {
    if |r| == 0 then true
    else if |s| == 0 then false
    else if r[0] == s[0] then IsSubsequence(r[1..], s[1..])
    else IsSubsequence(r, s[1..])
  }

  lemma {:induction false} SubsequenceReflexive<T>(s: seq<T>)
    ensures IsSubsequence(s, s)
  {
    if |s| > 0 {
      SubsequenceReflexive(s[1..]);
    }
  }

  /** `s.filter(p)`. */
  function Filter<T(==,!new)>(s: seq<T>, p: T -> bool): (r: seq<T>)
    ensures |r| <= |s|
    ensures forall x :: x in r <==> x in s && p(x)
    ensures IsSubsequence(r, s)
  {
    if |s| == 0 then []
    else
      var rest := Filter(s[1..], p);
      assert forall x :: x in s <==> x == s[0] || x in s[1..];
      if p(s[0]) then
        assert ([s[0]] + rest)[1..] == rest;
        [s[0]] + rest
      else
        SubsequenceSkip(rest, s);
        rest
  }

  lemma SubsequenceSkip<T>(r: seq<T>, s: seq<T>)
    requires |s| > 0 && IsSubsequence(r, s[1..])
    ensures IsSubsequence(r, s)
    decreases |s|, |r|
  {
    if |r| > 0 && r[0] == s[0] {
      SubsequenceTail(r, s[1..]);
    }
  }

  lemma SubsequenceTail<T>(r: seq<T>, s: seq<T>)
    requires |r| > 0 && IsSubsequence(r, s)
    ensures IsSubsequence(r[1..], s)
    decreases |s|, |r|
  {
    if r[0] != s[0] {
      SubsequenceTail(r, s[1..]);
      SubsequenceSkip(r[1..], s);
    } else if |r| > 1 {
      SubsequenceSkip(r[1..], s);
    }
  }

  /** Filtering with a condition that always holds keeps the list. */
  lemma FilterAll<T(!new)>(s: seq<T>, p: T -> bool)
    requires forall x :: x in s ==> p(x)
    ensures Filter(s, p) == s
  {
    if |s| > 0 {
      assert forall x :: x in s[1..] ==> x in s;
      FilterAll(s[1..], p);
    }
  }

  /** Filtering depends only on the values of the condition. */
  lemma {:induction false} FilterSameCondition<T(!new)>(s: seq<T>, p: T -> bool, q: T -> bool)
    requires forall x :: p(x) == q(x)
    ensures Filter(s, p) == Filter(s, q)
  {
    if |s| > 0 {
      FilterSameCondition(s[1..], p, q);
    }
  }

  /** `s.count(p)`. */
  function Count<T(==)>(s: seq<T>, p: T -> bool): (n: int)
    ensures 0 <= n <= |s|
  {
    if |s| == 0 then 0
    else (if p(s[0]) then 1 else 0) + Count(s[1..], p)
  }

  /** Counting is the length of the filtered list. */
  lemma {:induction false} CountIsFilterLength<T(!new)>(s: seq<T>, p: T -> bool)
    ensures Count(s, p) == |Filter(s, p)|
  {
    if |s| > 0 {
      CountIsFilterLength(s[1..], p);
    }
  }

  // ---------------------------------------------------------------------
  // `String.compareTo`: the JVM stores strings as UTF-16 and compares them
  // code unit by code unit, a proper prefix first.

  /** The UTF-16 code units of a character: the character itself inside the
      Basic Multilingual Plane, a surrogate pair above it. */
  function Units(c: char): (r: seq<int>)
    ensures |r| == (if c as int <= 0xFFFF then 1 else 2)
    ensures forall i :: 0 <= i < |r| ==> 0 <= r[i] <= 0xFFFF
  {
    if c as int <= 0xFFFF then [c as int]
    else [0xD800 + (c as int - 0x10000) / 0x400, 0xDC00 + (c as int - 0x10000) % 0x400]
  }

  /** The code units of a string, as the JVM holds them. */
  function Utf16(s: string): seq<int> {
    if |s| == 0 then [] else Units(s[0]) + Utf16(s[1..])
  }

  /** Lexicographic order of code-unit sequences, a proper prefix first. */
  predicate UnitsLess(a: seq<int>, b: seq<int>) {
    if |b| == 0 then false
    else if |a| == 0 then true
    else if a[0] != b[0] then a[0] < b[0]
    else UnitsLess(a[1..], b[1..])
  }

  /** Natural `String` order, `a.compareTo(b) < 0`, character by character:
      the first differing characters decide by their code units, and a
      proper prefix comes first. `StringLessIsUtf16Order` shows this is the
      order of the encodings. */
  predicate StringLess(a: string, b: string) {
    if |a| == 0 then |b| > 0
    else if |b| == 0 then false
    else if a[0] != b[0] then UnitsLess(Units(a[0]), Units(b[0]))
    else StringLess(a[1..], b[1..])
  }

  /** `a.compareTo(b) <= 0`. */
  predicate StringLe(a: string, b: string) {
    a == b || StringLess(a, b)
  }

  lemma {:induction false} UnitsLessTransitive(a: seq<int>, b: seq<int>, c: seq<int>)
    requires UnitsLess(a, b) && UnitsLess(b, c)
    ensures UnitsLess(a, c)
  {
    if |a| > 0 && a[0] == b[0] && b[0] == c[0] {
      UnitsLessTransitive(a[1..], b[1..], c[1..]);
    }
  }

  lemma {:induction false} UnitsLessTotal(a: seq<int>, b: seq<int>)
    requires a != b
    ensures UnitsLess(a, b) || UnitsLess(b, a)
  {
    if |a| > 0 && |b| > 0 && a[0] == b[0] {
      assert a == [a[0]] + a[1..] && b == [b[0]] + b[1..];
      UnitsLessTotal(a[1..], b[1..]);
    }
  }

  lemma {:induction false} UnitsLessIrreflexive(a: seq<int>)
    ensures !UnitsLess(a, a)
  {
    if |a| > 0 {
      UnitsLessIrreflexive(a[1..]);
    }
  }

  /** No character's code units begin another's: a lead unit of a
      surrogate pair is never a character of its own. */
  lemma UnitsPrefixFree(x: char, y: char, xs: seq<int>, ys: seq<int>)
    requires Units(x) + xs == Units(y) + ys
    ensures x == y && xs == ys
  {
    var ux, uy := Units(x), Units(y);
    assert ux[0] == (ux + xs)[0] && uy[0] == (uy + ys)[0];
    if x as int > 0xFFFF {
      assert ux[1] == (ux + xs)[1] && uy[1] == (uy + ys)[1];
    }
    assert x as int == y as int;
    assert xs == (ux + xs)[|ux|..];
    assert ys == (uy + ys)[|uy|..];
  }

  /** Different characters have different code units. */
  lemma UnitsInjective(x: char, y: char)
    requires x != y
    ensures Units(x) != Units(y)
  {
    if Units(x) == Units(y) {
      UnitsPrefixFree(x, y, [], []);
    }
  }

  lemma {:induction false} StringLessTransitive(a: string, b: string, c: string)
    requires StringLess(a, b) && StringLess(b, c)
    ensures StringLess(a, c)
  {
    if |a| > 0 && |b| > 0 && |c| > 0 {
      if a[0] == b[0] && b[0] == c[0] {
        StringLessTransitive(a[1..], b[1..], c[1..]);
      } else if a[0] != b[0] && b[0] != c[0] {
        UnitsLessTransitive(Units(a[0]), Units(b[0]), Units(c[0]));
        if a[0] == c[0] {
          UnitsLessIrreflexive(Units(a[0]));
        }
      }
    }
  }

  lemma {:induction false} StringLessTotal(a: string, b: string)
    requires a != b
    ensures StringLess(a, b) || StringLess(b, a)
  {
    if |a| > 0 && |b| > 0 {
      if a[0] == b[0] {
        assert a == [a[0]] + a[1..] && b == [b[0]] + b[1..];
        StringLessTotal(a[1..], b[1..]);
      } else {
        UnitsInjective(a[0], b[0]);
        UnitsLessTotal(Units(a[0]), Units(b[0]));
      }
    }
  }

  lemma {:induction false} StringLessIrreflexive(a: string)
    ensures !StringLess(a, a)
  {
    if |a| > 0 {
      StringLessIrreflexive(a[1..]);
    }
  }

  /** The character-wise order is the order of the UTF-16 encodings, which
      is what `String.compareTo` compares. */
  lemma {:induction false} StringLessIsUtf16Order(a: string, b: string)
    ensures StringLess(a, b) <==> UnitsLess(Utf16(a), Utf16(b))
  {
    if |a| > 0 && |b| > 0 {
      if a[0] == b[0] {
        StringLessIsUtf16Order(a[1..], b[1..]);
        UnitsLessCommonPrefix(Units(a[0]), Utf16(a[1..]), Utf16(b[1..]));
      } else {
        UnitsLessDecided(a[0], b[0], Utf16(a[1..]), Utf16(b[1..]));
      }
    }
  }

  /** A shared prefix does not change the order. */
  lemma {:induction false} UnitsLessCommonPrefix(u: seq<int>, xs: seq<int>, ys: seq<int>)
    ensures UnitsLess(u + xs, u + ys) <==> UnitsLess(xs, ys)
  {
    if |u| > 0 {
      assert (u + xs)[1..] == u[1..] + xs && (u + ys)[1..] == u[1..] + ys;
      UnitsLessCommonPrefix(u[1..], xs, ys);
    } else {
      assert u + xs == xs && u + ys == ys;
    }
  }

  /** Two different characters decide the order within their own code
      units, whatever follows them. */
  lemma UnitsLessDecided(x: char, y: char, xs: seq<int>, ys: seq<int>)
    requires x != y
    ensures UnitsLess(Units(x) + xs, Units(y) + ys) <==> UnitsLess(Units(x), Units(y))
  {
    var ux, uy := Units(x), Units(y);
    assert (ux + xs)[0] == ux[0] && (uy + ys)[0] == uy[0];
    if ux[0] == uy[0] {
      assert x as int > 0xFFFF && y as int > 0xFFFF;
      UnitsInjective(x, y);
      assert ux[1] != uy[1];
      assert (ux + xs)[1..] == ux[1..] + xs && (uy + ys)[1..] == uy[1..] + ys;
      assert (ux[1..] + xs)[0] == ux[1] && (uy[1..] + ys)[0] == uy[1];
    }
  }

  lemma StringLeTotal(a: string, b: string)
    ensures StringLe(a, b) || StringLe(b, a)
  {
    if a != b {
      StringLessTotal(a, b);
    }
  }

  lemma StringLeAntisymmetric(a: string, b: string)
    requires StringLe(a, b) && StringLe(b, a)
    ensures a == b
  {
    if a != b {
      StringLessTransitive(a, b, a);
      StringLessIrreflexive(a);
    }
  }

  lemma StringLeTransitive(a: string, b: string, c: string)
    requires StringLe(a, b) && StringLe(b, c)
    ensures StringLe(a, c)
  {
    if a != b && b != c {
      StringLessTransitive(a, b, c);
    }
  }

  /** A character above the Basic Multilingual Plane sorts by its lead
      surrogate, so before a character near the top of the plane even
      though its code point is larger. */
  lemma SurrogatePairSortsLow()
    ensures StringLess("\U{1F600}", "\U{FF01}")
    ensures '\U{1F600}' as int > '\U{FF01}' as int
  {
    assert Utf16("\U{1F600}") == [0xD83D, 0xDE00];
    assert Utf16("\U{FF01}") == [0xFF01];
  }

  /** Strictly increasing, so sorted and without duplicates. */
  predicate StrictlySorted(s: seq<string>) {
    forall i, j :: 0 <= i < j < |s| ==> StringLess(s[i], s[j])
  }

  function InsertSorted(x: string, s: seq<string>): (r: seq<string>)
    requires StrictlySorted(s)
    ensures StrictlySorted(r)
    ensures forall y :: y in r <==> y in s || y == x
    ensures |r| <= |s| + 1
    ensures |r| > 0 && (r[0] == x || (|s| > 0 && r[0] == s[0]))
  {
    if |s| == 0 then [x]
    else if x == s[0] then s
    else if StringLess(x, s[0]) then
      assert forall j :: 0 <= j < |s| ==> StringLess(x, s[j]) by {
        forall j | 0 <= j < |s| ensures StringLess(x, s[j]) {
          if j > 0 { StringLessTransitive(x, s[0], s[j]); }
        }
      }
      [x] + s
    else
      StringLessTotal(x, s[0]);
      var t := InsertSorted(x, s[1..]);
      assert forall y :: y in s[1..] ==> StringLess(s[0], y);
      [s[0]] + t
  }

  /** `s.distinct().sorted()` on strings. */
  function DistinctSorted(s: seq<string>): (r: seq<string>)
    ensures StrictlySorted(r)
    ensures forall y :: y in r <==> y in s
    ensures |r| <= |s|
  {
    if |s| == 0 then [] else InsertSorted(s[|s| - 1], DistinctSorted(s[..|s| - 1]))
  }

  /** Two strictly sorted lists with the same elements are the same list,
      so the result depends only on which strings occur. */
  lemma {:induction false} StrictlySortedUnique(a: seq<string>, b: seq<string>)
    requires StrictlySorted(a) && StrictlySorted(b)
    requires forall y :: y in a <==> y in b
    ensures a == b
    decreases |a|
  {
    if |a| > 0 {
      assert a[0] in a;
    }
    if |b| > 0 {
      assert b[0] in b;
    }
    if |a| > 0 && |b| > 0 {
      assert a[0] == b[0] by {
        if a[0] != b[0] {
          var i :| 0 <= i < |b| && b[i] == a[0];
          var j :| 0 <= j < |a| && a[j] == b[0];
          StringLessIrreflexive(a[0]);
          StringLessIrreflexive(b[0]);
          assert StringLess(b[0], a[0]);
          assert StringLess(a[0], b[0]);
          StringLessTransitive(a[0], b[0], a[0]);
        }
      }
      forall y
        ensures y in a[1..] <==> y in b[1..]
      {
        if y in a[1..] {
          var k :| 0 <= k < |a| - 1 && a[1..][k] == y;
          assert StringLess(a[0], a[k + 1]);
          StringLessIrreflexive(y);
          assert y in b && y != b[0];
        }
        if y in b[1..] {
          var k :| 0 <= k < |b| - 1 && b[1..][k] == y;
          assert StringLess(b[0], b[k + 1]);
          StringLessIrreflexive(y);
          assert y in a && y != a[0];
        }
      }
      StrictlySortedUnique(a[1..], b[1..]);
      assert a == [a[0]] + a[1..] && b == [b[0]] + b[1..];
    }
  }

  /** Concatenation regrouped, for proofs that build a list piece by piece. */
  lemma AppendRegroup<T>(a: seq<T>, b: seq<T>, c: seq<T>)
    ensures a + (b + c) == (a + b) + c
  {
  }
}
