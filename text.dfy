/** Python's `str` operations on ASCII text, as the modelled code uses them:
    `strip`, `lower`, `in` (substring), `startswith`, `endswith`, slicing with
    `[:n]`, `join`, and the ordering `sorted` uses. */
module Text {

  /** `str.isspace` on the ASCII range: space, \t, \n, \v, \f, \r and \x1c-\x1f. */
  predicate IsSpace(c: char) {
    c as int in {9, 10, 11, 12, 13, 28, 29, 30, 31, 32}
  }

  predicate IsLetter(c: char) {
    ('a' <= c <= 'z') || ('A' <= c <= 'Z')
  }

  predicate Blank(s: string) {
    forall i :: 0 <= i < |s| ==> IsSpace(s[i])
  }

  function TrimStart(s: string): (r: string)
    ensures |r| <= |s| && r == s[|s| - |r|..]
    ensures Blank(s[..|s| - |r|])
    ensures r != [] ==> !IsSpace(r[0])
  {
    if s != [] && IsSpace(s[0]) then TrimStart(s[1..]) else s
  }

  function TrimEnd(s: string): (r: string)
    ensures |r| <= |s| && r == s[..|r|]
    ensures Blank(s[|r|..])
    ensures r != [] ==> !IsSpace(r[|r| - 1])
  {
    if s != [] && IsSpace(s[|s| - 1]) then TrimEnd(s[..|s| - 1]) else s
  }

  /** `str.strip()`: drop leading and trailing whitespace. */
  function Strip(s: string): (r: string)
    ensures r == [] <==> Blank(s)
    ensures r != [] ==> !IsSpace(r[0]) && !IsSpace(r[|r| - 1])
  {
    var t := TrimStart(s);
    var r := TrimEnd(t);
    StripParts(s, t, r);
    r
  }

  lemma StripParts(s: string, t: string, r: string)
    requires |t| <= |s| && t == s[|s| - |t|..] && Blank(s[..|s| - |t|])
    requires |r| <= |t| && r == t[..|r|] && Blank(t[|r|..])
    requires t != [] ==> !IsSpace(t[0])
    ensures r == [] <==> Blank(s)
    ensures OccursAt(s, r, |s| - |t|)
  {
    var k := |s| - |t|;
    assert r == s[k..k + |r|];
    if r == [] {
      assert t == [];
      assert s == s[..k];
    } else {
      assert s[k] == r[0];
    }
  }

  /** The stripped string occurs in the original. */
  lemma StripWithin(s: string)
    ensures Contains(s, Strip(s))
  {
    var t := TrimStart(s);
    StripParts(s, t, TrimEnd(t));
  }

  /** Non-empty, with no whitespace at either end: what `Strip` returns
      for a non-blank string. */
  predicate Trimmed(s: string) {
    s != [] && !IsSpace(s[0]) && !IsSpace(s[|s| - 1])
  }

  lemma TrimmedFixed(s: string)
    requires Trimmed(s)
    ensures Strip(s) == s
  {
    assert TrimStart(s) == s;
    assert TrimEnd(s) == s;
  }

  /** Stripping a stripped string changes nothing. */
  lemma StripIdempotent(s: string)
    ensures Strip(Strip(s)) == Strip(s)
  {
    var r := Strip(s);
    if r != [] {
      assert TrimStart(r) == r;
      assert TrimEnd(r) == r;
    }
  }

  function LowerChar(c: char): char {
    if 'A' <= c <= 'Z' then (c as int + 32) as char else c
  }

  /** `str.lower()` on ASCII letters; every other character is kept. */
  function Lower(s: string): (r: string)
    ensures |r| == |s|
    ensures forall i :: 0 <= i < |s| ==> r[i] == LowerChar(s[i])
  {
    seq(|s|, i requires 0 <= i < |s| => LowerChar(s[i]))
  }

  predicate StartsWith(s: string, prefix: string) {
    |prefix| <= |s| && s[..|prefix|] == prefix
  }

  predicate EndsWith(s: string, suffix: string) {
    |suffix| <= |s| && s[|s| - |suffix|..] == suffix
  }

  /** Python's `sub in s`. */
  predicate Contains(s: string, sub: string) {
    exists i :: 0 <= i <= |s| && OccursAt(s, sub, i)
  }

  /** `sub` occurs in `s` starting at index `i`. */
  predicate OccursAt(s: string, sub: string, i: int) {
    0 <= i <= |s| - |sub| && s[i..i + |sub|] == sub
  }

  /** A substring of a substring is a substring. */
  lemma ContainsTransitive(s: string, t: string, u: string)
    requires Contains(s, t) && Contains(t, u)
    ensures Contains(s, u)
  {
    var i :| 0 <= i <= |s| && OccursAt(s, t, i);
    var j :| 0 <= j <= |t| && OccursAt(t, u, j);
    assert i + |t| <= |s| && s[i..i + |t|] == t;
    assert j + |u| <= |t| && t[j..j + |u|] == u;
    forall m | 0 <= m < |u| ensures s[i + j + m] == u[m] {
      assert s[i + j + m] == s[i..i + |t|][j + m] == t[j + m] == t[j..j + |u|][m];
    }
    assert s[i + j..i + j + |u|] == u;
    assert OccursAt(s, u, i + j);
  }

  /** A keyword without spaces occurs in `a + " " + b` exactly when it occurs
      in `a` or in `b`: the joining space cannot be part of an occurrence. */
  lemma ContainsAcrossSpace(a: string, b: string, w: string)
    requires w != [] && ' ' !in w
    ensures Contains(a + " " + b, w) <==> Contains(a, w) || Contains(b, w)
  {
    if Contains(a, w) { ContainsLeft(a, b, w); }
    if Contains(b, w) { ContainsRight(a, b, w); }
    if Contains(a + " " + b, w) { ContainsEither(a, b, w); }
  }

  lemma ContainsLeft(a: string, b: string, w: string)
    requires Contains(a, w)
    ensures Contains(a + " " + b, w)
  {
    var s := a + " " + b;
    var i :| 0 <= i <= |a| && OccursAt(a, w, i);
    forall c | 0 <= c < |w| ensures s[i + c] == w[c] {
      assert a[i..i + |w|][c] == a[i + c];
    }
    assert s[i..i + |w|] == w;
    assert OccursAt(s, w, i);
  }

  lemma ContainsRight(a: string, b: string, w: string)
    requires Contains(b, w)
    ensures Contains(a + " " + b, w)
  {
    var s := a + " " + b;
    var j :| 0 <= j <= |b| && OccursAt(b, w, j);
    var i := |a| + 1 + j;
    forall c | 0 <= c < |w| ensures s[i + c] == w[c] {
      assert b[j..j + |w|][c] == b[j + c];
    }
    assert s[i..i + |w|] == w;
    assert OccursAt(s, w, i);
  }

  lemma ContainsEither(a: string, b: string, w: string)
    requires w != [] && ' ' !in w
    requires Contains(a + " " + b, w)
    ensures Contains(a, w) || Contains(b, w)
  {
    var s := a + " " + b;
    var i :| 0 <= i <= |s| && OccursAt(s, w, i);
    NoStraddle(a, b, w, i);
    if i + |w| <= |a| {
      forall c | 0 <= c < |w| ensures a[i + c] == w[c] {
        assert s[i..i + |w|][c] == s[i + c];
      }
      assert a[i..i + |w|] == w;
      assert OccursAt(a, w, i);
    } else {
      var j := i - |a| - 1;
      forall c | 0 <= c < |w| ensures b[j + c] == w[c] {
        assert s[i..i + |w|][c] == s[i + c];
      }
      assert b[j..j + |w|] == w;
      assert OccursAt(b, w, j);
    }
  }

  /** An occurrence that covers the joining space has a space in it. */
  lemma NoStraddle(a: string, b: string, w: string, i: int)
    requires OccursAt(a + " " + b, w, i)
    ensures i <= |a| < i + |w| ==> ' ' in w
  {
    if i <= |a| < i + |w| {
      assert w[|a| - i] == (a + " " + b)[|a|];
    }
  }

  /** `s[:n]` for n >= 0. */
  function Take(s: string, n: nat): (r: string)
    ensures |r| <= n && |r| <= |s|
    ensures |r| == n || r == s
    ensures r == s[..|r|]
  {
    if |s| <= n then s else s[..n]
  }

  /** `sep.join(xs)`. */
  function Join(sep: string, xs: seq<string>): string {
    if xs == [] then ""
    else if |xs| == 1 then xs[0]
    else xs[0] + sep + Join(sep, xs[1..])
  }

  /** Python's `<` on strings: lexicographic by code point, a proper prefix first. */
  predicate LexLess(a: string, b: string)
    decreases |a|
  {
    if a == [] then b != []
    else if b == [] then false
    else if a[0] != b[0] then a[0] < b[0]
    else LexLess(a[1..], b[1..])
  }

  lemma {:induction false} LexIrreflexive(a: string)
    ensures !LexLess(a, a)
    decreases |a|
  {
    if a != [] {
      LexIrreflexive(a[1..]);
    }
  }

  lemma {:induction false} LexTransitive(a: string, b: string, c: string)
    requires LexLess(a, b) && LexLess(b, c)
    ensures LexLess(a, c)
    decreases |a|
  {
    if a != [] && a[0] == b[0] && b[0] == c[0] {
      LexTransitive(a[1..], b[1..], c[1..]);
    }
  }

  lemma {:induction false} LexTotal(a: string, b: string)
    requires a != b
    ensures LexLess(a, b) || LexLess(b, a)
    decreases |a|
  {
    if a != [] && b != [] && a[0] == b[0] {
      assert a == [a[0]] + a[1..] && b == [b[0]] + b[1..];
      LexTotal(a[1..], b[1..]);
    }
  }

  predicate StrictlySorted(xs: seq<string>) {
    forall i, j :: 0 <= i < j < |xs| ==> LexLess(xs[i], xs[j])
  }

  /** Insert a new key into a strictly sorted sequence. */
  function InsertSorted(xs: seq<string>, k: string): (r: seq<string>)
    requires StrictlySorted(xs) && k !in xs
    ensures StrictlySorted(r)
    ensures |r| == |xs| + 1
    ensures forall x :: x in r <==> x in xs || x == k
  {
    if xs == [] then [k]
    else if LexLess(k, xs[0]) then
      LessThanSortedTail(k, xs);
      [k] + xs
    else
      LexTotal(k, xs[0]);
      var rest := InsertSorted(xs[1..], k);
      GreaterHeadOf(xs[0], rest, xs[1..], k);
      [xs[0]] + rest
  }

  lemma LessThanSortedTail(k: string, xs: seq<string>)
    requires StrictlySorted(xs) && xs != [] && LexLess(k, xs[0])
    ensures StrictlySorted([k] + xs)
  {
    forall j | 0 <= j < |xs| ensures LexLess(k, xs[j]) {
      if j > 0 { LexTransitive(k, xs[0], xs[j]); }
    }
  }

  lemma GreaterHeadOf(h: string, rest: seq<string>, tail: seq<string>, k: string)
    requires StrictlySorted(rest) && LexLess(h, k)
    requires forall j :: 0 <= j < |tail| ==> LexLess(h, tail[j])
    requires forall x :: x in rest ==> x in tail || x == k
    ensures StrictlySorted([h] + rest)
  {
    forall j | 0 <= j < |rest| ensures LexLess(h, rest[j]) {
      if rest[j] != k {
        assert rest[j] in rest;
        var m :| 0 <= m < |tail| && tail[m] == rest[j];
      }
    }
  }

  /** `sorted(keys)` for a collection of distinct strings. */
  method SortedStrings(keys: set<string>) returns (r: seq<string>)
    ensures StrictlySorted(r)
    ensures |r| == |keys|
    ensures forall x :: x in r <==> x in keys
  {
    r := [];
    var rest := keys;
    while rest != {}
      invariant StrictlySorted(r)
      invariant rest <= keys
      invariant forall x :: x in r <==> x in keys && x !in rest
      invariant |r| + |rest| == |keys|
      decreases rest
    {
      var k :| k in rest;
      r := InsertSorted(r, k);
      rest := rest - {k};
    }
  }
}
