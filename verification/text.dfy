/** The Python string and list primitives the bot relies on: `str.lower`, the `in`
    operator on strings, `str.strip`, `str.split`, `str.join`, `str(n)` / `int(s)` on
    non-negative integers, `min`/`max` on scores, and list slicing with negative or out-of-range bounds. */
module Text {
  import opened Results

  // ---------------------------------------------------------------- case

  /** `str.lower` on one character, for ASCII and the accented capitals of Latin-1
      (which cover Portuguese); other characters are left as they are. */
  function LowerChar(c: char): char
  {
    if 'A' <= c <= 'Z' || ('À' <= c <= 'Þ' && c != '×') then (c as int + 32) as char else c
  }

  function Lower(s: string): (r: string)
    ensures |r| == |s|
    ensures forall i :: 0 <= i < |s| ==> r[i] == LowerChar(s[i])
  {
    seq(|s|, i requires 0 <= i < |s| => LowerChar(s[i]))
  }

  // ---------------------------------------------------------------- substrings

  predicate OccursAt(s: string, p: string, i: int)
  {
    0 <= i && i + |p| <= |s| && s[i..i + |p|] == p
  }

  /** Python's `p in s` for strings. */
  predicate Contains(s: string, p: string)
  {
    exists i | 0 <= i <= |s| - |p| :: OccursAt(s, p, i)
  }

  predicate StartsWith(s: string, p: string)
  {
    |p| <= |s| && s[..|p|] == p
  }

  lemma ContainsPrefix(s: string, t: string, p: string)
    requires Contains(s, p)
    ensures Contains(s + t, p)
  {
    var i :| 0 <= i <= |s| - |p| && OccursAt(s, p, i);
    assert (s + t)[i..i + |p|] == s[i..i + |p|];
    assert OccursAt(s + t, p, i);
  }

  // ---------------------------------------------------------------- whitespace

  /** Python's `str.isspace` on one character (also what `\s` matches in a `str` regex). */
  predicate IsSpace(c: char)
  {
    var n := c as int;
    (9 <= n <= 13) || (28 <= n <= 32) || n == 133 || n == 160 || n == 5760
    || (8192 <= n <= 8202) || n == 8232 || n == 8233 || n == 8239 || n == 8287 || n == 12288
  }

  predicate NoSpace(w: string)
  {
    forall j :: 0 <= j < |w| ==> !IsSpace(w[j])
  }

  /** Drops the leading characters that satisfy `drop`. */
  function TrimStart(s: string, drop: char -> bool): (r: string)
    ensures |r| <= |s|
    decreases |s|
  {
    if s != [] && drop(s[0]) then TrimStart(s[1..], drop) else s
  }

  /** `TrimStart` removes a prefix made only of dropped characters, and what is left
      does not start with one. */
  lemma {:induction false} TrimStartDrops(s: string, drop: char -> bool)
    ensures var r := TrimStart(s, drop);
            && r == s[|s| - |r|..]
            && (r != [] ==> !drop(r[0]))
            && (forall k :: 0 <= k < |s| - |r| ==> drop(s[k]))
    decreases |s|
  {
    if s != [] && drop(s[0]) {
      TrimStartDrops(s[1..], drop);
    }
  }

  /** Drops the trailing characters that satisfy `drop`. */
  function TrimEnd(s: string, drop: char -> bool): (r: string)
    ensures |r| <= |s|
    decreases |s|
  {
    if s != [] && drop(s[|s| - 1]) then TrimEnd(s[..|s| - 1], drop) else s
  }

  /** `TrimEnd` removes a suffix made only of dropped characters, and what is left does
      not end with one. */
  lemma {:induction false} TrimEndDrops(s: string, drop: char -> bool)
    ensures var r := TrimEnd(s, drop);
            && r == s[..|r|]
            && (r != [] ==> !drop(r[|r| - 1]))
            && (forall k :: |r| <= k < |s| ==> drop(s[k]))
    decreases |s|
  {
    if s != [] && drop(s[|s| - 1]) {
      TrimEndDrops(s[..|s| - 1], drop);
    }
  }

  /** Python's `s.strip()`. */
  function Strip(s: string): string
  {
    TrimEnd(TrimStart(s, IsSpace), IsSpace)
  }

  /** Python's `s.strip(c)` for a one-character argument. */
  function StripChar(s: string, c: char): string
  {
    DropTrailing(DropLeading(s, c), c)
  }

  /** Drops the leading copies of `c`. */
  function DropLeading(s: string, c: char): (r: string)
    ensures r != [] ==> r[0] != c
    decreases |s|
  {
    if s != [] && s[0] == c then DropLeading(s[1..], c) else s
  }

  /** Drops the trailing copies of `c`. */
  function DropTrailing(s: string, c: char): (r: string)
    ensures r != [] ==> r[|r| - 1] != c
    decreases |s|
  {
    if s != [] && s[|s| - 1] == c then DropTrailing(s[..|s| - 1], c) else s
  }

  /** Index of the first whitespace character of `s`, or `|s|`. */
  function WordEnd(s: string): (k: nat)
    ensures k <= |s|
    ensures k < |s| ==> IsSpace(s[k])
    ensures forall j :: 0 <= j < k ==> !IsSpace(s[j])
  {
    if s == [] || IsSpace(s[0]) then 0 else 1 + WordEnd(s[1..])
  }

  /** Python's `s.split()`: the maximal runs of non-whitespace characters, in order. */
  function Words(s: string): (r: seq<string>)
    ensures forall k :: 0 <= k < |r| ==> r[k] != [] && NoSpace(r[k])
    decreases |s|
  {
    if s == [] then []
    else if IsSpace(s[0]) then Words(s[1..])
    else
      var k := WordEnd(s);
      [s[..k]] + Words(s[k..])
  }

  // ---------------------------------------------------------------- join and split

  /** Python's `sep.join(xs)`. */
  function Join(sep: string, xs: seq<string>): string
  {
    if xs == [] then "" else if |xs| == 1 then xs[0] else xs[0] + sep + Join(sep, xs[1..])
  }

  lemma {:induction false} JoinSnoc(sep: string, xs: seq<string>, x: string)
    requires xs != []
    ensures Join(sep, xs + [x]) == Join(sep, xs) + sep + x
  {
    if |xs| == 1 {
      assert xs + [x] == [xs[0], x];
      assert ([xs[0], x])[1..] == [x];
    } else {
      assert (xs + [x])[1..] == xs[1..] + [x];
      JoinSnoc(sep, xs[1..], x);
    }
  }

  /** Index of the first occurrence of `c` in `s`, or `|s|`. */
  function IndexOf(s: string, c: char): (k: nat)
    ensures k <= |s|
    ensures k < |s| ==> s[k] == c
    ensures forall j :: 0 <= j < k ==> s[j] != c
  {
    if s == [] || s[0] == c then 0 else 1 + IndexOf(s[1..], c)
  }

  /** Python's `s.split(c)` for a one-character separator: never empty. */
  function SplitOn(s: string, c: char): (r: seq<string>)
    ensures |r| >= 1
    decreases |s|
  {
    var k := IndexOf(s, c);
    if k == |s| then [s] else [s[..k]] + SplitOn(s[k + 1..], c)
  }

  lemma Join2(sep: string, a: string, b: string)
    ensures Join(sep, [a, b]) == a + sep + b
  {
    assert [a, b][1..] == [b];
  }

  lemma Join3(sep: string, a: string, b: string, c: string)
    ensures Join(sep, [a, b, c]) == a + sep + b + sep + c
  {
    assert [a, b, c][1..] == [b, c];
    Join2(sep, b, c);
  }

  /** Splitting what `join` glued back apart: `c.join(xs).split(c) == xs` when no piece holds `c`. */
  lemma {:induction false} SplitOnJoin(xs: seq<string>, c: char)
    requires xs != []
    requires forall k :: 0 <= k < |xs| ==> c !in xs[k]
    ensures SplitOn(Join([c], xs), c) == xs
  {
    var s := Join([c], xs);
    if |xs| == 1 {
      assert s == xs[0];
      assert IndexOf(s, c) == |s|;
    } else {
      var rest := Join([c], xs[1..]);
      assert s == xs[0] + [c] + rest;
      assert s[|xs[0]|] == c;
      assert IndexOf(s, c) == |xs[0]|;
      assert s[|xs[0]| + 1..] == rest;
      assert s[..|xs[0]|] == xs[0];
      assert |s| != |xs[0]|;
      assert SplitOn(s, c) == [xs[0]] + SplitOn(rest, c);
      SplitOnJoin(xs[1..], c);
      assert [xs[0]] + xs[1..] == xs;
    }
  }

  /** Python's `s.split(c, 1)`: the text before the first `c` and the text after it. */
  function SplitFirst(s: string, c: char): (r: (string, string))
    requires c in s
    ensures r.0 + [c] + r.1 == s && c !in r.0
  {
    var k := IndexOf(s, c);
    assert s == s[..k] + [c] + s[k + 1..];
    (s[..k], s[k + 1..])
  }

  // ---------------------------------------------------------------- decimal numerals

  predicate IsDigit(c: char)
  {
    '0' <= c <= '9'
  }

  predicate AllDigits(s: string)
  {
    forall k :: 0 <= k < |s| ==> IsDigit(s[k])
  }

  function DigitChar(d: nat): char
    requires d < 10
  {
    ('0' as int + d) as char
  }

  function DigitValue(c: char): nat
    requires IsDigit(c)
  {
    c as int - '0' as int
  }

  /** The value of a string of decimal digits (0 for the empty string). */
  function DigitsValue(s: string): nat
    requires AllDigits(s)
  {
    if s == [] then 0 else DigitsValue(s[..|s| - 1]) * 10 + DigitValue(s[|s| - 1])
  }

  /** Python's `str(n)` for `n >= 0`. */
  function NatToString(n: nat): (r: string)
    ensures r != [] && AllDigits(r)
  {
    if n < 10 then [DigitChar(n)] else NatToString(n / 10) + [DigitChar(n % 10)]
  }

  /** Python's `int(s)` restricted to plain decimal digits: `None` where it would raise. */
  function ParseNat(s: string): Option<nat>
  {
    if s != [] && AllDigits(s) then Some(DigitsValue(s)) else None
  }

  lemma {:induction false} DigitsValueOfNatToString(n: nat)
    ensures DigitsValue(NatToString(n)) == n
  {
    if n >= 10 {
      var r := NatToString(n);
      assert r[..|r| - 1] == NatToString(n / 10);
      DigitsValueOfNatToString(n / 10);
    }
  }

  /** Reading back what `str(n)` printed gives `n`. */
  lemma ParseNatToString(n: nat)
    ensures ParseNat(NatToString(n)) == Some(n)
  {
    DigitsValueOfNatToString(n);
  }

  lemma {:induction false} NatToStringInjective(a: nat, b: nat)
    requires NatToString(a) == NatToString(b)
    ensures a == b
  {
    DigitsValueOfNatToString(a);
    DigitsValueOfNatToString(b);
  }

  // ---------------------------------------------------------------- numbers

  /** Python's `min(a, b)` on floats. */
  function MinReal(a: real, b: real): real
  {
    if a <= b then a else b
  }

  /** Python's `max(0.0, min(1.0, x))`. */
  function Clamp01(x: real): (r: real)
    ensures 0.0 <= r <= 1.0
    ensures 0.0 <= x <= 1.0 ==> r == x
  {
    if x < 0.0 then 0.0 else if x > 1.0 then 1.0 else x
  }

  // ---------------------------------------------------------------- Python slices

  /** How Python normalises a slice bound `i` against a list of length `len`. */
  function PyBound(len: nat, i: int): (b: nat)
    ensures b <= len
  {
    if i < 0 then (if len + i < 0 then 0 else len + i) else if i > len then len else i
  }

  /** Python's `s[i:]`. */
  function PySliceFrom<T>(s: seq<T>, i: int): seq<T>
  {
    s[PyBound(|s|, i)..]
  }

  /** Python's `s[:j]`. */
  function PySliceTo<T>(s: seq<T>, j: int): seq<T>
  {
    s[..PyBound(|s|, j)]
  }

  function Min(a: int, b: int): int
  {
    if a <= b then a else b
  }

  /** The last `n` elements of `s` (all of `s` when it is shorter). */
  function LastN<T>(s: seq<T>, n: nat): (r: seq<T>)
    ensures |r| == Min(n, |s|)
  {
    s[|s| - Min(n, |s|)..]
  }

  /** Appending one element and keeping the last `n` keeps the last `n - 1` of the old
      elements, in order, followed by the new one. */
  lemma LastNSnoc<T>(s: seq<T>, x: T, n: nat)
    requires n >= 1
    ensures LastN(s + [x], n) == LastN(s, n - 1) + [x]
  {
    var m := Min(n - 1, |s|);
    assert (s + [x])[|s| - m..] == s[|s| - m..] + [x];
  }

  /** Keeping the last `n` and then the last `m <= n` of those is keeping the last `m`. */
  lemma LastNLastN<T>(s: seq<T>, n: nat, m: nat)
    requires m <= n
    ensures LastN(LastN(s, n), m) == LastN(s, m)
  {
    var t := LastN(s, n);
    assert t == s[|s| - |t|..];
    assert t[|t| - Min(m, |t|)..] == s[|s| - Min(m, |s|)..];
  }
}
