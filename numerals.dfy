/**
 * The fragment of Python's text handling that the migration front end and
 * engine rely on: `str.strip()`, `str.split(",")`, `int(text)` for decimal
 * literals, and `str(n)` for the ledger's string keys.
 */
module Numerals {
  import opened Wrappers

  /** Python's `str.isspace` on ASCII: tab, line feed, vertical tab, form feed,
      carriage return, the four information separators (28-31) and space. */
  predicate IsSpace(c: char) {
    var n := c as int;
    (9 <= n <= 13) || (28 <= n <= 32)
  }

  predicate IsDigit(c: char) {
    '0' as int <= c as int <= '9' as int
  }

  /** `not s.strip()`: the text is empty or made only of whitespace. */
  predicate Blank(s: string) {
    forall i :: 0 <= i < |s| ==> IsSpace(s[i])
  }

  /** `s.lstrip()`: the longest suffix of `s` that does not start with whitespace. */
  function StripLeft(s: string): (r: string)
    ensures |r| <= |s| && r == s[|s| - |r|..]
    ensures forall k :: 0 <= k < |s| - |r| ==> IsSpace(s[k])
    ensures r == [] || !IsSpace(r[0])
  {
    if s != [] && IsSpace(s[0]) then StripLeft(s[1..]) else s
  }

  /** `s.rstrip()`: the longest prefix of `s` that does not end with whitespace. */
  function StripRight(s: string): (r: string)
    ensures |r| <= |s| && r == s[..|r|]
    ensures forall k :: |r| <= k < |s| ==> IsSpace(s[k])
    ensures r == [] || !IsSpace(r[|r| - 1])
  {
    if s != [] && IsSpace(s[|s| - 1]) then StripRight(s[..|s| - 1]) else s
  }

  /** `s.strip()`: whitespace removed from both ends. It is empty exactly when
      `s` is blank, and otherwise begins and ends with a non-space character. */
  function Strip(s: string): (r: string)
    ensures r == [] <==> Blank(s)
    ensures r != [] ==> !IsSpace(r[0]) && !IsSpace(r[|r| - 1])
    ensures |r| <= |s|
  {
    var l := StripLeft(s);
    var r := StripRight(l);
    assert r == [] ==> forall k :: 0 <= k < |s| ==> IsSpace(s[k]) by {
      if r == [] {
        forall k | 0 <= k < |s| ensures IsSpace(s[k]) {
          if k >= |s| - |l| {
            assert s[k] == l[k - (|s| - |l|)];
          }
        }
      }
    }
    assert r != [] ==> !IsSpace(r[0]) by {
      if r != [] {
        assert r[0] == l[0];
      }
    }
    r
  }

  /** `s.strip()` is a contiguous part of `s`. */
  lemma StripIsSlice(s: string)
    ensures forall i :: 0 <= i < |Strip(s)| ==> Strip(s)[i] == s[|s| - |StripLeft(s)| + i]
  {
    var l := StripLeft(s);
    var r := Strip(s);
    assert r == StripRight(l);
    var k := |s| - |l|;
    assert l == s[k..];
    forall i | 0 <= i < |r| ensures r[i] == s[k + i] {
      assert r[i] == l[..|r|][i] == l[i];
      assert l[i] == s[k..][i];
    }
  }

  /** Text already free of whitespace at both ends is its own `strip()`. */
  lemma StripTrimmed(s: string)
    requires s == [] || (!IsSpace(s[0]) && !IsSpace(s[|s| - 1]))
    ensures Strip(s) == s
  {
  }

  /** `sep.join(pieces)`. */
  function Join(pieces: seq<string>, sep: char): string
  {
    if pieces == [] then []
    else if |pieces| == 1 then pieces[0]
    else pieces[0] + [sep] + Join(pieces[1..], sep)
  }

  /** `s.split(sep)` for a one-character separator: at least one piece, no
      piece contains the separator, and joining the pieces gives `s` back. */
  function Split(s: string, sep: char): (pieces: seq<string>)
    ensures |pieces| >= 1
    ensures forall i :: 0 <= i < |pieces| ==> sep !in pieces[i]
    ensures Join(pieces, sep) == s
  {
    if s == [] then [[]]
    else
      var rest := Split(s[1..], sep);
      if s[0] == sep then
        assert ([[]] + rest)[1..] == rest;
        [[]] + rest
      else
        var pieces := [[s[0]] + rest[0]] + rest[1..];
        assert pieces[1..] == rest[1..];
        assert Join(pieces, sep) == [s[0]] + Join(rest, sep);
        pieces
  }

  lemma {:induction false} SplitWithoutSeparator(p: string, sep: char)
    requires sep !in p
    ensures Split(p, sep) == [p]
  {
    if p != [] {
      SplitWithoutSeparator(p[1..], sep);
      assert [p[0]] + p[1..] == p;
    }
  }

  lemma {:induction false} SplitAfterFirstSeparator(p: string, t: string, sep: char)
    requires sep !in p
    ensures Split(p + [sep] + t, sep) == [p] + Split(t, sep)
  {
    var s := p + [sep] + t;
    if p == [] {
      assert s[1..] == t;
    } else {
      assert s[1..] == p[1..] + [sep] + t;
      SplitAfterFirstSeparator(p[1..], t, sep);
      assert [p[0]] + p[1..] == p;
    }
  }

  /** Splitting a join of separator-free pieces gives the pieces back. */
  lemma {:induction false} SplitOfJoin(pieces: seq<string>, sep: char)
    requires |pieces| >= 1
    requires forall i :: 0 <= i < |pieces| ==> sep !in pieces[i]
    ensures Split(Join(pieces, sep), sep) == pieces
  {
    if |pieces| == 1 {
      SplitWithoutSeparator(pieces[0], sep);
    } else {
      SplitOfJoin(pieces[1..], sep);
      SplitAfterFirstSeparator(pieces[0], Join(pieces[1..], sep), sep);
      assert [pieces[0]] + pieces[1..] == pieces;
    }
  }

  /** Text made only of separators and whitespace splits into blank pieces. */
  lemma {:induction false} SplitOfSeparatorsIsBlank(s: string, sep: char)
    requires forall i :: 0 <= i < |s| ==> s[i] == sep || IsSpace(s[i])
    ensures forall i :: 0 <= i < |Split(s, sep)| ==> Blank(Split(s, sep)[i])
  {
    if s != [] {
      SplitOfSeparatorsIsBlank(s[1..], sep);
    }
  }

  predicate IsDigits(s: string) {
    |s| > 0 && forall i :: 0 <= i < |s| ==> IsDigit(s[i])
  }

  /** The value of a run of decimal digits, most significant first. */
  function DigitsValue(s: string): nat
    requires forall i :: 0 <= i < |s| ==> IsDigit(s[i])
  {
    if s == [] then 0
    else
      assert IsDigit(s[|s| - 1]);
      10 * DigitsValue(s[..|s| - 1]) + ((s[|s| - 1] as int) - ('0' as int))
  }

  /** Python's `int(text)` on text that is already stripped, restricted to an
      optional sign followed by ASCII digits; every other text is a `ValueError`. */
  function ParseInt(s: string): (r: Option<int>)
    ensures r.Some? <==> IsDigits(s) || (|s| > 1 && (s[0] == '-' || s[0] == '+') && IsDigits(s[1..]))
    ensures r.Some? && IsDigits(s) ==> r.value >= 0
  {
    if |s| > 0 && (s[0] == '-' || s[0] == '+') then
      if IsDigits(s[1..]) then
        Some(if s[0] == '-' then -(DigitsValue(s[1..]) as int) else DigitsValue(s[1..]))
      else None
    else if IsDigits(s) then Some(DigitsValue(s))
    else None
  }

  /** The whitespace `int(text)` itself skips around a literal: tab, line
      feed, vertical tab, form feed, carriage return and space. The four
      information separators, which `str.strip()` removes, are not among it. */
  predicate IsIntSpace(c: char) {
    var n := c as int;
    (9 <= n <= 13) || n == 32
  }

  /** An information separator (28-31): whitespace to `str.strip()` only. */
  predicate IsInfoSeparator(c: char) {
    28 <= c as int <= 31
  }

  /** `int()`'s skipping of leading whitespace; every other character stays. */
  function IntTrimLeft(s: string): (r: string)
    ensures forall i :: 0 <= i < |s| && !IsIntSpace(s[i]) ==> s[i] in r
  {
    if s != [] && IsIntSpace(s[0]) then
      assert forall i :: 1 <= i < |s| ==> s[i] == s[1..][i - 1];
      IntTrimLeft(s[1..])
    else s
  }

  /** `int()`'s skipping of trailing whitespace; every other character stays. */
  function IntTrimRight(s: string): (r: string)
    ensures forall i :: 0 <= i < |s| && !IsIntSpace(s[i]) ==> s[i] in r
  {
    if s != [] && IsIntSpace(s[|s| - 1]) then
      assert forall i :: 0 <= i < |s| - 1 ==> s[i] == s[..|s| - 1][i];
      IntTrimRight(s[..|s| - 1])
    else s
  }

  /** Without information separators, `int()`'s leading whitespace is that
      of `str.lstrip()`. */
  lemma {:induction false} IntTrimLeftIsStripLeft(s: string)
    requires forall i :: 0 <= i < |s| ==> !IsInfoSeparator(s[i])
    ensures IntTrimLeft(s) == StripLeft(s)
  {
    if s != [] {
      assert IsIntSpace(s[0]) <==> IsSpace(s[0]);
      IntTrimLeftIsStripLeft(s[1..]);
    }
  }

  /** Without information separators, `int()`'s trailing whitespace is that
      of `str.rstrip()`. */
  lemma {:induction false} IntTrimRightIsStripRight(s: string)
    requires forall i :: 0 <= i < |s| ==> !IsInfoSeparator(s[i])
    ensures IntTrimRight(s) == StripRight(s)
  {
    if s != [] {
      assert IsIntSpace(s[|s| - 1]) <==> IsSpace(s[|s| - 1]);
      IntTrimRightIsStripRight(s[..|s| - 1]);
    }
  }

  /** Python's `int(text)` on text as entered, not stripped first: `int()`
      skips its own whitespace at both ends and reads a decimal literal from
      the rest. An information separator anywhere makes it a `ValueError`;
      text without one reads as its `strip()` does. */
  function IntOf(s: string): (r: Option<int>)
    ensures (exists i :: 0 <= i < |s| && IsInfoSeparator(s[i])) ==> r == None
    ensures (forall i :: 0 <= i < |s| ==> !IsInfoSeparator(s[i])) ==> r == ParseInt(Strip(s))
  {
    var l := IntTrimLeft(s);
    var t := IntTrimRight(l);
    if forall i :: 0 <= i < |s| ==> !IsInfoSeparator(s[i]) then
      IntTrimLeftIsStripLeft(s);
      assert forall i :: 0 <= i < |l| ==> !IsInfoSeparator(l[i]) by {
        StripLeftIsSuffix(s);
      }
      IntTrimRightIsStripRight(l);
      ParseInt(t)
    else
      SeparatorSurvives(s, l, t);
      ParseInt(t)
  }

  lemma StripLeftIsSuffix(s: string)
    ensures forall i :: 0 <= i < |StripLeft(s)| ==> StripLeft(s)[i] == s[|s| - |StripLeft(s)| + i]
  {
    var l := StripLeft(s);
    assert l == s[|s| - |l|..];
  }

  /** An information separator is never skipped, and no literal holds one. */
  lemma SeparatorSurvives(s: string, l: string, t: string)
    requires l == IntTrimLeft(s) && t == IntTrimRight(l)
    requires exists i :: 0 <= i < |s| && IsInfoSeparator(s[i])
    ensures ParseInt(t) == None
  {
    var i :| 0 <= i < |s| && IsInfoSeparator(s[i]);
    assert !IsIntSpace(s[i]);
    assert s[i] in l;
    var j :| 0 <= j < |l| && l[j] == s[i];
    assert l[j] in t;
    var k :| 0 <= k < |t| && t[k] == s[i];
    assert !IsDigit(t[k]) && t[k] != '-' && t[k] != '+';
    if k > 0 {
      assert t[1..][k - 1] == t[k];
    }
  }

  function DigitChar(d: nat): (c: char)
    requires d < 10
    ensures IsDigit(c) && (c as int) - ('0' as int) == d
  {
    (('0' as int) + d) as char
  }

  /** The canonical decimal digits of `n`: no leading zero unless `n` is zero. */
  function NatDigits(n: nat): (s: string)
    ensures IsDigits(s)
    ensures DigitsValue(s) == n
    ensures s[0] == '0' ==> n == 0
  {
    if n < 10 then [DigitChar(n)]
    else
      var high := NatDigits(n / 10);
      var s := high + [DigitChar(n % 10)];
      assert s[..|s| - 1] == high;
      s
  }

  /** Python's `str(n)`: `int()` reads it back as `n`, so distinct sources get
      distinct ledger keys; it never contains whitespace or a comma. */
  function Str(n: int): (s: string)
    ensures ParseInt(s) == Some(n)
    ensures s != [] && forall i :: 0 <= i < |s| ==> s[i] == '-' || IsDigit(s[i])
  {
    if n < 0 then
      var s := ['-'] + NatDigits(-n);
      assert s[1..] == NatDigits(-n);
      s
    else NatDigits(n)
  }

  /** Distinct integers are written differently. */
  lemma StrInjective(a: int, b: int)
    requires a != b
    ensures Str(a) != Str(b)
  {
    assert ParseInt(Str(a)) == Some(a);
  }
}
