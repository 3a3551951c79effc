/** Strings as sequences of characters: the few string operations the source relies on. */
module Text {

  import opened Wrappers

  /** ASCII lower-casing of one character (`toLowerCase` restricted to A-Z). */
  function LowerChar(c: char): char
  {
    if 'A' <= c <= 'Z' then (c as int + 32) as char else c
  }

  /** `s.toLowerCase()`, ASCII letters only. */
  function Lower(s: string): (r: string)
    ensures |r| == |s|
    ensures forall i :: 0 <= i < |s| ==> r[i] == LowerChar(s[i])
  {
    seq(|s|, i requires 0 <= i < |s| => LowerChar(s[i]))
  }

  /** `s.startsWith(prefix)`: `prefix` is an initial segment of `s`. */
  predicate StartsWith(s: string, prefix: string)
  {
    |prefix| <= |s| && s[..|prefix|] == prefix
  }

  /** `s.includes(sub)`: `sub` occurs in `s` at some position. */
  predicate Contains(s: string, sub: string)
  {
    exists i :: 0 <= i <= |s| - |sub| && StartsWith(s[i..], sub)
  }

  /** The empty string occurs in every string, and every string occurs in itself. */
  lemma ContainsEmptyAndSelf(s: string)
    ensures Contains(s, "") && Contains(s, s)
  {
    assert StartsWith(s[0..], "");
    assert StartsWith(s[0..], s);
  }

  /** The first position at or after `from` where `pat` occurs (`s.indexOf(pat, from)`). */
  function IndexOf(s: string, pat: string, from: nat): (r: Option<nat>)
    requires from <= |s|
    ensures r.Some? ==> from <= r.value <= |s| - |pat|
    decreases |s| - from
  {
    if StartsWith(s[from..], pat) then Some(from)
    else if from == |s| then None
    else IndexOf(s, pat, from + 1)
  }

  /** The position found is a match with none before it; finding nothing means there is no match. */
  lemma {:induction false} IndexOfSpec(s: string, pat: string, from: nat)
    requires from <= |s|
    ensures var r := IndexOf(s, pat, from);
      (r.Some? ==> StartsWith(s[r.value..], pat) && forall j :: from <= j < r.value ==> !StartsWith(s[j..], pat)) &&
      (r.None? ==> forall j :: from <= j <= |s| ==> !StartsWith(s[j..], pat))
    decreases |s| - from
  {
    if !StartsWith(s[from..], pat) && from < |s| {
      IndexOfSpec(s, pat, from + 1);
    }
  }

  /** Searching from the start finds something exactly when the pattern occurs. */
  lemma IndexOfFindsContains(s: string, pat: string)
    ensures IndexOf(s, pat, 0).Some? <==> Contains(s, pat)
  {
    IndexOfSpec(s, pat, 0);
    if Contains(s, pat) {
      var i :| 0 <= i <= |s| - |pat| && StartsWith(s[i..], pat);
      assert IndexOf(s, pat, 0).Some?;
    }
  }

  /** The characters JavaScript's `\s` and `trim` treat as white space, ASCII only. */
  predicate IsSpace(c: char)
  {
    c == ' ' || c == '\t' || c == '\n' || c == '\r' || c == '\U{000B}' || c == '\U{000C}'
  }

  /** `!s.trim()`: the string is empty or made only of white space. */
  predicate IsBlank(s: string)
  {
    forall i :: 0 <= i < |s| ==> IsSpace(s[i])
  }

  /** `xs.join(sep)`. */
  function Join(xs: seq<string>, sep: string): (r: string)
    ensures |xs| == 0 ==> r == ""
    ensures |xs| == 1 ==> r == xs[0]
    ensures |xs| >= 1 ==> |r| == TotalLength(xs) + (|xs| - 1) * |sep| && StartsWith(r, xs[0])
    decreases |xs|
  {
    if xs == [] then ""
    else if |xs| == 1 then xs[0]
    else xs[0] + sep + Join(xs[1..], sep)
  }

  /** The sum of the lengths of the pieces. */
  function TotalLength(xs: seq<string>): nat
    decreases |xs|
  {
    if xs == [] then 0 else |xs[0]| + TotalLength(xs[1..])
  }

  /**
   * Adding a last piece adds the separator and the piece at the end: with the length clause,
   * this fixes the order of the pieces in the joined text.
   */
  lemma {:induction false} JoinSnoc(xs: seq<string>, x: string, sep: string)
    requires |xs| >= 1
    ensures Join(xs + [x], sep) == Join(xs, sep) + sep + x
    decreases |xs|
  {
    if |xs| == 1 {
      assert xs + [x] == [xs[0], x];
      assert [xs[0], x][1..] == [x];
    } else {
      assert (xs + [x])[1..] == xs[1..] + [x];
      JoinSnoc(xs[1..], x, sep);
    }
  }

  predicate IsDigit(c: char)
  {
    '0' <= c <= '9'
  }

  function DigitChar(d: nat): (c: char)
    requires d < 10
    ensures IsDigit(c) && c as int - '0' as int == d
  {
    ('0' as int + d) as char
  }

  /** The decimal text of a natural number, as a template literal prints it. */
  function NatToString(n: nat): (r: string)
    ensures |r| >= 1
    ensures forall i :: 0 <= i < |r| ==> IsDigit(r[i])
    ensures n >= 10 ==> r[0] != '0'
    decreases n
  {
    if n < 10 then [DigitChar(n)] else NatToString(n / 10) + [DigitChar(n % 10)]
  }

  /** The value of a string of decimal digits. */
  function DigitsValue(s: string): nat
    requires forall i :: 0 <= i < |s| ==> IsDigit(s[i])
    decreases |s|
  {
    if s == [] then 0
    else
      assert IsDigit(s[|s| - 1]);
      var d: nat := s[|s| - 1] as int - '0' as int;
      DigitsValue(s[..|s| - 1]) * 10 + d
  }

  /** Reading back the printed digits gives the number: printing loses nothing. */
  lemma {:induction false} NatToStringRoundTrip(n: nat)
    ensures DigitsValue(NatToString(n)) == n
    decreases n
  {
    if n >= 10 {
      var s := NatToString(n);
      assert s[..|s| - 1] == NatToString(n / 10);
      NatToStringRoundTrip(n / 10);
    }
  }

  /** The decimal text of an integer, with a leading minus sign when negative. */
  function IntToString(i: int): (r: string)
    ensures |r| >= 1
    ensures (r[0] == '-') <==> i < 0
    ensures i >= 0 ==> (forall k :: 0 <= k < |r| ==> IsDigit(r[k])) && DigitsValue(r) == i
    ensures i < 0 ==> |r| >= 2 && var m := r[1..]; (forall k :: 0 <= k < |m| ==> IsDigit(m[k])) && DigitsValue(m) == -i
  {
    if i < 0 then
      NatToStringRoundTrip(-i);
      var m := NatToString(-i);
      assert ("-" + m)[1..] == m;
      "-" + m
    else
      NatToStringRoundTrip(i);
      NatToString(i)
  }
}
