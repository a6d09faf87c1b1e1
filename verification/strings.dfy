/**
 * The few .NET string operations the cell normalisation relies on:
 * `s.Split(sep)[0]`, `s.Replace("\"", "")`, `s.Contains(t)` (ordinal) and
 * `Int32.TryParse` applied to a run of ASCII digits.
 */
module Strings {

  predicate IsDigit(c: char) {
    '0' <= c <= '9'
  }

  predicate AllDigits(s: string) {
    forall k | 0 <= k < |s| :: IsDigit(s[k])
  }

  /** `s.Split(sep)[0]`: the text before the first `sep`, or all of `s` when it has none. */
  function BeforeFirst(s: string, sep: char): (r: string)
    ensures r <= s
    ensures sep !in r
    ensures |r| < |s| ==> s[|r|] == sep
  {
    if s == [] then []
    else if s[0] == sep then []
    else [s[0]] + BeforeFirst(s[1..], sep)
  }

  /** The three facts BeforeFirst promises determine its result: no other string has them. */
  lemma BeforeFirstUnique(s: string, sep: char, r': string)
    requires r' <= s && sep !in r'
    requires |r'| < |s| ==> s[|r'|] == sep
    ensures r' == BeforeFirst(s, sep)
  {
  }

  /** The prefix is empty exactly when the text is empty or begins with the separator. */
  lemma BeforeFirstEmpty(s: string, sep: char)
    ensures BeforeFirst(s, sep) == [] <==> s == [] || s[0] == sep
  {
  }

  /** Without a separator the whole text is the prefix. */
  lemma BeforeFirstWholeIf(s: string, sep: char)
    ensures sep !in s ==> BeforeFirst(s, sep) == s
  {
  }

  /** `s.Replace(c, "")` for a one-character `c`: every `c` removed, everything else kept. */
  function RemoveAll(s: string, c: char): (r: string)
    ensures c !in r
    ensures multiset(r) == multiset(s)[c := 0]
    ensures c !in s ==> r == s
    ensures |r| <= |s|
  {
    if s == [] then []
    else
      assert s == [s[0]] + s[1..];
      (if s[0] == c then [] else [s[0]]) + RemoveAll(s[1..], c)
  }

  /** Removal distributes over concatenation, so it keeps the order of what it keeps. */
  lemma {:induction false} RemoveAllAppend(a: string, b: string, c: char)
    ensures RemoveAll(a + b, c) == RemoveAll(a, c) + RemoveAll(b, c)
  {
    if a == [] {
      assert a + b == b;
    } else {
      assert (a + b)[0] == a[0];
      assert (a + b)[1..] == a[1..] + b;
      var head := if a[0] == c then [] else [a[0]];
      var ra, rb := RemoveAll(a[1..], c), RemoveAll(b, c);
      RemoveAllAppend(a[1..], b, c);
      AppendAssoc(head, ra, rb);
    }
  }

  /** Concatenation is associative. */
  lemma AppendAssoc(p: string, q: string, r: string)
    ensures p + (q + r) == (p + q) + r
  {
  }

  /** A text that begins and ends with `c` loses at least those two characters. */
  lemma RemoveAllDelimited(s: string, c: char)
    requires |s| >= 2 && s[0] == c && s[|s| - 1] == c
    ensures |RemoveAll(s, c)| <= |s| - 2
  {
    var inner := s[1..|s| - 1];
    assert s == [c] + inner + [c];
    RemoveAllAppend([c] + inner, [c], c);
    RemoveAllAppend([c], inner, c);
  }

  /** `t` occurs in `s` starting at position `j`. */
  predicate OccursAt(s: string, t: string, j: int) {
    0 <= j && j + |t| <= |s| && s[j..j + |t|] == t
  }

  /** Ordinal search for `t` in `s` at positions `i` and later. */
  function ContainsFrom(s: string, t: string, i: nat): (b: bool)
    decreases |s| - i
    ensures b <==> exists j :: i <= j && OccursAt(s, t, j)
  {
    if i + |t| > |s| then false
    else if s[i..i + |t|] == t then assert OccursAt(s, t, i); true
    else ContainsFrom(s, t, i + 1)
  }

  /** `s.Contains(t)`. */
  function Contains(s: string, t: string): (b: bool)
    ensures b <==> exists j :: OccursAt(s, t, j)
  {
    ContainsFrom(s, t, 0)
  }

  function Pow10(n: nat): (p: nat)
    ensures p >= 1
  {
    if n == 0 then 1 else 10 * Pow10(n - 1)
  }

  /** The decimal value of a run of ASCII digits (leading zeros allowed). */
  function DigitsValue(d: string): (n: nat)
    requires AllDigits(d)
    ensures n < Pow10(|d|)
  {
    if d == [] then 0
    else 10 * DigitsValue(d[..|d| - 1]) + (d[|d| - 1] - '0') as int
  }

  /** `n` written in exactly `width` decimal digits, zero-padded on the left. */
  function ShowDigits(n: nat, width: nat): (d: string)
    ensures |d| == width && AllDigits(d)
  {
    if width == 0 then []
    else ShowDigits(n / 10, width - 1) + [('0' as int + n % 10) as char]
  }

  /** Reading back what ShowDigits wrote gives the number, when it fits the width. */
  lemma {:induction false} ShowDigitsValue(n: nat, width: nat)
    requires n < Pow10(width)
    ensures DigitsValue(ShowDigits(n, width)) == n
  {
    if width > 0 {
      var d := ShowDigits(n, width);
      var q, r := n / 10, n % 10;
      assert n == 10 * q + r;
      assert q < Pow10(width - 1);
      assert d[..width - 1] == ShowDigits(q, width - 1);
      assert (d[width - 1] - '0') as int == r;
      ShowDigitsValue(q, width - 1);
      assert DigitsValue(d) == 10 * DigitsValue(d[..width - 1]) + r;
    }
  }

  /** Writing back the value of a digit run gives the run itself, leading zeros included. */
  lemma {:induction false} DigitsValueShow(d: string)
    requires AllDigits(d)
    ensures ShowDigits(DigitsValue(d), |d|) == d
  {
    if d != [] {
      var init := d[..|d| - 1];
      var n := DigitsValue(d);
      assert n / 10 == DigitsValue(init);
      assert n % 10 == (d[|d| - 1] - '0') as int;
      DigitsValueShow(init);
      assert d == init + [d[|d| - 1]];
    }
  }

  /**
   * `Int32.TryParse(d, out n)` on a run of at most nine ASCII digits: the
   * empty run fails to parse and leaves 0, any other run parses to its value
   * (nine digits cannot exceed Int32.MaxValue).
   */
  function TryParseInt32(d: string): (n: int)
    requires AllDigits(d) && |d| <= 9
    ensures 0 <= n < Pow10(|d|)
    ensures d == [] ==> n == 0
    ensures d != [] ==> ShowDigits(n, |d|) == d
  {
    DigitsValueShow(d);
    if d == [] then 0 else DigitsValue(d)
  }
}
