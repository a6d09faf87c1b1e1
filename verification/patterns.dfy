/**
 * The two regular expressions of the cell normalisation, written as
 * deterministic scanners and proved against a declarative description of
 * what the pattern matches.
 *
 * Quoted run, pattern  "(?:[^\\"]|\\\\|\\")*"  : a double quote, then any
 * number of tokens, each either one character that is neither a backslash
 * nor a double quote, or the escape \\ , or the escape \" , then a closing
 * double quote. Year, pattern  \d{4}  : four consecutive digits. Both are
 * used through `Regex.Match`, which reports the match with the leftmost start.
 */
module Patterns {
  import opened Options
  import opened Strings

  // ---------------------------------------------------------------------------
  // \d{4}

  /** Four ASCII digits start at position `i` of `s`. */
  predicate DigitsAt(s: string, i: int) {
    0 <= i && i + 4 <= |s| &&
    IsDigit(s[i]) && IsDigit(s[i + 1]) && IsDigit(s[i + 2]) && IsDigit(s[i + 3])
  }

  /** `i` is where the leftmost four-digit run of `s` starts. */
  ghost predicate LeftmostDigits(s: string, i: int) {
    DigitsAt(s, i) && forall j :: 0 <= j < i ==> !DigitsAt(s, j)
  }

  /** The first position at or after `i` where four digits start. */
  function FindDigitsFrom(s: string, i: nat): (r: Option<nat>)
    decreases |s| - i
    ensures r.Some? ==> i <= r.value && DigitsAt(s, r.value)
    ensures r.Some? ==> forall j :: i <= j < r.value ==> !DigitsAt(s, j)
    ensures r.None? ==> forall j :: i <= j ==> !DigitsAt(s, j)
  {
    if i + 4 > |s| then None
    else if DigitsAt(s, i) then Some(i)
    else FindDigitsFrom(s, i + 1)
  }

  /**
   * `Regex("\\d{4}").Match(s).Value`: the leftmost four-digit run of `s`, or
   * the empty string when there is none.
   */
  function FirstFourDigits(s: string): (r: string)
    ensures r == [] <==> forall j :: !DigitsAt(s, j)
    ensures r != [] ==> |r| == 4 && AllDigits(r)
    ensures r != [] ==> exists i :: LeftmostDigits(s, i) && r == s[i..i + 4]
  {
    match FindDigitsFrom(s, 0)
    case None => []
    case Some(i) => assert LeftmostDigits(s, i); s[i..i + 4]
  }

  /** The leftmost four-digit run is the one FirstFourDigits returns. */
  lemma FirstFourDigitsAt(s: string, i: int)
    requires LeftmostDigits(s, i)
    ensures FirstFourDigits(s) == s[i..i + 4]
  {
    assert FirstFourDigits(s) != [];
    var k :| LeftmostDigits(s, k) && FirstFourDigits(s) == s[k..k + 4];
    assert DigitsAt(s, k);
  }

  /** The run found is a piece of the text it was found in. */
  lemma FirstFourDigitsOccurs(s: string)
    ensures FirstFourDigits(s) != [] ==> exists i :: OccursAt(s, FirstFourDigits(s), i)
  {
    var r := FirstFourDigits(s);
    if r != [] {
      var i :| LeftmostDigits(s, i) && r == s[i..i + 4];
      assert OccursAt(s, r, i);
    }
  }

  // ---------------------------------------------------------------------------
  // "(?:[^\\"]|\\\\|\\")*"

  /** `t` is a sequence of tokens of the quoted-run body. */
  predicate IsBody(t: string)
    decreases |t|
  {
    if t == [] then true
    else if t[0] != '\\' && t[0] != '"' then IsBody(t[1..])
    else |t| >= 2 && t[0] == '\\' && (t[1] == '\\' || t[1] == '"') && IsBody(t[2..])
  }

  /** `s[i..k + 1]` is a match of the quoted-run pattern. */
  ghost predicate QuotedRunAt(s: string, i: int, k: int) {
    0 <= i < k < |s| && s[i] == '"' && s[k] == '"' && IsBody(s[i + 1..k])
  }

  /**
   * Scanning a body from position `j`: the index of the closing quote, or
   * None when the text ends or a backslash is followed by anything but a
   * backslash or a quote.
   */
  function ScanBody(s: string, j: nat): (r: Option<nat>)
    requires j <= |s|
    decreases |s| - j
    ensures r.Some? ==> j <= r.value < |s| && s[r.value] == '"'
  {
    if j == |s| then None
    else if s[j] == '"' then Some(j)
    else if s[j] != '\\' then ScanBody(s, j + 1)
    else if j + 1 < |s| && (s[j + 1] == '\\' || s[j + 1] == '"') then ScanBody(s, j + 2)
    else None
  }

  /** What the scanner stops at closes a body. */
  lemma {:induction false} ScanBodySound(s: string, j: nat)
    requires j <= |s|
    ensures ScanBody(s, j).Some? ==> IsBody(s[j..ScanBody(s, j).value])
    decreases |s| - j
  {
    if j < |s| && s[j] != '"' {
      if s[j] != '\\' {
        ScanBodySound(s, j + 1);
        if ScanBody(s, j).Some? {
          var k := ScanBody(s, j).value;
          assert s[j..k][1..] == s[j + 1..k];
        }
      } else if j + 1 < |s| && (s[j + 1] == '\\' || s[j + 1] == '"') {
        ScanBodySound(s, j + 2);
        if ScanBody(s, j).Some? {
          var k := ScanBody(s, j).value;
          assert s[j..k][2..] == s[j + 2..k];
        }
      }
    }
  }

  /**
   * Every way of closing a body from `j` is the one the scanner finds: a
   * body followed by a quote can end at one place only, so the regex engine's
   * backtracking never produces a different match from a given start.
   */
  lemma {:induction false} ScanBodyComplete(s: string, j: nat, k: nat)
    requires j <= k < |s| && s[k] == '"' && IsBody(s[j..k])
    ensures ScanBody(s, j) == Some(k)
    decreases k - j
  {
    if j < k {
      var t := s[j..k];
      assert t[0] == s[j];
      if s[j] != '\\' {
        assert t[1..] == s[j + 1..k];
        ScanBodyComplete(s, j + 1, k);
      } else {
        assert t[1] == s[j + 1];
        assert t[2..] == s[j + 2..k];
        ScanBodyComplete(s, j + 2, k);
      }
    }
  }

  /** A match of the quoted-run pattern: `s[start..end + 1]`. */
  datatype Span = Span(start: nat, end: nat)

  /** The match whose start is leftmost among the starts at or after `i`. */
  function FindRunFrom(s: string, i: nat): (r: Option<Span>)
    requires i <= |s|
    decreases |s| - i
    ensures r.Some? ==> i <= r.value.start < r.value.end < |s|
    ensures r.Some? ==> s[r.value.start] == '"' && ScanBody(s, r.value.start + 1) == Some(r.value.end)
  {
    if i == |s| then None
    else if s[i] == '"' && ScanBody(s, i + 1).Some? then Some(Span(i, ScanBody(s, i + 1).value))
    else FindRunFrom(s, i + 1)
  }

  /** No match starts at `i` when `i` is not a quote or the scanner finds no closing quote after it. */
  lemma NoRunWhereScanFails(s: string, i: nat)
    requires i < |s| && !(s[i] == '"' && ScanBody(s, i + 1).Some?)
    ensures forall k :: !QuotedRunAt(s, i, k)
  {
    forall k | QuotedRunAt(s, i, k)
      ensures ScanBody(s, i + 1) == Some(k)
    {
      ScanBodyComplete(s, i + 1, k);
    }
  }

  /** What FindRunFrom reports is a match of the pattern. */
  lemma FindRunFromSound(s: string, i: nat)
    requires i <= |s|
    ensures FindRunFrom(s, i).Some? ==> QuotedRunAt(s, FindRunFrom(s, i).value.start, FindRunFrom(s, i).value.end)
  {
    if FindRunFrom(s, i).Some? {
      ScanBodySound(s, FindRunFrom(s, i).value.start + 1);
    }
  }

  /** No match starts before the one FindRunFrom reports, and None means no match at all. */
  lemma {:induction false} FindRunFromLeftmost(s: string, i: nat)
    requires i <= |s|
    ensures FindRunFrom(s, i).Some? ==>
      forall i', k :: i <= i' < FindRunFrom(s, i).value.start ==> !QuotedRunAt(s, i', k)
    ensures FindRunFrom(s, i).None? ==> forall i', k :: i <= i' ==> !QuotedRunAt(s, i', k)
    decreases |s| - i
  {
    if i < |s| && !(s[i] == '"' && ScanBody(s, i + 1).Some?) {
      NoRunWhereScanFails(s, i);
      FindRunFromLeftmost(s, i + 1);
    }
  }

  /** `Regex(...).Match(s)`: the leftmost match of the quoted-run pattern, if any. */
  function FirstQuotedRun(s: string): (r: Option<string>)
    ensures r.Some? ==> |r.value| >= 2 && r.value[0] == '"' && r.value[|r.value| - 1] == '"'
  {
    match FindRunFrom(s, 0)
    case None => None
    case Some(sp) => Some(s[sp.start..sp.end + 1])
  }

  /**
   * FirstQuotedRun against the pattern: it is None exactly when nothing in `s`
   * matches; otherwise it is the match that starts leftmost, and from that
   * start the match can end in one place only.
   */
  lemma FirstQuotedRunSpec(s: string)
    ensures FirstQuotedRun(s).None? <==> forall i, k :: !QuotedRunAt(s, i, k)
    ensures FirstQuotedRun(s).Some? ==> exists i, k ::
      QuotedRunAt(s, i, k) && FirstQuotedRun(s).value == s[i..k + 1] &&
      (forall i', k' :: i' < i ==> !QuotedRunAt(s, i', k')) &&
      (forall k' :: QuotedRunAt(s, i, k') ==> k' == k)
  {
    FindRunFromSound(s, 0);
    FindRunFromLeftmost(s, 0);
    match FindRunFrom(s, 0)
    case None =>
    case Some(sp) =>
      forall k' | QuotedRunAt(s, sp.start, k')
        ensures k' == sp.end
      {
        ScanBodyComplete(s, sp.start + 1, k');
      }
      assert QuotedRunAt(s, sp.start, sp.end);
  }

  /** Text without a double quote holds no quoted run. */
  lemma NoQuoteNoRun(s: string)
    requires '"' !in s
    ensures FirstQuotedRun(s) == None
  {
    FindRunFromLeftmost(s, 0);
  }

  /** `match.Groups[0].Value.Replace("\"", "")`: the leftmost quoted run with every quote removed. */
  function StrippedRun(s: string): (r: Option<string>)
    ensures r.Some? <==> FirstQuotedRun(s).Some?
    ensures r.Some? ==> '"' !in r.value && |r.value| <= |FirstQuotedRun(s).value| - 2
    ensures r.Some? ==> r.value == RemoveAll(FirstQuotedRun(s).value, '"')
  {
    match FirstQuotedRun(s)
    case None => None
    case Some(m) =>
      RemoveAllDelimited(m, '"');
      Some(RemoveAll(m, '"'))
  }

  /**
   * The stripped run is the body between the run's delimiting quotes with its
   * escaped quotes removed, every other character kept in order.
   */
  lemma StrippedRunIsBody(s: string)
    requires FirstQuotedRun(s).Some?
    ensures var m := FirstQuotedRun(s).value;
      |m| >= 2 && StrippedRun(s).value == RemoveAll(m[1..|m| - 1], '"')
  {
    var m := FirstQuotedRun(s).value;
    var body := m[1..|m| - 1];
    assert m == [m[0]] + body + [m[|m| - 1]];
    RemoveAllAppend([m[0]] + body, [m[|m| - 1]], '"');
    RemoveAllAppend([m[0]], body, '"');
  }
}
