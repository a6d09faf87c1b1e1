/**
 * The per-attribute rules of `Cell.CleanAndIngest`, as pure functions, and
 * `Normalize`, which applies them to one row of twelve raw strings.
 *
 * `float.TryParse` is not modelled: it is the parameter `parseFloat`, which
 * returns None where the .NET parse fails; the source then stores 0.
 */
module Ingest {
  import opened Options
  import opened Strings
  import opened Patterns
  import opened Schema

  /** A float parser; like `float.TryParse`, it fails on the empty text. */
  type FloatParser = f: string -> Option<real> | f([]) == None witness (s: string) => None

  /** `float.TryParse(t, out x)`: the parsed value, or 0 when the parse fails. */
  function TryParseFloat(parseFloat: FloatParser, t: string): (x: real)
    ensures parseFloat(t).None? ==> x == 0.0
    ensures parseFloat(t).Some? ==> x == parseFloat(t).value
  {
    parseFloat(t).GetOr(0.0)
  }

  /** The quote-stripped leftmost quoted run when there is one, else the raw text. */
  function Preferred(raw: string): (v: string)
    ensures StrippedRun(raw).Some? ==> v == StrippedRun(raw).value && '"' !in v
    ensures StrippedRun(raw).None? ==> v == raw
  {
    match StrippedRun(raw)
    case Some(t) => t
    case None => raw
  }

  /** Text without a double quote is kept as it is. */
  lemma PreferredUnquoted(raw: string)
    requires '"' !in raw
    ensures Preferred(raw) == raw
  {
    NoQuoteNoRun(raw);
  }

  /** Oem and Model: verbatim, or absent when empty. */
  function CleanText(raw: string): (r: Option<string>)
    ensures r.None? <==> raw == []
    ensures r.Some? ==> r.value == raw
  {
    if raw != [] then Some(raw) else None
  }

  /**
   * LaunchAnnounced: the leftmost four-digit run of the preferred text, read
   * as a number, or 0 when there is none.
   */
  function CleanLaunchAnnounced(raw: string): (year: int)
    ensures 0 <= year <= 9999
    ensures (forall j :: !DigitsAt(Preferred(raw), j)) ==> year == 0
    ensures FirstFourDigits(Preferred(raw)) != [] ==> ShowDigits(year, 4) == FirstFourDigits(Preferred(raw))
  {
    TryParseInt32(FirstFourDigits(Preferred(raw)))
  }

  const Discontinued := "Discontinued"
  const Cancelled := "Cancelled"

  /**
   * LaunchStatus: "Discontinued" and "Cancelled" are kept; any other text is
   * replaced by its leftmost four-digit run, or by "" when it has none.
   */
  function CleanLaunchStatus(raw: string): (status: string)
    ensures raw == Discontinued || raw == Cancelled ==> status == raw
    ensures raw != Discontinued && raw != Cancelled ==> status == FirstFourDigits(raw)
    ensures status == [] || status == Discontinued || status == Cancelled || (|status| == 4 && AllDigits(status))
    ensures exists j :: OccursAt(raw, status, j)
  {
    if raw == Discontinued || raw == Cancelled then
      assert OccursAt(raw, raw, 0);
      raw
    else
      FirstFourDigitsOccurs(raw);
      assert OccursAt(raw, [], 0);
      FirstFourDigits(raw)
  }

  const Sentinel := "-"

  /** BodyDimensions: verbatim, or absent when it is the sentinel "-". */
  function CleanBodyDimensions(raw: string): (r: Option<string>)
    ensures r.None? <==> raw == Sentinel
    ensures r.Some? ==> r.value == raw
  {
    if raw != Sentinel then Some(raw) else None
  }

  /** BodyWeight: the parse of the text before the first space; always written. */
  function CleanBodyWeight(parseFloat: FloatParser, raw: string): (w: real)
    ensures w == TryParseFloat(parseFloat, BeforeFirst(raw, ' '))
    ensures ' ' !in raw ==> w == TryParseFloat(parseFloat, raw)
    ensures raw == [] || raw[0] == ' ' ==> w == 0.0
  {
    BeforeFirstWholeIf(raw, ' ');
    BeforeFirstEmpty(raw, ' ');
    TryParseFloat(parseFloat, BeforeFirst(raw, ' '))
  }

  const SimMarker := "SIM"

  /** BodySim: the preferred text, kept only when it contains "SIM". */
  function CleanBodySim(raw: string): (r: Option<string>)
    ensures r.Some? <==> exists j :: OccursAt(Preferred(raw), SimMarker, j)
    ensures r.Some? ==> r.value == Preferred(raw)
  {
    var v := Preferred(raw);
    if Contains(v, SimMarker) then Some(v) else None
  }

  /** DisplayType: the preferred text, but absent when the raw text is "-" and holds no quoted run. */
  function CleanDisplayType(raw: string): (r: Option<string>)
    ensures r.None? <==> FirstQuotedRun(raw).None? && raw == Sentinel
    ensures r.Some? ==> r.value == Preferred(raw)
  {
    match StrippedRun(raw)
    case Some(t) => Some(t)
    case None => if raw == Sentinel then None else Some(raw)
  }

  /**
   * DisplaySize: absent when the text before the first space is empty, that
   * is when the raw text is empty or begins with a space; otherwise the parse
   * of that text.
   */
  function CleanDisplaySize(parseFloat: FloatParser, raw: string): (r: Option<real>)
    ensures r.None? <==> raw == [] || raw[0] == ' '
    ensures r.Some? ==> r.value == TryParseFloat(parseFloat, BeforeFirst(raw, ' '))
  {
    var prefix := BeforeFirst(raw, ' ');
    BeforeFirstEmpty(raw, ' ');
    if prefix != [] then Some(TryParseFloat(parseFloat, prefix)) else None
  }

  /**
   * OS: the raw text before its first comma when that is not empty (even when
   * a quoted run was found); otherwise the quote-stripped quoted run, or
   * absent when there is none.
   */
  function CleanOS(raw: string): (r: Option<string>)
    ensures r.None? <==> (raw == [] || raw[0] == ',') && FirstQuotedRun(raw).None?
    ensures raw != [] && raw[0] != ',' ==> r == Some(BeforeFirst(raw, ','))
    ensures raw == [] || raw[0] == ',' ==> r == StrippedRun(raw)
    ensures r.Some? ==> ',' !in r.value || '"' !in r.value
  {
    var prefix := BeforeFirst(raw, ',');
    BeforeFirstEmpty(raw, ',');
    if prefix != [] then Some(prefix) else StrippedRun(raw)
  }

  /** `CleanAndIngest` on a whole row, as the record it leaves behind. */
  function Normalize(parseFloat: FloatParser, row: seq<string>): (r: Record)
    requires |row| >= AttributeCount
    ensures WellFormed(r)
  {
    var oem := CleanText(row[0]);
    var model := CleanText(row[1]);
    var announced := CleanLaunchAnnounced(row[2]);
    var status := CleanLaunchStatus(row[3]);
    var dimensions := CleanBodyDimensions(row[4]);
    var weight := CleanBodyWeight(parseFloat, row[5]);
    var sim := CleanBodySim(row[6]);
    var displayType := CleanDisplayType(row[7]);
    var size := CleanDisplaySize(parseFloat, row[8]);
    var resolution := Preferred(row[9]);
    var sensors := Preferred(row[10]);
    var os := CleanOS(row[11]);
    Record(oem, model, announced, status, dimensions, weight, sim, displayType, size, resolution, sensors, os)
  }

  /** What every normalised record satisfies, whatever the row. */
  ghost predicate WellFormed(r: Record) {
    && (r.oem.Some? ==> r.oem.value != [])
    && (r.model.Some? ==> r.model.value != [])
    && 0 <= r.launchAnnounced <= 9999
    && (r.launchStatus == [] || r.launchStatus == Discontinued || r.launchStatus == Cancelled ||
        (|r.launchStatus| == 4 && AllDigits(r.launchStatus)))
    && (r.bodyDimensions.Some? ==> r.bodyDimensions.value != Sentinel)
    && (r.bodySim.Some? ==> exists j :: OccursAt(r.bodySim.value, SimMarker, j))
  }

  /**
   * Each attribute depends on its own column only: two rows that agree on a
   * column give the same value for that attribute.
   */
  lemma ColumnsIndependent(parseFloat: FloatParser, row1: seq<string>, row2: seq<string>, a: Attribute)
    requires |row1| >= AttributeCount && |row2| >= AttributeCount
    requires row1[a.Index()] == row2[a.Index()]
    ensures Normalize(parseFloat, row1).Get(a) == Normalize(parseFloat, row2).Get(a)
  {
  }

  /**
   * Oem, Model and BodyDimensions lose nothing: their raw text can be read
   * back from the record.
   */
  lemma VerbatimColumnsRecoverable(parseFloat: FloatParser, row: seq<string>)
    requires |row| >= AttributeCount
    ensures Normalize(parseFloat, row).oem.GetOr([]) == row[0]
    ensures Normalize(parseFloat, row).model.GetOr([]) == row[1]
    ensures Normalize(parseFloat, row).bodyDimensions.GetOr(Sentinel) == row[4]
  {
    var r := Normalize(parseFloat, row);
    assert r.oem == CleanText(row[0]);
    assert r.model == CleanText(row[1]);
    assert r.bodyDimensions == CleanBodyDimensions(row[4]);
  }

  lemma NormalizeByColumn(parseFloat: FloatParser, row: seq<string>)
    requires |row| >= AttributeCount
    ensures Normalize(parseFloat, row).Get(Oem) == OptionalText(CleanText(row[0]))
    ensures Normalize(parseFloat, row).Get(Model) == OptionalText(CleanText(row[1]))
    ensures Normalize(parseFloat, row).Get(LaunchAnnounced) == Int(CleanLaunchAnnounced(row[2]))
    ensures Normalize(parseFloat, row).Get(LaunchStatus) == Str(CleanLaunchStatus(row[3]))
    ensures Normalize(parseFloat, row).Get(BodyDimensions) == OptionalText(CleanBodyDimensions(row[4]))
    ensures Normalize(parseFloat, row).Get(BodyWeight) == Float(CleanBodyWeight(parseFloat, row[5]))
    ensures Normalize(parseFloat, row).Get(BodySim) == OptionalText(CleanBodySim(row[6]))
    ensures Normalize(parseFloat, row).Get(DisplayType) == OptionalText(CleanDisplayType(row[7]))
    ensures Normalize(parseFloat, row).Get(DisplaySize) == OptionalFloat(CleanDisplaySize(parseFloat, row[8]))
    ensures Normalize(parseFloat, row).Get(DisplayResolution) == Str(Preferred(row[9]))
    ensures Normalize(parseFloat, row).Get(FeatureSensors) == Str(Preferred(row[10]))
    ensures Normalize(parseFloat, row).Get(OS) == OptionalText(CleanOS(row[11]))
  {
    var r := Normalize(parseFloat, row);
    assert r.oem == CleanText(row[0]);
    assert r.model == CleanText(row[1]);
    assert r.launchAnnounced == CleanLaunchAnnounced(row[2]);
    assert r.launchStatus == CleanLaunchStatus(row[3]);
    assert r.bodyDimensions == CleanBodyDimensions(row[4]);
    assert r.bodyWeight == CleanBodyWeight(parseFloat, row[5]);
    assert r.bodySim == CleanBodySim(row[6]);
    assert r.displayType == CleanDisplayType(row[7]);
    assert r.displaySize == CleanDisplaySize(parseFloat, row[8]);
    assert r.displayResolution == Preferred(row[9]);
    assert r.featureSensors == Preferred(row[10]);
    assert r.os == CleanOS(row[11]);
    GetFields(r);
  }
}
