/**
 * Concrete texts run through the column rules: fields of a sample phone row,
 * the "-" display type, and OS texts that show the order in which the OS
 * rule applies "quoted value" and "cut at the first comma".
 */
module Samples {
  import opened Options
  import opened Strings
  import opened Patterns
  import opened Schema
  import opened Ingest

  /** "2022" reads as the number 2022. */
  lemma SampleYearDigits()
    ensures TryParseInt32("2022") == 2022
  {
    assert "2022"[..3] == "202" && "202"[..2] == "20" && "20"[..1] == "2" && "2"[..0] == [];
    assert DigitsValue("2") == 2;
    assert DigitsValue("20") == 20;
    assert DigitsValue("202") == 202;
    assert DigitsValue("2022") == 2022;
  }

  /** "2022, February 09" is announced in 2022. */
  lemma SampleAnnounced()
    ensures CleanLaunchAnnounced("2022, February 09") == 2022
  {
    var raw := "2022, February 09";
    PreferredUnquoted(raw);
    assert LeftmostDigits(raw, 0);
    FirstFourDigitsAt(raw, 0);
    assert raw[0..4] == "2022";
    SampleYearDigits();
  }

  /** A status that is neither word keeps only its leftmost four digits. */
  lemma SampleStatus()
    ensures CleanLaunchStatus("Released 2022") == "2022"
  {
    var raw := "Released 2022";
    assert LeftmostDigits(raw, 9);
    FirstFourDigitsAt(raw, 9);
    assert raw[9..13] == "2022";
  }

  /** "167 g (5.89 oz)" is weighed by parsing "167". */
  lemma SampleWeight(parseFloat: FloatParser)
    ensures CleanBodyWeight(parseFloat, "167 g (5.89 oz)") == TryParseFloat(parseFloat, "167")
  {
    BeforeFirstUnique("167 g (5.89 oz)", ' ', "167");
  }

  /** An empty weight text is stored as 0, because the parse of "" fails. */
  lemma SampleEmptyWeight(parseFloat: FloatParser)
    ensures CleanBodyWeight(parseFloat, "") == 0.0
  {
  }

  /** "5.8 inches" is sized by parsing "5.8". */
  lemma SampleSize(parseFloat: FloatParser)
    ensures CleanDisplaySize(parseFloat, "5.8 inches") == Some(TryParseFloat(parseFloat, "5.8"))
  {
    BeforeFirstUnique("5.8 inches", ' ', "5.8");
  }

  /** A SIM description that mentions "SIM" is kept as it is. */
  lemma SampleSim()
    ensures CleanBodySim("Nano-SIM") == Some("Nano-SIM")
  {
    var raw := "Nano-SIM";
    PreferredUnquoted(raw);
    assert raw[5] == 'S' && raw[6] == 'I' && raw[7] == 'M';
    assert raw[5..8] == SimMarker;
    assert OccursAt(raw, SimMarker, 5);
  }

  /** A DisplayType of exactly "-" is absent, not the text "-". */
  lemma SampleDashDisplayType()
    ensures CleanDisplayType("-") == None
  {
    NoQuoteNoRun("-");
  }

  /** An OS without a comma is kept whole. */
  lemma SampleOS()
    ensures CleanOS("Android 14") == Some("Android 14")
  {
    BeforeFirstWholeIf("Android 14", ',');
  }

  /**
   * The comma cut is applied to the raw text, not to the quoted value: a
   * quoted OS holding a comma keeps its opening quote and loses its tail.
   */
  lemma SampleQuotedOSWithComma()
    ensures CleanOS("\"A, B\"") == Some("\"A")
  {
    BeforeFirstUnique("\"A, B\"", ',', "\"A");
  }

  /**
   * An empty prefix leaves the quote-stripped run in place, even when that
   * is empty: the OS is then present and empty, not absent.
   */
  lemma SampleEmptyQuotedOS()
    ensures CleanOS(",\"\"") == Some("")
  {
    var raw := ",\"\"";
    assert ScanBody(raw, 2) == Some(2);
    assert FindRunFrom(raw, 1) == Some(Span(1, 2));
    assert FindRunFrom(raw, 0) == Some(Span(1, 2));
    assert FirstQuotedRun(raw) == Some(raw[1..3]);
    assert raw[1..3] == "\"\"";
    assert RemoveAll("\"\"", '"') == [];
  }
}
