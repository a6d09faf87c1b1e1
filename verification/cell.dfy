/**
 * `Program.Cell`: one entry of the cell database, holding its database index
 * and the column array that `CleanAndIngest` fills from one CSV row.
 */
module Cells {
  import opened Options
  import opened Strings
  import opened Patterns
  import opened Schema
  import opened Ingest

  /** The three-way comparison on body weights that `CompareTo` performs. */
  function CompareWeights(x: real, y: real): (r: int)
    ensures r == 1 <==> x > y
    ensures r == -1 <==> x < y
    ensures r == 0 <==> x == y
  {
    if x > y then 1
    else if x < y then -1
    else 0
  }

  /** Swapping the operands negates the comparison. */
  lemma CompareWeightsAntisymmetric(x: real, y: real)
    ensures CompareWeights(x, y) == -CompareWeights(y, x)
  {
  }

  /** The comparison is a total preorder: "not greater" is transitive. */
  lemma CompareWeightsTransitive(x: real, y: real, z: real)
    requires CompareWeights(x, y) <= 0 && CompareWeights(y, z) <= 0
    ensures CompareWeights(x, z) <= 0
  {
  }

  class Cell {
    /** `db_ind`: the index of the cell in the database. */
    const dbInd: int
    /** `columnsArr`: one slot per attribute, in column order. */
    const columnsArr: array<Value>

    /** The row the cell was built from, the float parser in use, and the record they give. */
    ghost const source: seq<string>
    ghost const parseFloat: FloatParser
    ghost const record: Record

    /** `record` is the normalisation of the source row. */
    ghost predicate Normalized() {
      |source| >= AttributeCount && record == Normalize(parseFloat, source)
    }

    /** The column array holds `record`, slot by slot. */
    ghost predicate Valid()
      reads columnsArr
    {
      && columnsArr.Length >= AttributeCount
      && (forall a: Attribute :: columnsArr[a.Index()] == record.Get(a))
      && forall i | AttributeCount <= i < columnsArr.Length :: columnsArr[i] == Null
    }

    /** `Cell(db_ind, csvSource)`: allocate a null slot per raw field, then ingest the row. */
    constructor (dbInd: int, csvSource: seq<string>, parseFloat: FloatParser)
      requires |csvSource| >= AttributeCount
      ensures Normalized() && Valid() && fresh(columnsArr) && columnsArr.Length == |csvSource|
      ensures this.dbInd == dbInd && source == csvSource && this.parseFloat == parseFloat
    {
      this.dbInd := dbInd;
      columnsArr := new Value[|csvSource|](_ => Null);
      source := csvSource;
      this.parseFloat := parseFloat;
      record := Normalize(parseFloat, csvSource);
      new;
      CleanAndIngest(csvSource, parseFloat);
    }

    /**
     * Fill the slots of the freshly allocated column array, one rule per
     * attribute, in the order of the source; a slot that no rule writes
     * stays null.
     */
    method CleanAndIngest(src: seq<string>, parseFloat: FloatParser)
      requires |src| >= AttributeCount && columnsArr.Length >= AttributeCount
      requires forall i | 0 <= i < columnsArr.Length :: columnsArr[i] == Null
      modifies columnsArr
      ensures forall a: Attribute :: columnsArr[a.Index()] == Normalize(parseFloat, src).Get(a)
      ensures forall i | AttributeCount <= i < columnsArr.Length :: columnsArr[i] == Null
    {
      IngestOem(src[0]);
      IngestModel(src[1]);
      IngestLaunchAnnounced(src[2]);
      IngestLaunchStatus(src[3]);
      IngestBodyDimensions(src[4]);
      IngestBodyWeight(src[5], parseFloat);
      IngestBodySim(src[6]);
      IngestDisplayType(src[7]);
      IngestDisplaySize(src[8], parseFloat);
      IngestDisplayResolution(src[9]);
      IngestFeatureSensors(src[10]);
      IngestOS(src[11]);
      NormalizeByColumn(parseFloat, src);
      forall a: Attribute
        ensures columnsArr[a.Index()] == Normalize(parseFloat, src).Get(a)
      {
        match a
        case Oem =>
        case Model =>
        case LaunchAnnounced =>
        case LaunchStatus =>
        case BodyDimensions =>
        case BodyWeight =>
        case BodySim =>
        case DisplayType =>
        case DisplaySize =>
        case DisplayResolution =>
        case FeatureSensors =>
        case OS =>
      }
    }

    /** Oem: written only when the raw text is not empty. */
    method IngestOem(raw: string)
      requires columnsArr.Length >= AttributeCount && columnsArr[0] == Null
      modifies columnsArr
      ensures columnsArr[0] == OptionalText(CleanText(raw))
      ensures forall i | 0 <= i < AttributeCount && i != 0 :: columnsArr[i] == old(columnsArr[i])
      ensures forall i | AttributeCount <= i < columnsArr.Length :: columnsArr[i] == old(columnsArr[i])
    {
      if raw != [] {
        columnsArr[0] := Str(raw);
      }
    }

    /** Model: written only when the raw text is not empty. */
    method IngestModel(raw: string)
      requires columnsArr.Length >= AttributeCount && columnsArr[1] == Null
      modifies columnsArr
      ensures columnsArr[1] == OptionalText(CleanText(raw))
      ensures forall i | 0 <= i < AttributeCount && i != 1 :: columnsArr[i] == old(columnsArr[i])
      ensures forall i | AttributeCount <= i < columnsArr.Length :: columnsArr[i] == old(columnsArr[i])
    {
      if raw != [] {
        columnsArr[1] := Str(raw);
      }
    }

    /** LaunchAnnounced: the first four digits of the stripped quoted run, or of the raw text. */
    method IngestLaunchAnnounced(raw: string)
      requires columnsArr.Length >= AttributeCount
      modifies columnsArr
      ensures columnsArr[2] == Int(CleanLaunchAnnounced(raw))
      ensures forall i | 0 <= i < AttributeCount && i != 2 :: columnsArr[i] == old(columnsArr[i])
      ensures forall i | AttributeCount <= i < columnsArr.Length :: columnsArr[i] == old(columnsArr[i])
    {
      var launchAnnouncedSource := raw;
      var run := FirstQuotedRun(launchAnnouncedSource);
      if run.Some? {
        launchAnnouncedSource := RemoveAll(run.value, '"');
      }
      var digits := FirstFourDigits(launchAnnouncedSource);
      columnsArr[2] := Int(TryParseInt32(digits));
    }

    /** LaunchStatus: the two status words, else the first four digits. */
    method IngestLaunchStatus(raw: string)
      requires columnsArr.Length >= AttributeCount
      modifies columnsArr
      ensures columnsArr[3] == Str(CleanLaunchStatus(raw))
      ensures forall i | 0 <= i < AttributeCount && i != 3 :: columnsArr[i] == old(columnsArr[i])
      ensures forall i | AttributeCount <= i < columnsArr.Length :: columnsArr[i] == old(columnsArr[i])
    {
      if raw == Discontinued || raw == Cancelled {
        columnsArr[3] := Str(raw);
      } else {
        columnsArr[3] := Str(FirstFourDigits(raw));
      }
    }

    /** BodyDimensions: written unless the raw text is the sentinel. */
    method IngestBodyDimensions(raw: string)
      requires columnsArr.Length >= AttributeCount && columnsArr[4] == Null
      modifies columnsArr
      ensures columnsArr[4] == OptionalText(CleanBodyDimensions(raw))
      ensures forall i | 0 <= i < AttributeCount && i != 4 :: columnsArr[i] == old(columnsArr[i])
      ensures forall i | AttributeCount <= i < columnsArr.Length :: columnsArr[i] == old(columnsArr[i])
    {
      if raw != Sentinel {
        columnsArr[4] := Str(raw);
      }
    }

    /** BodyWeight: the parse of the text before the first space. */
    method IngestBodyWeight(raw: string, parseFloat: FloatParser)
      requires columnsArr.Length >= AttributeCount
      modifies columnsArr
      ensures columnsArr[5] == Float(CleanBodyWeight(parseFloat, raw))
      ensures forall i | 0 <= i < AttributeCount && i != 5 :: columnsArr[i] == old(columnsArr[i])
      ensures forall i | AttributeCount <= i < columnsArr.Length :: columnsArr[i] == old(columnsArr[i])
    {
      var bodyWeightSource := BeforeFirst(raw, ' ');
      columnsArr[5] := Float(TryParseFloat(parseFloat, bodyWeightSource));
    }

    /** BodySim: the stripped quoted run or the raw text, written only when it contains "SIM". */
    method IngestBodySim(raw: string)
      requires columnsArr.Length >= AttributeCount && columnsArr[6] == Null
      modifies columnsArr
      ensures columnsArr[6] == OptionalText(CleanBodySim(raw))
      ensures forall i | 0 <= i < AttributeCount && i != 6 :: columnsArr[i] == old(columnsArr[i])
      ensures forall i | AttributeCount <= i < columnsArr.Length :: columnsArr[i] == old(columnsArr[i])
    {
      var bodySimSource := raw;
      var run := FirstQuotedRun(bodySimSource);
      if run.Some? {
        bodySimSource := RemoveAll(run.value, '"');
      }
      if Contains(bodySimSource, SimMarker) {
        columnsArr[6] := Str(bodySimSource);
      }
    }

    /** DisplayType: the stripped quoted run, else null for the sentinel, else the raw text. */
    method IngestDisplayType(raw: string)
      requires columnsArr.Length >= AttributeCount
      modifies columnsArr
      ensures columnsArr[7] == OptionalText(CleanDisplayType(raw))
      ensures forall i | 0 <= i < AttributeCount && i != 7 :: columnsArr[i] == old(columnsArr[i])
      ensures forall i | AttributeCount <= i < columnsArr.Length :: columnsArr[i] == old(columnsArr[i])
    {
      var run := FirstQuotedRun(raw);
      if run.Some? {
        columnsArr[7] := Str(RemoveAll(run.value, '"'));
      } else if raw == Sentinel {
        columnsArr[7] := Null;
      } else {
        columnsArr[7] := Str(raw);
      }
    }

    /** DisplaySize: the parse of the text before the first space, written only when that is not empty. */
    method IngestDisplaySize(raw: string, parseFloat: FloatParser)
      requires columnsArr.Length >= AttributeCount && columnsArr[8] == Null
      modifies columnsArr
      ensures columnsArr[8] == OptionalFloat(CleanDisplaySize(parseFloat, raw))
      ensures forall i | 0 <= i < AttributeCount && i != 8 :: columnsArr[i] == old(columnsArr[i])
      ensures forall i | AttributeCount <= i < columnsArr.Length :: columnsArr[i] == old(columnsArr[i])
    {
      var displaySizeSource := BeforeFirst(raw, ' ');
      if displaySizeSource != [] {
        columnsArr[8] := Float(TryParseFloat(parseFloat, displaySizeSource));
      }
    }

    /**
     * DisplayResolution: the raw text behind a guard that every text passes,
     * then replaced by the stripped quoted run or the raw text again.
     */
    method IngestDisplayResolution(raw: string)
      requires columnsArr.Length >= AttributeCount
      modifies columnsArr
      ensures columnsArr[9] == Str(Preferred(raw))
      ensures forall i | 0 <= i < AttributeCount && i != 9 :: columnsArr[i] == old(columnsArr[i])
      ensures forall i | AttributeCount <= i < columnsArr.Length :: columnsArr[i] == old(columnsArr[i])
    {
      var run := FirstQuotedRun(raw);
      if raw != [] || raw != Sentinel {
        columnsArr[9] := Str(raw);
      }
      if run.Some? {
        columnsArr[9] := Str(RemoveAll(run.value, '"'));
      } else {
        columnsArr[9] := Str(raw);
      }
    }

    /** FeatureSensors: the stripped quoted run, or the raw text. */
    method IngestFeatureSensors(raw: string)
      requires columnsArr.Length >= AttributeCount
      modifies columnsArr
      ensures columnsArr[10] == Str(Preferred(raw))
      ensures forall i | 0 <= i < AttributeCount && i != 10 :: columnsArr[i] == old(columnsArr[i])
      ensures forall i | AttributeCount <= i < columnsArr.Length :: columnsArr[i] == old(columnsArr[i])
    {
      var run := FirstQuotedRun(raw);
      if run.Some? {
        columnsArr[10] := Str(RemoveAll(run.value, '"'));
      } else {
        columnsArr[10] := Str(raw);
      }
    }

    /** OS: the stripped quoted run, then overwritten by the raw text before the first comma when that is not empty. */
    method IngestOS(raw: string)
      requires columnsArr.Length >= AttributeCount && columnsArr[11] == Null
      modifies columnsArr
      ensures columnsArr[11] == OptionalText(CleanOS(raw))
      ensures forall i | 0 <= i < AttributeCount && i != 11 :: columnsArr[i] == old(columnsArr[i])
      ensures forall i | AttributeCount <= i < columnsArr.Length :: columnsArr[i] == old(columnsArr[i])
    {
      var run := FirstQuotedRun(raw);
      if run.Some? {
        columnsArr[11] := Str(RemoveAll(run.value, '"'));
      }
      var osSource := BeforeFirst(raw, ',');
      if osSource != [] {
        columnsArr[11] := Str(osSource);
      }
    }

    /** `GetColumn(attribute)`: the slot of one attribute. */
    function GetColumn(attribute: Attribute): (v: Value)
      reads columnsArr
      requires columnsArr.Length >= AttributeCount
      ensures v == columnsArr[attribute.Index()]
      ensures Valid() ==> v == record.Get(attribute)
    {
      columnsArr[attribute.Index()]
    }

    /** `GetColumns()`: the column array itself, shared with the caller. */
    function GetColumns(): (arr: array<Value>)
      reads columnsArr
      ensures arr == columnsArr
      ensures Valid() ==> arr.Length >= AttributeCount && forall a: Attribute :: arr[a.Index()] == record.Get(a)
    {
      columnsArr
    }

    /** `GetColumnName(attribute)`: the header of an attribute's column. */
    static function GetColumnName(attribute: Attribute): (name: string)
      ensures name == ColumnHeaders[attribute.Index()]
      ensures name != []
    {
      ColumnHeaders[attribute.Index()]
    }

    /** `GetIndex()`: the database index given at construction. */
    function GetIndex(): (i: int)
      ensures i == dbInd
    {
      dbInd
    }

    /** The body weight slot unboxed, as the cast `(float)` in CompareTo does. */
    function Weight(): (w: real)
      reads columnsArr
      requires columnsArr.Length >= AttributeCount && columnsArr[5].Float?
      ensures Valid() ==> w == record.bodyWeight
    {
      assert BodyWeight.Index() == 5;
      columnsArr[5].f
    }

    /** `CompareTo(obj)`: order two cells by body weight. */
    function CompareTo(other: Cell): (r: int)
      reads columnsArr, other.columnsArr
      requires columnsArr.Length >= AttributeCount && columnsArr[5].Float?
      requires other.columnsArr.Length >= AttributeCount && other.columnsArr[5].Float?
      ensures r == 1 <==> Weight() > other.Weight()
      ensures r == -1 <==> Weight() < other.Weight()
      ensures r == 0 <==> Weight() == other.Weight()
    {
      CompareWeights(Weight(), other.Weight())
    }
  }

  /** A valid cell always holds a weight, so any two valid cells can be compared. */
  lemma ValidCellsComparable(a: Cell, b: Cell)
    requires a.Valid() && b.Valid()
    ensures a.columnsArr[5].Float? && b.columnsArr[5].Float?
    ensures a.CompareTo(b) == -b.CompareTo(a)
  {
    GetFields(a.record);
    GetFields(b.record);
    assert a.columnsArr[BodyWeight.Index()] == a.record.Get(BodyWeight);
    assert b.columnsArr[BodyWeight.Index()] == b.record.Get(BodyWeight);
  }

  /** The five columns that CleanAndIngest writes on every path are never null in a valid cell. */
  lemma AlwaysWritten(c: Cell)
    requires c.Valid()
    ensures c.columnsArr[2].Int? && c.columnsArr[3].Str? && c.columnsArr[5].Float?
    ensures c.columnsArr[9].Str? && c.columnsArr[10].Str?
  {
    GetFields(c.record);
    assert c.columnsArr[LaunchAnnounced.Index()] == c.record.Get(LaunchAnnounced);
    assert c.columnsArr[LaunchStatus.Index()] == c.record.Get(LaunchStatus);
    assert c.columnsArr[BodyWeight.Index()] == c.record.Get(BodyWeight);
    assert c.columnsArr[DisplayResolution.Index()] == c.record.Get(DisplayResolution);
    assert c.columnsArr[FeatureSensors.Index()] == c.record.Get(FeatureSensors);
  }

  /** The twelve headers are distinct, so a header names exactly one column. */
  lemma ColumnNamesDistinct(a: Attribute, b: Attribute)
    requires Cell.GetColumnName(a) == Cell.GetColumnName(b)
    ensures a == b
  {
  }
}
