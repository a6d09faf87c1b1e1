/**
 * The fixed schema of a cell: the twelve attributes in column order, their
 * display headers, the boxed value a column slot holds, and the typed record
 * that the normalisation of one row produces.
 */
module Schema {
  import opened Options

  /** The attribute enumeration; its order is the column order of a row. */
  datatype Attribute =
    | Oem | Model | LaunchAnnounced | LaunchStatus | BodyDimensions | BodyWeight
    | BodySim | DisplayType | DisplaySize | DisplayResolution | FeatureSensors | OS
  {
    /** `(int)attribute`: the column of the attribute. */
    function Index(): (i: nat)
      ensures i < AttributeCount
    {
      match this
      case Oem => 0
      case Model => 1
      case LaunchAnnounced => 2
      case LaunchStatus => 3
      case BodyDimensions => 4
      case BodyWeight => 5
      case BodySim => 6
      case DisplayType => 7
      case DisplaySize => 8
      case DisplayResolution => 9
      case FeatureSensors => 10
      case OS => 11
    }
  }

  const AttributeCount := 12

  /** Distinct attributes have distinct columns. */
  lemma IndexInjective(a: Attribute, b: Attribute)
    requires a.Index() == b.Index()
    ensures a == b
  {
  }

  /** The column headers, in column order (including the source's spelling "Launce"). */
  const ColumnHeaders: seq<string> := [
    "OEM", "Model", "Launce Announced", "Launch Status", "Body Dimensions", "Body Weight",
    "SIM Type", "Display Type", "Display Size", "Display Resolution", "Features", "OS"
  ]

  /** What a slot of the column array holds: null or a boxed string, int or float. */
  datatype Value = Null | Str(s: string) | Int(i: int) | Float(f: real)

  function OptionalText(o: Option<string>): Value {
    match o
    case None => Null
    case Some(t) => Str(t)
  }

  function OptionalFloat(o: Option<real>): Value {
    match o
    case None => Null
    case Some(x) => Float(x)
  }

  /**
   * One normalised row. Attributes that CleanAndIngest may leave null are
   * optional; the ones it always writes are not.
   */
  datatype Record = Record(
    oem: Option<string>,
    model: Option<string>,
    launchAnnounced: int,
    launchStatus: string,
    bodyDimensions: Option<string>,
    bodyWeight: real,
    bodySim: Option<string>,
    displayType: Option<string>,
    displaySize: Option<real>,
    displayResolution: string,
    featureSensors: string,
    os: Option<string>)
  {
    /** The boxed value that the column of attribute `a` holds. */
    function Get(a: Attribute): Value {
      match a
      case Oem => OptionalText(oem)
      case Model => OptionalText(model)
      case LaunchAnnounced => Int(launchAnnounced)
      case LaunchStatus => Str(launchStatus)
      case BodyDimensions => OptionalText(bodyDimensions)
      case BodyWeight => Float(bodyWeight)
      case BodySim => OptionalText(bodySim)
      case DisplayType => OptionalText(displayType)
      case DisplaySize => OptionalFloat(displaySize)
      case DisplayResolution => Str(displayResolution)
      case FeatureSensors => Str(featureSensors)
      case OS => OptionalText(os)
    }
  }

  /** The column of each attribute holds the matching field, boxed. */
  lemma GetFields(r: Record)
    ensures r.Get(Oem) == OptionalText(r.oem) && r.Get(Model) == OptionalText(r.model)
    ensures r.Get(LaunchAnnounced) == Int(r.launchAnnounced) && r.Get(LaunchStatus) == Str(r.launchStatus)
    ensures r.Get(BodyDimensions) == OptionalText(r.bodyDimensions) && r.Get(BodyWeight) == Float(r.bodyWeight)
    ensures r.Get(BodySim) == OptionalText(r.bodySim) && r.Get(DisplayType) == OptionalText(r.displayType)
    ensures r.Get(DisplaySize) == OptionalFloat(r.displaySize) && r.Get(DisplayResolution) == Str(r.displayResolution)
    ensures r.Get(FeatureSensors) == Str(r.featureSensors) && r.Get(OS) == OptionalText(r.os)
  {
  }

  /** The column array determines the record: records that agree on every column are equal. */
  lemma GetInjective(r1: Record, r2: Record)
    requires forall a: Attribute :: r1.Get(a) == r2.Get(a)
    ensures r1 == r2
  {
    GetFields(r1);
    GetFields(r2);
    assert r1.Get(Oem) == r2.Get(Oem) && r1.Get(Model) == r2.Get(Model);
    assert r1.Get(LaunchAnnounced) == r2.Get(LaunchAnnounced) && r1.Get(LaunchStatus) == r2.Get(LaunchStatus);
    assert r1.Get(BodyDimensions) == r2.Get(BodyDimensions) && r1.Get(BodyWeight) == r2.Get(BodyWeight);
    assert r1.Get(BodySim) == r2.Get(BodySim) && r1.Get(DisplayType) == r2.Get(DisplayType);
    assert r1.Get(DisplaySize) == r2.Get(DisplaySize) && r1.Get(DisplayResolution) == r2.Get(DisplayResolution);
    assert r1.Get(FeatureSensors) == r2.Get(FeatureSensors) && r1.Get(OS) == r2.Get(OS);
  }
}
