/**
  The two-letter region codes of the setup screen and the rows of its
  region-and-colour picker.
 */
module RegionPicker {
  import opened Wrappers
  import Pump

  /** The screen's own region code; its raw value is the picker's title. */
  datatype RegionCode = NorthAmerica | Canada | WorldWide

  /** The raw value of a region code. */
  function RawValue(c: RegionCode): (s: string)
    ensures |s| == 2
  {
    match c
    case NorthAmerica => "NA"
    case Canada => "CA"
    case WorldWide => "WW"
  }

  /** The failable initialiser from a raw value, inverse of RawValue. */
  function FromRawValue(s: string): (r: Option<RegionCode>)
    ensures r.Some? ==> RawValue(r.value) == s
    ensures r.None? ==> forall c :: RawValue(c) != s
  {
    if s == "NA" then Some(NorthAmerica)
    else if s == "CA" then Some(Canada)
    else if s == "WW" then Some(WorldWide)
    else None
  }

  /** The pump region a code stands for: the one its two letters name. */
  function Region(c: RegionCode): (r: Pump.PumpRegion)
    ensures r == Pump.NorthAmerica <==> RawValue(c) == "NA"
    ensures r == Pump.Canada <==> RawValue(c) == "CA"
    ensures r == Pump.WorldWide <==> RawValue(c) == "WW"
  {
    match c
    case NorthAmerica => Pump.NorthAmerica
    case Canada => Pump.Canada
    case WorldWide => Pump.WorldWide
  }

  /** The code of a pump region: the inverse of Region. */
  function CodeOf(r: Pump.PumpRegion): (c: RegionCode)
    ensures Region(c) == r
  {
    match r
    case NorthAmerica => NorthAmerica
    case Canada => Canada
    case WorldWide => WorldWide
  }

  /** Every pump region has exactly one code: the mapping is one-to-one and onto. */
  lemma RegionIsBijection()
    ensures forall a, b :: Region(a) == Region(b) ==> a == b
    ensures forall c :: CodeOf(Region(c)) == c
  {
  }

  /** Decoding the raw value of a code gives the code back. */
  lemma RawValueRoundTrip(c: RegionCode)
    ensures FromRawValue(RawValue(c)) == Some(c)
  {
  }

  /** The picker's region rows, top to bottom. */
  const RegionRows: seq<RegionCode> := [NorthAmerica, Canada, WorldWide]

  /** The picker's colour rows, top to bottom. */
  const ColorRows: seq<Pump.PumpColor> := [Pump.Blue, Pump.Clear, Pump.Purple, Pump.Smoke, Pump.Pink]

  /** The picker's two wheels, by raw value 0 and 1. */
  datatype PickerComponent = RegionComponent | ColorComponent

  const ComponentCount: nat := 2

  /**
    The wheel with a given raw value; the screen force-unwraps this, so only
    the two valid indices may be asked for.
   */
  function Component(component: nat): (w: PickerComponent)
    requires component < ComponentCount
    ensures component == 0 <==> w == RegionComponent
  {
    if component == 0 then RegionComponent else ColorComponent
  }

  /** The number of rows of a wheel. */
  function NumberOfRows(component: nat): (n: nat)
    requires component < ComponentCount
    ensures Component(component) == RegionComponent ==> n == |RegionRows|
    ensures Component(component) == ColorComponent ==> n == |ColorRows|
  {
    match Component(component)
    case RegionComponent => |RegionRows|
    case ColorComponent => |ColorRows|
  }

  /** The title of a region row is the raw value of its code. */
  function RegionTitle(row: nat): (s: string)
    requires row < |RegionRows|
    ensures FromRawValue(s) == Some(RegionRows[row])
  {
    RawValue(RegionRows[row])
  }

  /** The region wheel offers each code exactly once, in three rows. */
  lemma RegionRowsListEachCodeOnce()
    ensures NumberOfRows(0) == 3
    ensures forall c :: c in RegionRows
    ensures forall i, j :: 0 <= i < j < |RegionRows| ==> RegionRows[i] != RegionRows[j]
  {
    forall c ensures c in RegionRows {
      match c
      case NorthAmerica => assert RegionRows[0] == c;
      case Canada => assert RegionRows[1] == c;
      case WorldWide => assert RegionRows[2] == c;
    }
  }

  /** The colour wheel offers each colour exactly once, in five rows. */
  lemma ColorRowsListEachColorOnce()
    ensures NumberOfRows(1) == 5
    ensures forall c :: c in ColorRows
    ensures forall i, j :: 0 <= i < j < |ColorRows| ==> ColorRows[i] != ColorRows[j]
  {
    forall c ensures c in ColorRows {
      match c
      case Blue => assert ColorRows[0] == c;
      case Clear => assert ColorRows[1] == c;
      case Purple => assert ColorRows[2] == c;
      case Smoke => assert ColorRows[3] == c;
      case Pink => assert ColorRows[4] == c;
    }
  }
}
