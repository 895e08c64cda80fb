/**
 The two unit selectors of the calculator form and the factors that turn a
 measurement in those units into feet.
 */
module Units {
  import opened Wrappers

  /** Unit of the length and width fields. */
  datatype AreaUnit = Feet | Yards | Meters

  /** Unit of the depth field. */
  datatype DepthUnit = Inches | Feet | Yards

  /** The `value` attribute of each option of the unit selector. */
  function AreaUnitName(u: AreaUnit): string {
    match u
    case Feet => "feet"
    case Yards => "yards"
    case Meters => "meters"
  }

  /** The `value` attribute of each option of the depth-unit selector. */
  function DepthUnitName(u: DepthUnit): string {
    match u
    case Inches => "inches"
    case Feet => "feet"
    case Yards => "yards"
  }

  /** The string comparisons `unit === 'feet'` and so on, in their order. */
  function ParseAreaUnit(s: string): (r: Option<AreaUnit>)
    ensures r.Some? <==> s in {"feet", "yards", "meters"}
  {
    if s == "feet" then Some(AreaUnit.Feet)
    else if s == "yards" then Some(AreaUnit.Yards)
    else if s == "meters" then Some(Meters)
    else None
  }

  /** The string comparisons `depthUnit === 'inches'` and so on, in their order. */
  function ParseDepthUnit(s: string): (r: Option<DepthUnit>)
    ensures r.Some? <==> s in {"inches", "feet", "yards"}
  {
    if s == "inches" then Some(Inches)
    else if s == "feet" then Some(DepthUnit.Feet)
    else if s == "yards" then Some(DepthUnit.Yards)
    else None
  }

  /** Each selector option is recognised as exactly the unit it names. */
  lemma AreaUnitNameRoundTrip(s: string, u: AreaUnit)
    ensures ParseAreaUnit(s) == Some(u) <==> AreaUnitName(u) == s
  {
  }

  lemma DepthUnitNameRoundTrip(s: string, u: DepthUnit)
    ensures ParseDepthUnit(s) == Some(u) <==> DepthUnitName(u) == s
  {
  }

  /** Square feet in one square unit. */
  function AreaFactor(u: AreaUnit): (f: real)
    ensures f >= 1.0
    ensures f == 1.0 <==> u == AreaUnit.Feet
  {
    match u
    case Feet => 1.0
    case Yards => 9.0
    case Meters => 10.764
  }

  /** Feet in one unit of depth. */
  function FeetPerDepthUnit(u: DepthUnit): (f: real)
    ensures f > 0.0
  {
    match u
    case Inches => 1.0 / 12.0
    case Feet => 1.0
    case Yards => 3.0
  }

  /** A depth measured in `u`, expressed in feet. */
  function DepthInFeet(d: real, u: DepthUnit): (r: real)
    ensures r == d * FeetPerDepthUnit(u)
  {
    match u
    case Inches => d / 12.0
    case Feet => d
    case Yards => d * 3.0
  }

  /** A square yard is a three-by-three-foot square. */
  lemma YardSquaresAreNineFeetSquares()
    ensures AreaFactor(AreaUnit.Yards) == FeetPerDepthUnit(DepthUnit.Yards) * FeetPerDepthUnit(DepthUnit.Yards)
  {
  }
}
