/**
 The conversion engine of the topsoil calculator: validation of the three
 dimension fields, conversion of the footprint and depth to cubic feet, and
 the volume, bag and weight estimates derived from it.
 */
module Engine {
  import opened Wrappers
  import opened Numeric
  import opened Units

  /** The form fields read by one calculation. */
  datatype RawInput = RawInput(
    length: string,
    width: string,
    depth: string,
    unit: AreaUnit,
    depthUnit: DepthUnit)

  /** The numbers the three fields parsed to. */
  datatype Dimensions = Dimensions(length: real, width: real, depth: real)

  /** The record shown to the user: cubic yards, bag count and tons. */
  datatype CalculationResult = CalculationResult(volume: real, bags: int, tons: real)

  /** Why a calculation was refused, in the order the checks run. */
  datatype ValidationError = MissingField | NotANumber | NonPositive

  /**
   `parseFloat`, left abstract: `None` is the `NaN` it returns for a string
   that does not start with a number.
   */
  type Parser = string -> Option<real>

  const CubicFeetPerCubicYard: real := 27.0
  const CubicFeetPerBag: real := 0.5
  const TonsPerCubicYard: real := 1.4

  /** The text shown for each validation error. */
  function Message(e: ValidationError): (m: string)
    ensures m != ""
  {
    match e
    case MissingField => "Please fill in all dimensions"
    case NotANumber => "Please enter valid numbers"
    case NonPositive => "Dimensions must be greater than zero"
  }

  /** Different errors are shown with different texts. */
  lemma MessageInjective(e: ValidationError, e': ValidationError)
    requires Message(e) == Message(e')
    ensures e == e'
  {
  }

  predicate AllFilled(i: RawInput) {
    i.length != "" && i.width != "" && i.depth != ""
  }

  predicate AllParse(i: RawInput, parse: Parser) {
    parse(i.length).Some? && parse(i.width).Some? && parse(i.depth).Some?
  }

  predicate Positive(d: Dimensions) {
    d.length > 0.0 && d.width > 0.0 && d.depth > 0.0
  }

  /**
   The three checks, in order: an empty field, then a field that is not a
   number, then a value that is zero or negative.
   */
  function Validate(i: RawInput, parse: Parser): (r: Result<Dimensions, ValidationError>)
    ensures r == Failure(MissingField) <==> !AllFilled(i)
    ensures r == Failure(NotANumber) <==> AllFilled(i) && !AllParse(i, parse)
    ensures r == Failure(NonPositive) <==>
      && AllFilled(i) && AllParse(i, parse)
      && (parse(i.length).value <= 0.0 || parse(i.width).value <= 0.0 || parse(i.depth).value <= 0.0)
    ensures r.Success? ==>
      && AllFilled(i) && AllParse(i, parse)
      && r.value == Dimensions(parse(i.length).value, parse(i.width).value, parse(i.depth).value)
      && Positive(r.value)
  {
    if i.length == "" || i.width == "" || i.depth == "" then
      Failure(MissingField)
    else
      var l, w, d := parse(i.length), parse(i.width), parse(i.depth);
      if l.None? || w.None? || d.None? then
        Failure(NotANumber)
      else if l.value <= 0.0 || w.value <= 0.0 || d.value <= 0.0 then
        Failure(NonPositive)
      else
        Success(Dimensions(l.value, w.value, d.value))
  }

  /** Footprint in square feet times depth in feet. */
  function CubicFeet(d: Dimensions, u: AreaUnit, du: DepthUnit): (v: real)
    ensures Positive(d) ==> v > 0.0
  {
    var area := match u
      case Feet => d.length * d.width
      case Yards => d.length * d.width * 9.0
      case Meters => d.length * d.width * 10.764;
    match du
    case Inches => area * (d.depth / 12.0)
    case Feet => area * d.depth
    case Yards => area * (d.depth * 3.0)
  }

  /** The conversion is the product of the dimensions and the two unit factors. */
  lemma CubicFeetFactors(d: Dimensions, u: AreaUnit, du: DepthUnit)
    ensures CubicFeet(d, u, du)
         == d.length * d.width * AreaFactor(u) * DepthInFeet(d.depth, du)
  {
  }

  /** The volume in cubic yards, before any rounding. */
  function CubicYards(d: Dimensions, u: AreaUnit, du: DepthUnit): (y: real)
    ensures y * CubicFeetPerCubicYard == CubicFeet(d, u, du)
    ensures Positive(d) ==> y > 0.0
  {
    CubicFeet(d, u, du) / CubicFeetPerCubicYard
  }

  /** Volume, bags and weight for dimensions that passed validation. */
  function Estimate(d: Dimensions, u: AreaUnit, du: DepthUnit): (r: CalculationResult)
    requires Positive(d)
    ensures r.bags >= 1
    ensures (r.bags - 1) as real * CubicFeetPerBag < CubicFeet(d, u, du) <= r.bags as real * CubicFeetPerBag
    ensures IsHundredths(r.volume) && IsHundredths(r.tons)
    ensures -0.005 <= r.volume - CubicYards(d, u, du) <= 0.005
    ensures -0.005 <= r.tons - CubicYards(d, u, du) * TonsPerCubicYard <= 0.005
    ensures r.volume == Round2(CubicYards(d, u, du))
    ensures r.tons == Round2(CubicYards(d, u, du) * TonsPerCubicYard)
  {
    var cubicFeet := CubicFeet(d, u, du);
    var cubicYards := CubicYards(d, u, du);
    var bags := Ceil(cubicFeet / CubicFeetPerBag);
    var tons := cubicYards * TonsPerCubicYard;
    Round2Nearest(cubicYards, 0);
    Round2Nearest(tons, 0);
    CalculationResult(Round2(cubicYards), bags, Round2(tons))
  }

  /** The whole engine: validation first, then the estimates. */
  function Calculate(i: RawInput, parse: Parser): (r: Result<CalculationResult, ValidationError>)
    ensures r.Failure? <==> Validate(i, parse).Failure?
    ensures r.Failure? ==> r.error == Validate(i, parse).error
    ensures r.Success? ==> r.value.bags >= 1 && r.value.volume >= 0.0 && r.value.tons >= 0.0
    ensures r.Success? ==>
      && Validate(i, parse).Success?
      && r.value == Estimate(Validate(i, parse).value, i.unit, i.depthUnit)
  {
    match Validate(i, parse)
    case Failure(e) => Failure(e)
    case Success(d) => Success(Estimate(d, i.unit, i.depthUnit))
  }

  // ---------------------------------------------------------------------
  // Error precedence

  /** An empty field is reported whatever the other fields hold. */
  lemma EmptyFieldWins(i: RawInput, parse: Parser)
    requires i.length == "" || i.width == "" || i.depth == ""
    ensures Calculate(i, parse) == Failure(MissingField)
  {
  }

  /** With every field filled, a field that does not parse is reported next. */
  lemma UnparsableFieldWins(i: RawInput, parse: Parser)
    requires AllFilled(i)
    requires parse(i.length).None? || parse(i.width).None? || parse(i.depth).None?
    ensures Calculate(i, parse) == Failure(NotANumber)
  {
  }

  /** A zero or negative value is reported only once everything parses. */
  lemma NonPositiveFieldLast(i: RawInput, parse: Parser, l: real, w: real, d: real)
    requires AllFilled(i)
    requires parse(i.length) == Some(l) && parse(i.width) == Some(w) && parse(i.depth) == Some(d)
    ensures Calculate(i, parse) == Failure(NonPositive) <==> (l <= 0.0 || w <= 0.0 || d <= 0.0)
    ensures Calculate(i, parse).Success? <==> (l > 0.0 && w > 0.0 && d > 0.0)
  {
  }

  // ---------------------------------------------------------------------
  // Conversions agree with each other

  /** Twelve inches of depth give the same volume as one foot. */
  lemma InchesAreTwelfthsOfFeet(l: real, w: real, d: real, u: AreaUnit)
    ensures CubicFeet(Dimensions(l, w, 12.0 * d), u, Inches) == CubicFeet(Dimensions(l, w, d), u, DepthUnit.Feet)
  {
  }

  /** A depth in yards gives the same volume as three times that depth in feet. */
  lemma DepthYardsAreThreeFeet(l: real, w: real, d: real, u: AreaUnit)
    ensures CubicFeet(Dimensions(l, w, d), u, DepthUnit.Yards) == CubicFeet(Dimensions(l, w, 3.0 * d), u, DepthUnit.Feet)
  {
  }

  /** A footprint in yards gives the same volume as three times each side in feet. */
  lemma AreaYardsAreThreeFeet(l: real, w: real, d: real, du: DepthUnit)
    ensures CubicFeet(Dimensions(l, w, d), AreaUnit.Yards, du) == CubicFeet(Dimensions(3.0 * l, 3.0 * w, d), AreaUnit.Feet, du)
  {
    assert (3.0 * l) * (3.0 * w) == l * w * 9.0;
  }

  /** With every measurement in yards the volume is simply the product, in cubic yards. */
  lemma AllYardsGivesCubicYards(d: Dimensions)
    ensures CubicYards(d, AreaUnit.Yards, DepthUnit.Yards) == d.length * d.width * d.depth
  {
    assert d.length * d.width * 9.0 * (d.depth * 3.0) == 27.0 * (d.length * d.width * d.depth);
  }

  /** With length, width and depth all in feet, the volume is the product over 27, rounded. */
  lemma FeetVolume(d: Dimensions)
    requires Positive(d)
    ensures Estimate(d, AreaUnit.Feet, DepthUnit.Feet).volume == Round2(d.length * d.width * d.depth / CubicFeetPerCubicYard)
  {
    assert CubicFeet(d, AreaUnit.Feet, DepthUnit.Feet) == d.length * d.width * d.depth;
    assert CubicYards(d, AreaUnit.Feet, DepthUnit.Feet) == d.length * d.width * d.depth / CubicFeetPerCubicYard;
  }

  // ---------------------------------------------------------------------
  // Monotonicity

  /** Products of positive factors grow when a factor grows. */
  lemma ProductMonotone(a: real, b: real, a': real, b': real)
    requires 0.0 < a <= a' && 0.0 < b <= b'
    ensures 0.0 < a * b <= a' * b'
    ensures (a < a' || b < b') ==> a * b < a' * b'
  {
    ScaleMonotone(a, a', b);
    ScaleMonotone(b, b', a');
    assert a' * b == b * a';
  }

  /** Scaling by a positive factor keeps the order, strictly when it is strict. */
  lemma ScaleMonotone(x: real, y: real, c: real)
    requires 0.0 < x <= y && c > 0.0
    ensures 0.0 < x * c <= y * c
    ensures x < y ==> x * c < y * c
  {
  }

  /** Dimensions `d'` are no smaller than `d` in every direction. */
  predicate NoSmaller(d: Dimensions, d': Dimensions) {
    d.length <= d'.length && d.width <= d'.width && d.depth <= d'.depth
  }

  /** Enlarging any dimension strictly enlarges the volume. */
  lemma CubicFeetMonotone(d: Dimensions, d': Dimensions, u: AreaUnit, du: DepthUnit)
    requires Positive(d) && NoSmaller(d, d')
    ensures CubicFeet(d, u, du) <= CubicFeet(d', u, du)
    ensures d != d' ==> CubicFeet(d, u, du) < CubicFeet(d', u, du)
    ensures d != d' ==> CubicYards(d, u, du) < CubicYards(d', u, du)
  {
    var f, g := AreaFactor(u), FeetPerDepthUnit(du);
    CubicFeetFactors(d, u, du);
    CubicFeetFactors(d', u, du);
    VolumeProductMonotone(d.length, d.width, d.depth, d'.length, d'.width, d'.depth, f, g);
    assert d != d' ==> d.length < d'.length || d.width < d'.width || d.depth < d'.depth;
  }

  /** The product behind `CubicFeet` grows with each of its three measured factors. */
  lemma VolumeProductMonotone(l: real, w: real, h: real, l': real, w': real, h': real, f: real, g: real)
    requires 0.0 < l <= l' && 0.0 < w <= w' && 0.0 < h <= h'
    requires f > 0.0 && g > 0.0
    ensures l * w * f * (h * g) <= l' * w' * f * (h' * g)
    ensures (l < l' || w < w' || h < h') ==> l * w * f * (h * g) < l' * w' * f * (h' * g)
  {
    ProductMonotone(l, w, l', w');
    ProductMonotone(l * w, f, l' * w', f);
    ProductMonotone(h, g, h', g);
    ProductMonotone(l * w * f, h * g, l' * w' * f, h' * g);
  }

  /** Enlarging any dimension never lowers the bag count, the volume or the weight shown. */
  lemma EstimateMonotone(d: Dimensions, d': Dimensions, u: AreaUnit, du: DepthUnit)
    requires Positive(d) && NoSmaller(d, d')
    ensures Estimate(d, u, du).bags <= Estimate(d', u, du).bags
    ensures Estimate(d, u, du).volume <= Estimate(d', u, du).volume
    ensures Estimate(d, u, du).tons <= Estimate(d', u, du).tons
  {
    CubicFeetMonotone(d, d', u, du);
    var v, v' := CubicFeet(d, u, du), CubicFeet(d', u, du);
    var y, y' := CubicYards(d, u, du), CubicYards(d', u, du);
    CeilMonotone(v / CubicFeetPerBag, v' / CubicFeetPerBag);
    Round2Monotone(y, y');
    Round2Monotone(y * TonsPerCubicYard, y' * TonsPerCubicYard);
  }

  /**
   The shown values are not strictly increasing: a longer footprint can give
   the same bag count, volume and weight.
   */
  lemma RoundingHidesSmallIncrease()
    ensures var d, d' := Dimensions(10.0, 10.0, 3.1), Dimensions(10.01, 10.0, 3.1);
      && CubicFeet(d, AreaUnit.Feet, Inches) < CubicFeet(d', AreaUnit.Feet, Inches)
      && Estimate(d, AreaUnit.Feet, Inches) == Estimate(d', AreaUnit.Feet, Inches)
  {
    var v, v' := 155.0 / 6.0, 31031.0 / 1200.0;
    assert CubicFeet(Dimensions(10.0, 10.0, 3.1), AreaUnit.Feet, Inches) == v;
    assert CubicFeet(Dimensions(10.01, 10.0, 3.1), AreaUnit.Feet, Inches) == v';
    assert Ceil(v / 0.5) == 52 && Ceil(v' / 0.5) == 52;
    assert Hundredths(v / 27.0) == 96 && Hundredths(v' / 27.0) == 96;
    assert Hundredths(v / 27.0 * 1.4) == 134 && Hundredths(v' / 27.0 * 1.4) == 134;
  }

  // ---------------------------------------------------------------------
  // Weight from unrounded cubic yards

  /**
   The weight is computed from the unrounded cubic yards: for 0.1323 cubic
   feet (0.0049 cubic yards) it shows 0.01 tons, whereas rounding the volume
   first would show 0.
   */
  lemma TonsUseUnroundedYards()
    ensures var d := Dimensions(1.0, 1.0, 0.1323);
      var r := Estimate(d, AreaUnit.Feet, DepthUnit.Feet);
      && r.volume == 0.0
      && r.tons == 0.01
      && Round2(r.volume * TonsPerCubicYard) != r.tons
  {
  }

  // ---------------------------------------------------------------------
  // Worked examples

  /** 10 by 10 feet at 3 inches: 25 cubic feet, 0.93 cubic yards, 50 bags, 1.30 tons. */
  lemma TenByTenAtThreeInches(parse: Parser)
    requires parse("10") == Some(10.0) && parse("3") == Some(3.0)
    ensures Calculate(RawInput("10", "10", "3", AreaUnit.Feet, Inches), parse)
         == Success(CalculationResult(0.93, 50, 1.30))
  {
    var d := Dimensions(10.0, 10.0, 3.0);
    assert CubicFeet(d, AreaUnit.Feet, Inches) == 25.0;
    assert Hundredths(25.0 / 27.0) == 93;
    assert Hundredths(25.0 / 27.0 * 1.4) == 130;
  }

  /** 3 by 3 yards at 1 foot: 81 cubic feet, 3 cubic yards, 162 bags, 4.2 tons. */
  lemma ThreeByThreeYardsAtOneFoot(parse: Parser)
    requires parse("3") == Some(3.0) && parse("1") == Some(1.0)
    ensures Calculate(RawInput("3", "3", "1", AreaUnit.Yards, DepthUnit.Feet), parse)
         == Success(CalculationResult(3.0, 162, 4.2))
  {
    var d := Dimensions(3.0, 3.0, 1.0);
    assert CubicFeet(d, AreaUnit.Yards, DepthUnit.Feet) == 81.0;
    assert Hundredths(3.0) == 300;
    assert Hundredths(4.2) == 420;
  }
}
