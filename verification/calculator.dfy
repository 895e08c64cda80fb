/**
 The transient state of the calculator component and its two actions:
 Calculate, which validates the fields and stores a result or an error, and
 Reset, which restores the initial state.
 */
module Calculator {
  import opened Wrappers
  import opened Units
  import Engine

  /** The component's seven pieces of state. */
  datatype State = State(
    length: string,
    width: string,
    depth: string,
    unit: AreaUnit,
    depthUnit: DepthUnit,
    result: Option<Engine.CalculationResult>,
    error: string)

  /** The state the component starts in: empty fields, feet and inches, nothing shown. */
  function Initial(): (s: State)
    ensures s.length == "" && s.width == "" && s.depth == ""
    ensures s.unit == AreaUnit.Feet && s.depthUnit == Inches
    ensures s.result == None && s.error == ""
  {
    State("", "", "", AreaUnit.Feet, Inches, None, "")
  }

  /** What a calculation reads from the state. */
  function Input(s: State): Engine.RawInput {
    Engine.RawInput(s.length, s.width, s.depth, s.unit, s.depthUnit)
  }

  /**
   The Calculate button: the error is cleared, then either the first failing
   check's message is stored, leaving the previous result on screen, or the
   new result replaces the old one.
   */
  function Calculate(s: State, parse: Engine.Parser): (t: State)
    ensures t.length == s.length && t.width == s.width && t.depth == s.depth
    ensures t.unit == s.unit && t.depthUnit == s.depthUnit
    ensures t.error == "" <==> Engine.Validate(Input(s), parse).Success?
    ensures t.error != "" ==> t.result == s.result
    ensures t.error != "" ==> t.error == Engine.Message(Engine.Validate(Input(s), parse).error)
    ensures t.error == "" ==> t.result.Some? && t.result.value.bags >= 1
  {
    var cleared := s.(error := "");
    match Engine.Calculate(Input(cleared), parse)
    case Failure(e) => cleared.(error := Engine.Message(e))
    case Success(r) => cleared.(result := Some(r))
  }

  /** The Reset button. */
  function Reset(s: State): (t: State)
    ensures t.length == "" && t.width == "" && t.depth == ""
    ensures t.unit == AreaUnit.Feet && t.depthUnit == Inches
    ensures t.result == None && t.error == ""
  {
    s.(length := "", width := "", depth := "", unit := AreaUnit.Feet, depthUnit := Inches,
       result := None, error := "")
  }

  /** Reset brings back exactly the state the component started in. */
  lemma ResetIsInitial(s: State)
    ensures Reset(s) == Initial()
  {
  }

  /** Resetting twice is the same as resetting once. */
  lemma ResetIdempotent(s: State)
    ensures Reset(Reset(s)) == Reset(s)
  {
  }

  /** A calculation straight after Reset reports the empty fields and shows no result. */
  lemma CalculateAfterReset(s: State, parse: Engine.Parser)
    ensures Calculate(Reset(s), parse).error == "Please fill in all dimensions"
    ensures Calculate(Reset(s), parse).result == None
  {
  }

  /** The error shown before a calculation has no bearing on what it produces. */
  lemma CalculateIgnoresPreviousError(s: State, e: string, parse: Engine.Parser)
    ensures Calculate(s.(error := e), parse) == Calculate(s, parse)
  {
  }

  /** Pressing Calculate again without editing the fields changes nothing. */
  lemma CalculateIdempotent(s: State, parse: Engine.Parser)
    ensures Calculate(Calculate(s, parse), parse) == Calculate(s, parse)
  {
  }

  /** A failed calculation leaves an earlier result on screen beside the error. */
  lemma StaleResultBesideError(s: State, parse: Engine.Parser)
    requires s.result.Some?
    requires Engine.Validate(Input(s), parse).Failure?
    ensures Calculate(s, parse).result == s.result
    ensures Calculate(s, parse).error != ""
  {
  }

  /** A successful calculation stores the engine's estimate for the current fields. */
  lemma CalculateStoresEstimate(s: State, parse: Engine.Parser)
    requires Engine.Validate(Input(s), parse).Success?
    ensures Calculate(s, parse).error == ""
    ensures Calculate(s, parse).result
         == Some(Engine.Estimate(Engine.Validate(Input(s), parse).value, s.unit, s.depthUnit))
  {
  }
}
