# Topsoil calculator — Dafny model

A model of the logic of the `TopsoilCalculator` React component. The user
enters the length and width of a rectangular footprint, a depth, and two unit
selections. The component then does one of two things:

- it stores one of three validation messages, or
- it stores an estimate of the topsoil needed: volume in cubic yards, a count
  of 0.5-cubic-foot bags, and a weight in tons at 1.4 tons per cubic yard.

A Reset button restores the initial form.

Modules, one per concept:

- `Wrappers` (`wrappers.dfy`): the `Option` and `Result` datatypes.
- `Numeric` (`numeric.dfy`): `Math.ceil` and the two-decimal rounding
  `parseFloat(x.toFixed(2))`, on exact reals.
- `Units` (`units.dfy`): the closed area-unit and depth-unit selections, the
  names the selectors use for them, and the factors that convert them to feet.
- `Engine` (`engine.dfy`): validation, conversion to cubic feet, and the
  volume, bag and weight estimates, as pure functions.
- `Calculator` (`calculator.dfy`): the component's state record and its
  Calculate and Reset transitions.

`parseFloat` is a parameter `parse: string -> Option<real>`, where `None`
stands for `NaN`. No property depends on how strings are parsed, except the
worked examples, which state the values they need as preconditions.

In three places the code behaves differently from what a reader might assume;
the model follows the code:

- Weight is computed from the unrounded cubic yards
  (src/components/TopsoilCalculator.tsx:56), not from the rounded volume.
  `Engine.TonsUseUnroundedYards` gives an input where the two differ.
- The volume, bag count and weight shown do not strictly increase with the
  dimensions. Rounding and `Math.ceil` only make them non-decreasing.
  `Engine.EstimateMonotone` proves non-decreasing.
  `Engine.RoundingHidesSmallIncrease` gives a larger footprint with identical
  results.
- The error and the result are not exclusive. A failed calculation leaves the
  earlier result in place (`Calculator.StaleResultBesideError`).

## Model

| member | source | states |
|---|---|---|
| `Numeric.Ceil` | src/components/TopsoilCalculator.tsx:54 | the result is the least integer not below its argument |
| `Numeric.CeilUnique` | src/components/TopsoilCalculator.tsx:54 | any integer in the window `m - 1 < x <= m` is `Ceil(x)` |
| `Numeric.CeilMonotone` | src/components/TopsoilCalculator.tsx:54 | `Math.ceil` preserves order |
| `Numeric.Hundredths` | src/components/TopsoilCalculator.tsx:58-60 | the integer `toFixed(2)` picks: within half a hundredth of `100 x`, ties away from zero |
| `Numeric.Round2` | src/components/TopsoilCalculator.tsx:58-60 | the rounded value is a whole number of hundredths within 0.005 of the input |
| `Numeric.Round2Nearest` | src/components/TopsoilCalculator.tsx:58-60 | no multiple of 0.01 is closer to the input than the rounded value |
| `Numeric.Round2Exact` | src/components/TopsoilCalculator.tsx:58-60 | a value already on a hundredth is unchanged |
| `Numeric.Round2Monotone` | src/components/TopsoilCalculator.tsx:58-60 | rounding preserves order |
| `Units.ParseAreaUnit` | src/components/TopsoilCalculator.tsx:36-42 | only the strings "feet", "yards" and "meters" select an area unit |
| `Units.ParseDepthUnit` | src/components/TopsoilCalculator.tsx:44-50 | only the strings "inches", "feet" and "yards" select a depth unit |
| `Units.AreaUnitNameRoundTrip` | src/components/TopsoilCalculator.tsx:92-96 | each area selector option is recognised as exactly the unit it names, and only that |
| `Units.DepthUnitNameRoundTrip` | src/components/TopsoilCalculator.tsx:106-110 | each depth selector option is recognised as exactly the unit it names, and only that |
| `Units.AreaFactor` | src/components/TopsoilCalculator.tsx:36-42 | square feet per square unit are at least 1, and exactly 1 only for feet |
| `Units.FeetPerDepthUnit` | src/components/TopsoilCalculator.tsx:44-50 | every depth unit is a positive number of feet |
| `Units.DepthInFeet` | src/components/TopsoilCalculator.tsx:44-50 | a depth converted to feet is the depth times the unit's feet |
| `Units.YardSquaresAreNineFeetSquares` | src/components/TopsoilCalculator.tsx:39 | the area factor 9 for yards is the square of the 3 feet in a yard |
| `Engine.Message` | src/components/TopsoilCalculator.tsx:19-33 | every validation message is non-empty, so it is visible as an error |
| `Engine.MessageInjective` | src/components/TopsoilCalculator.tsx:19-33 | different validation errors show different messages |
| `Engine.Validate` | src/components/TopsoilCalculator.tsx:19-33 | MissingField iff a field is empty; NotANumber iff all are filled and one fails to parse; NonPositive iff all parse and one is at most 0; otherwise success with the parsed, positive values |
| `Engine.CubicFeet` | src/components/TopsoilCalculator.tsx:35-50 | positive dimensions give a positive volume in cubic feet |
| `Engine.CubicFeetFactors` | src/components/TopsoilCalculator.tsx:35-50 | cubic feet = length × width × area factor × depth in feet |
| `Engine.Estimate` | src/components/TopsoilCalculator.tsx:52-61 | bags ≥ 1 and cover the volume with less than one bag to spare; volume is the cubic yards rounded to the nearest hundredth (an exact half rounds up) and tons are the unrounded cubic yards × 1.4 rounded the same way, each within 0.005 of the exact value |
| `Engine.Calculate` | src/components/TopsoilCalculator.tsx:16-61 | fails exactly when validation fails, with validation's error; a success holds the estimate for the validated dimensions and units, with bags ≥ 1 and non-negative volume and tons |
| `Engine.CubicYards` | src/components/TopsoilCalculator.tsx:52 | the cubic yards times 27 are the cubic feet, and positive dimensions give a positive volume |
| `Engine.EmptyFieldWins` | src/components/TopsoilCalculator.tsx:19-22 | an empty field gives MissingField whatever the other fields and the parser do |
| `Engine.UnparsableFieldWins` | src/components/TopsoilCalculator.tsx:23-29 | with all fields filled, a field that fails to parse gives NotANumber whatever the values |
| `Engine.NonPositiveFieldLast` | src/components/TopsoilCalculator.tsx:30-33 | once all fields parse, NonPositive iff a value is ≤ 0 and success iff all are > 0 |
| `Engine.InchesAreTwelfthsOfFeet` | src/components/TopsoilCalculator.tsx:45 | 12·d inches of depth give the same cubic feet as d feet |
| `Engine.DepthYardsAreThreeFeet` | src/components/TopsoilCalculator.tsx:49 | d yards of depth give the same cubic feet as 3·d feet |
| `Engine.AreaYardsAreThreeFeet` | src/components/TopsoilCalculator.tsx:39 | an l × w yard footprint gives the same cubic feet as 3l × 3w feet |
| `Engine.AllYardsGivesCubicYards` | src/components/TopsoilCalculator.tsx:39-52 | with everything in yards, cubic yards are length × width × depth exactly |
| `Engine.FeetVolume` | src/components/TopsoilCalculator.tsx:37-58 | with everything in feet, the stored volume is round2(l·w·d/27) |
| `Engine.CubicFeetMonotone` | src/components/TopsoilCalculator.tsx:35-52 | enlarging dimensions never lowers the cubic feet, and any change strictly raises both cubic feet and cubic yards |
| `Engine.EstimateMonotone` | src/components/TopsoilCalculator.tsx:36-60 | enlarging dimensions never lowers the bags, the rounded volume or the rounded tons |
| `Engine.RoundingHidesSmallIncrease` | src/components/TopsoilCalculator.tsx:54-60 | a strictly larger footprint can yield an identical estimate |
| `Engine.TonsUseUnroundedYards` | src/components/TopsoilCalculator.tsx:56-60 | tons come from the unrounded cubic yards: at 0.1323 cu ft the volume shows 0 but the weight 0.01 |
| `Engine.TenByTenAtThreeInches` | src/components/TopsoilCalculator.tsx:35-61 | 10 × 10 ft at 3 in gives 0.93 yd³, 50 bags, 1.30 t |
| `Engine.ThreeByThreeYardsAtOneFoot` | src/components/TopsoilCalculator.tsx:35-61 | 3 × 3 yd at 1 ft gives 3 yd³, 162 bags, 4.2 t |
| `Calculator.Initial` | src/components/TopsoilCalculator.tsx:9-15 | the initial state has empty fields, feet and inches, no result and no error |
| `Calculator.Calculate` | src/components/TopsoilCalculator.tsx:16-61 | fields and units are untouched; error is "" iff validation succeeds; on failure the error is the first failing check's message and the result is unchanged; on success a result is stored |
| `Calculator.Reset` | src/components/TopsoilCalculator.tsx:63-71 | all fields empty, units feet and inches, no result and no error |
| `Calculator.ResetIsInitial` | src/components/TopsoilCalculator.tsx:63-71 | Reset from any state gives exactly the initial state |
| `Calculator.ResetIdempotent` | src/components/TopsoilCalculator.tsx:63-71 | resetting twice equals resetting once |
| `Calculator.CalculateAfterReset` | src/components/TopsoilCalculator.tsx:19-22 | calculating right after a reset shows "Please fill in all dimensions" and no result |
| `Calculator.CalculateIgnoresPreviousError` | src/components/TopsoilCalculator.tsx:17 | the error cleared at the start of Calculate has no influence on its outcome |
| `Calculator.CalculateIdempotent` | src/components/TopsoilCalculator.tsx:16-61 | calculating twice without editing equals calculating once |
| `Calculator.StaleResultBesideError` | src/components/TopsoilCalculator.tsx:26-33 | after a failed calculation an earlier result stays alongside the error |
| `Calculator.CalculateStoresEstimate` | src/components/TopsoilCalculator.tsx:57-61 | a successful calculation clears the error and stores the estimate for the current fields |

## Left out

- Rendering, styling, icons and the `onChange` handlers that copy input and
  selector values into the state (src/components/TopsoilCalculator.tsx:72-153).
  This is presentation only.
- src/App.tsx only mounts the component.
- IEEE-754 arithmetic. The model uses exact reals, so it leaves out:
  - rounding error in the products and in the divisions by 12 and 27. `Math.ceil`
    turns an error in the last bit into a whole bag: 0.1 × 3 × 5 feet is
    1.5000000000000002 cubic feet in doubles, so the code shows 4 bags where
    the model shows 3;
  - the binary inexactness of 10.764 and 1.4, and the binary quirks of
    `toFixed`, including its exponential notation from 1e21 upward;
  - underflow: 1e-200 × 1e-200 gives 0 cubic feet and 0 bags in doubles;
  - overflow: 1e200 × 1e200 gives Infinity.
- Engine.Estimate: its `bags >= 1` holds for exact reals, not for the
  underflowing doubles above. The same goes for the positive cubic feet and
  cubic yards that `Engine.CubicFeet` and `Engine.CubicYards` ensure.
- The behaviour of `parseFloat`. This covers prefix parsing such as "12abc",
  and the strings "Infinity" and "-Infinity". The parser is a parameter that
  returns a finite real or `None`.
- The fall-through when a unit string is none of the listed options. There,
  the cubic feet stay 0 or are not scaled by depth (src/components/TopsoilCalculator.tsx:36-50).
  The units are closed datatypes, so this case cannot arise; `Units.ParseAreaUnit`
  and `Units.ParseDepthUnit` say which strings are recognised.
- React's batching of state updates. Only the state after an action completes
  is modelled, so the transient `setError('')` at line 17 appears only as the
  final error's independence from the previous one.
