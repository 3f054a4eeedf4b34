# Floor-plan area engines, modelled in Dafny

The application computes the carpet (usable) area of a property from its
built-up area and a deduction, and separately the area of a plane shape from
its dimensions. The shape result can be fed into the built-up field. This
project models the two pieces of logic behind that and the component state
around them:

- **Shape area engine** (`ShapeArea`, `shape_selector.dfy`): `CalculateArea` is
  a dispatch on six shapes (rectangle, square, circle, ellipse, regular
  hexagon, regular pentagon). Each case parses only the dimension fields its
  shape uses and guards the formula with JavaScript truthiness. The
  `ShapeSelector` class holds the selected shape and the seven-field dimension
  record, and has the two handlers that update them. Each handler returns the
  value it passes to the `onAreaChange` callback.
- **Carpet area engine** (`CarpetArea`, `carpet_area_calculator.dfy`):
  `Calculate` runs the fail-fast validation and computes the breakdown. The
  `CarpetAreaCalculator` class holds the form's state and has the handlers
  that compute, reset and receive the shape area. `EditShapeDimension` wires
  the selector's callback to the calculator.
- **Runtime** (`JsRuntime`, `js_runtime.dfy`): numbers are `real`, and NaN is
  `None` in an `Option<real>`. `parseFloat`, `Number.prototype.toString`,
  `Math.PI` and `Math.sqrt` are fields of an `Env` that the engines receive
  as a parameter. `JsRuntime.Valid` lists facts the proofs use:
  - `parseFloat("")` is NaN;
  - π is positive;
  - `sqrt` is positive on positive numbers.

  `JsRuntime.SomeRuntimeIsValid` exhibits a runtime that meets them. The
  round trip `parseFloat(toString(x)) == x` is `JsRuntime.RoundTrips(env, x)`,
  assumed only for the one value a contract is about, since no printing
  function into strings can invert on every real.

  `Truthy`, `AtMost` and `Below` model `x ? … : …`, `x <= c` and `x < c` on a
  number that may be NaN.
- `Arithmetic` (`arithmetic.dfy`) contains sign lemmas about real products.
  The proofs use them for their nonlinear steps.

Behaviour of the code that its messages and names do not suggest, and that
the model keeps:

- The first check (src/components/CarpetAreaCalculator.tsx:32-35) is one
  combined test with one alert, "Please enter valid positive numbers for all
  fields". It does not say which field failed. The model has a single
  `InvalidNumbers` failure.
- That check rejects a deduction of exactly 0, because `!deduction` is true
  for 0, although its `deduction < 0` part alone would admit 0.
- The percentage check (line 42) rejects only values above 100, so a
  deduction of exactly 100 % is accepted and gives a carpet area of 0. The
  fixed check (line 49) is strict, so a fixed deduction always leaves a
  positive carpet area.
- The shape guards (src/components/ShapeSelector.tsx:34-55) test truthiness
  only, so a negative dimension counts as present. A rectangle or ellipse
  with dimensions of opposite signs has a negative area. The one-dimension
  shapes square the value, so their areas are never negative.
- The deduction type is a string. Only `"percentage"` takes the percentage
  branch, and every other value takes the fixed branch.

## Model

| member | source | states |
|---|---|---|
| `ShapeArea.CalculateArea` | src/components/ShapeSelector.tsx:29-60 | a non-zero area implies that every field the shape reads parses to a non-NaN, non-zero number |
| `ShapeArea.Dimensions.With` | src/components/ShapeSelector.tsx:63 | the spread update sets the edited field to the new text and leaves every other field as it was |
| `ShapeArea.Cleared` | src/components/ShapeSelector.tsx:17-25 | the initial and reset record has all seven fields empty |
| `ShapeArea.Coefficient` | src/components/ShapeSelector.tsx:42-55 | each formula's constant factor (1, π, 3√3/2, √(25+10√5)/4) is positive, given a positive π and a square root that is positive on positive numbers |
| `ShapeArea.RectangleArea` | src/components/ShapeSelector.tsx:31-34 | with both sides parsed, the area is length × width when both are non-zero, and exactly 0 when either is zero |
| `ShapeArea.RectangleNaN` | src/components/ShapeSelector.tsx:31-34 | a rectangle with either side NaN has area 0 |
| `ShapeArea.NegativeRectangle` | src/components/ShapeSelector.tsx:34 | the guard tests truthiness, not sign: sides of opposite signs, in either order, give a negative area |
| `ShapeArea.NegativeEllipse` | src/components/ShapeSelector.tsx:47 | with π positive, axes of opposite signs, in either order, give a negative ellipse area |
| `ShapeArea.EllipseArea` | src/components/ShapeSelector.tsx:44-47 | the ellipse area is π × axisA × axisB when both axes are truthy, and exactly 0 otherwise |
| `ShapeArea.OneDimensionalArea` | src/components/ShapeSelector.tsx:36-55 | for square, circle, hexagon and pentagon the area is 0 when the one dimension is NaN or 0; otherwise it is the coefficient times the dimension squared, and strictly positive even for a negative dimension |
| `ShapeArea.OneDimensionalAreaNonNegative` | src/components/ShapeSelector.tsx:36-55 | square, circle, hexagon and pentagon areas are never negative |
| `ShapeArea.AreaReadsOnlyItsKeys` | src/components/ShapeSelector.tsx:29-59 | two records that agree on the fields a shape reads give that shape the same area |
| `ShapeArea.UnreadFieldEdit` | src/components/ShapeSelector.tsx:49-55 | editing a field the shape does not read leaves its area unchanged; hexagon and pentagon both read only `size` |
| `ShapeArea.ClearedAreaIsZero` | src/components/ShapeSelector.tsx:72-82 | with every field empty, each shape's area is 0, because the empty string parses to NaN |
| `ShapeArea.ShapeExamples` | src/components/ShapeSelector.tsx:31-55 | given how the strings parse: rectangle 10×5 is 50, square 4 is 16, circle 7 is 49π, ellipse 3×2 is 6π, hexagon 2 is 6√3, pentagon 1 is √(25+10√5)/4 |
| `ShapeArea.ShapeSelector.constructor` | src/components/ShapeSelector.tsx:16-25 | the selector starts on rectangle with every field empty |
| `ShapeArea.ShapeSelector.HandleDimensionChange` | src/components/ShapeSelector.tsx:62-67 | only the edited field changes, the shape stays, and the reported value is the shape's area over the new record |
| `ShapeArea.ShapeSelector.HandleShapeChange` | src/components/ShapeSelector.tsx:69-83 | the shape becomes the chosen one, all seven fields are cleared, 0 is reported, and afterwards every shape's area is 0 whenever the empty string parses to NaN |
| `CarpetArea.Calculate` | src/components/CarpetAreaCalculator.tsx:29-65 | a successful result carries the parsed built-up area and deduction value and echoes the unit and deduction type |
| `CarpetArea.RejectsNonPositiveInput` | src/components/CarpetAreaCalculator.tsx:30-36 | the first check rejects (`InvalidNumbers`) exactly when the built-up area or the deduction is NaN, 0 or negative, whatever the mode; a zero deduction is rejected |
| `CarpetArea.PercentageBranch` | src/components/CarpetAreaCalculator.tsx:41-47 | past the first check, percentage mode is rejected (`PercentageAbove100`) exactly when the deduction is above 100; otherwise the deducted area is built-up × deduction / 100, and exactly 100 gives carpet area 0 |
| `CarpetArea.FixedBranch` | src/components/CarpetAreaCalculator.tsx:48-55 | past the first check, any other mode is rejected (`FixedNotBelowBuiltUp`) exactly when deduction ≥ built-up; otherwise the deducted area is the deduction and the carpet area is built-up − deduction > 0 |
| `CarpetArea.SuccessIsBalanced` | src/components/CarpetAreaCalculator.tsx:41-55 | on success deducted + carpet == built-up, 0 ≤ carpet < built-up and 0 < deducted ≤ built-up |
| `CarpetArea.FirstFailureWins` | src/components/CarpetAreaCalculator.tsx:33-45 | in percentage mode, built-up 0 with deduction 150 fails the positivity check, not the range check |
| `CarpetArea.CarpetExamples` | src/components/CarpetAreaCalculator.tsx:29-65 | 1000 at 20 % gives 200 deducted and 800 carpet; 1000 fixed 150 gives 150 and 850; 1000 at 150 % is rejected as out of range; 500 fixed 500 is rejected; built-up 0 fails the first check |
| `CarpetArea.PrintedAreaIsValidBuiltUp` | src/components/CarpetAreaCalculator.tsx:22-36 | a positive area whose printed form parses back to it always passes the built-up part of the first check, and it is the built-up area of any result computed from it |
| `JsRuntime.SomeRuntimeIsValid` | src/components/ShapeSelector.tsx:42-55 | some runtime has π positive, a square root positive on positive numbers and `parseFloat("")` NaN, so the facts proved under these assumptions are not vacuous |
| `CarpetArea.CarpetAreaCalculator.constructor` | src/components/CarpetAreaCalculator.tsx:14-20 | the initial state: empty inputs, percentage mode, sqft, no result, shape calculator off, shape area 0 |
| `CarpetArea.CarpetAreaCalculator.HandleShapeAreaChange` | src/components/CarpetAreaCalculator.tsx:22-27 | the shape area is always recorded; the built-up field is overwritten with the printed area only when it is positive, and then parses to that area whenever the printed form of the area parses back to it; the other fields are untouched |
| `CarpetArea.CarpetAreaCalculator.CalculateCarpetArea` | src/components/CarpetAreaCalculator.tsx:29-65 | a failed check returns its alert and leaves `results` and every other field unchanged; a success stores exactly the result of `Calculate`, which is balanced |
| `CarpetArea.CarpetAreaCalculator.ResetCalculator` | src/components/CarpetAreaCalculator.tsx:67-72 | built-up and deduction fields are cleared, the result is removed and the shape area is 0; the unit, deduction type and shape-calculator toggle are untouched |
| `CarpetArea.EditShapeDimension` | src/components/CarpetAreaCalculator.tsx:95-97 | with the shape-calculator toggle on and the selector's callback wired to the calculator, editing a field changes only that field of the selector, records the new shape area, overwrites the built-up field with the printed area exactly when that area is positive (it then parses to it whenever the area round-trips), and changes nothing else |

## Left out

- Rendering: the shape diagrams, the dimension inputs, the cards, selects and
  radio buttons, the `unitDisplay` label, the `Results` component and
  `toFixed(2)` formatting. These are markup with no logic.
- The form's `onChange` setters (built-up, deduction value, unit, deduction
  type, shape-calculator toggle). Each only assigns one field, and the class
  fields are public, so a caller can assign them directly.
- Navbar, Header, the two pages and the page's `handleAreaChange`, which
  only stores a value. These handle routing, theming and layout.
- IEEE-754 arithmetic: rounding, infinities, overflow and the sign of zero.
  Numbers are reals, and both −0 and 0 are the real 0.
- The exact values of π, √3 and √5. π is an arbitrary positive real, and
  `Math.sqrt` is any function that is positive on positive numbers.
- The grammar of `parseFloat` and the printed form of `toString`. These are
  library calls. The model keeps only `parseFloat("")` being NaN and, per
  value, `parseFloat` inverting `toString`.
- `alert()` dialogs. Each is a returned `Failure`.
- React's asynchronous, batched state updates. Setters are immediate field
  assignments.
- The `switch`'s `default: return 0`. It cannot be reached with the
  six-valued shape type.
- Keys outside the seven dimension fields in `handleDimensionChange`. The
  source only ever passes the seven literal keys.
