/** The carpet area engine: from the raw text of a built-up area and of a
    deduction (a percentage, or a fixed area in any other mode) it either
    rejects the input or computes how much is deducted and what carpet area
    remains, and the calculator component that keeps the form's fields, the
    last result, and the area reported by the shape selector. */
module CarpetArea {
  import opened JsRuntime
  import opened Arithmetic
  import ShapeArea

  /** The only deduction type with its own branch; every other value is a fixed deduction. */
  const PercentageMode := "percentage"

  /** The record shown after a successful calculation. */
  datatype CarpetResult = CarpetResult(
    builtUpArea: real,
    deductedArea: real,
    carpetArea: real,
    unit: string,
    deductionType: string,
    deductionValue: real)

  /** The three alerts of the calculation. */
  datatype Failure =
    | InvalidNumbers        // "Please enter valid positive numbers for all fields"
    | PercentageAbove100    // "Percentage cannot be more than 100%"
    | FixedNotBelowBuiltUp  // "Fixed deduction cannot be equal to or greater than built-up area"

  datatype Outcome = Success(result: CarpetResult) | Rejected(failure: Failure)

  /** A parsed number that is strictly positive (so neither NaN nor 0). */
  predicate Positive(x: Option<real>) {
    x.Some? && x.value > 0.0
  }

  /** The calculation behind the "Calculate Carpet Area" button. The checks run
      in order and the first that fails decides the alert. A successful result
      echoes the unit and deduction type and carries the parsed inputs. */
  function Calculate(parseFloat: string -> Option<real>, builtUpArea: string, deductionType: string,
                     deductionValue: string, unit: string): (o: Outcome)
    ensures o.Success? ==>
      && parseFloat(builtUpArea) == Some(o.result.builtUpArea)
      && parseFloat(deductionValue) == Some(o.result.deductionValue)
      && o.result.unit == unit
      && o.result.deductionType == deductionType
  {
    var builtUp := parseFloat(builtUpArea);
    var deduction := parseFloat(deductionValue);
    if !Truthy(builtUp) || !Truthy(deduction) || AtMost(builtUp, 0.0) || Below(deduction, 0.0) then
      Rejected(InvalidNumbers)
    else if deductionType == PercentageMode then
      if deduction.value > 100.0 then
        Rejected(PercentageAbove100)
      else
        var deductedArea := (builtUp.value * deduction.value) / 100.0;
        Success(CarpetResult(builtUp.value, deductedArea, builtUp.value - deductedArea,
                             unit, deductionType, deduction.value))
    else if deduction.value >= builtUp.value then
      Rejected(FixedNotBelowBuiltUp)
    else
      Success(CarpetResult(builtUp.value, deduction.value, builtUp.value - deduction.value,
                           unit, deductionType, deduction.value))
  }

  /** The breakdown adds up and stays within the built-up area. */
  predicate Balanced(r: CarpetResult) {
    && r.deductedArea + r.carpetArea == r.builtUpArea
    && 0.0 <= r.carpetArea < r.builtUpArea
    && 0.0 < r.deductedArea <= r.builtUpArea
  }

  /** The first check rejects exactly the inputs where the built-up area or the
      deduction is not a strictly positive number: NaN, 0 (a zero deduction
      included) or negative. */
  lemma RejectsNonPositiveInput(parseFloat: string -> Option<real>, builtUpArea: string,
                                deductionType: string, deductionValue: string, unit: string)
    ensures Calculate(parseFloat, builtUpArea, deductionType, deductionValue, unit) == Rejected(InvalidNumbers)
        <==> !(Positive(parseFloat(builtUpArea)) && Positive(parseFloat(deductionValue)))
  {
  }

  /** Percentage mode, past the first check: a deduction above 100 is rejected,
      anything else deducts that percentage of the built-up area, and exactly
      100 leaves a carpet area of 0. */
  lemma PercentageBranch(parseFloat: string -> Option<real>, builtUpArea: string,
                       deductionValue: string, unit: string, b: real, d: real)
    requires parseFloat(builtUpArea) == Some(b) && parseFloat(deductionValue) == Some(d)
    requires b > 0.0 && d > 0.0
    ensures var o := Calculate(parseFloat, builtUpArea, PercentageMode, deductionValue, unit);
      && (o.Rejected? <==> d > 100.0)
      && (o.Rejected? ==> o.failure == PercentageAbove100)
      && (o.Success? ==> o.result.deductedArea == b * d / 100.0)
      && (d == 100.0 ==> o.Success? && o.result.carpetArea == 0.0)
  {
  }

  /** Any mode other than percentage, past the first check: a deduction not
      below the built-up area is rejected; otherwise exactly that amount is
      deducted and a positive carpet area remains. */
  lemma FixedBranch(parseFloat: string -> Option<real>, builtUpArea: string, deductionType: string,
                  deductionValue: string, unit: string, b: real, d: real)
    requires parseFloat(builtUpArea) == Some(b) && parseFloat(deductionValue) == Some(d)
    requires b > 0.0 && d > 0.0 && deductionType != PercentageMode
    ensures var o := Calculate(parseFloat, builtUpArea, deductionType, deductionValue, unit);
      && (o.Rejected? <==> d >= b)
      && (o.Rejected? ==> o.failure == FixedNotBelowBuiltUp)
      && (o.Success? ==> o.result.deductedArea == d && o.result.carpetArea == b - d)
      && (o.Success? ==> o.result.carpetArea > 0.0)
  {
  }

  /** Every successful result, in either mode, is balanced. */
  lemma SuccessIsBalanced(parseFloat: string -> Option<real>, builtUpArea: string, deductionType: string,
                          deductionValue: string, unit: string)
    ensures var o := Calculate(parseFloat, builtUpArea, deductionType, deductionValue, unit);
      o.Success? ==> Balanced(o.result)
  {
    var o := Calculate(parseFloat, builtUpArea, deductionType, deductionValue, unit);
    if o.Success? && deductionType == PercentageMode {
      var b, d := o.result.builtUpArea, o.result.deductionValue;
      var product := b * d;
      ProductPositive(b, d, product);
      ProductNonNegative(b, 100.0 - d, b * 100.0 - product);
    }
  }

  /** The checks run in order: built-up 0 with a 150 percent deduction fails the
      first check, not the percentage range. */
  lemma FirstFailureWins(parseFloat: string -> Option<real>, builtUpArea: string,
                         deductionValue: string, unit: string)
    requires parseFloat(builtUpArea) == Some(0.0) && parseFloat(deductionValue) == Some(150.0)
    ensures Calculate(parseFloat, builtUpArea, PercentageMode, deductionValue, unit) == Rejected(InvalidNumbers)
  {
  }

  /** Worked examples, given how the strings parse. */
  lemma CarpetExamples(parseFloat: string -> Option<real>)
    requires parseFloat("1000") == Some(1000.0) && parseFloat("20") == Some(20.0)
    requires parseFloat("150") == Some(150.0) && parseFloat("500") == Some(500.0)
    requires parseFloat("0") == Some(0.0) && parseFloat("10") == Some(10.0)
    ensures Calculate(parseFloat, "1000", PercentageMode, "20", "sqft")
         == Success(CarpetResult(1000.0, 200.0, 800.0, "sqft", PercentageMode, 20.0))
    ensures Calculate(parseFloat, "1000", "fixed", "150", "sqft")
         == Success(CarpetResult(1000.0, 150.0, 850.0, "sqft", "fixed", 150.0))
    ensures Calculate(parseFloat, "1000", PercentageMode, "150", "sqft") == Rejected(PercentageAbove100)
    ensures Calculate(parseFloat, "500", "fixed", "500", "sqft") == Rejected(FixedNotBelowBuiltUp)
    ensures Calculate(parseFloat, "0", PercentageMode, "10", "sqft") == Rejected(InvalidNumbers)
  {
  }

  /** A positive area whose printed form parses back to it always passes the
      built-up half of the first check, and is the built-up area of any result
      computed from it. */
  lemma PrintedAreaIsValidBuiltUp(env: Env, a: real, deductionType: string, deductionValue: string, unit: string)
    requires RoundTrips(env, a) && a > 0.0
    ensures var o := Calculate(env.parseFloat, env.toString(a), deductionType, deductionValue, unit);
      && (o == Rejected(InvalidNumbers) <==> !Positive(env.parseFloat(deductionValue)))
      && (o.Success? ==> o.result.builtUpArea == a)
  {
    RejectsNonPositiveInput(env.parseFloat, env.toString(a), deductionType, deductionValue, unit);
  }

  /** The calculator component's state. */
  class CarpetAreaCalculator {
    const env: Env
    var builtUpArea: string
    var deductionType: string
    var deductionValue: string
    var unit: string
    var results: Option<CarpetResult>
    var useShapeCalculator: bool
    var shapeArea: real

    constructor (env: Env)
      ensures this.env == env
      ensures builtUpArea == "" && deductionType == PercentageMode && deductionValue == ""
      ensures unit == "sqft" && results == None && !useShapeCalculator && shapeArea == 0.0
    {
      this.env := env;
      builtUpArea := "";
      deductionType := PercentageMode;
      deductionValue := "";
      unit := "sqft";
      results := None;
      useShapeCalculator := false;
      shapeArea := 0.0;
    }

    /** The shape selector's callback: always records the area, and replaces
        the built-up field by its printed form only when the area is positive,
        so that the field then parses to exactly that area whenever its
        printed form parses back to it. */
    method HandleShapeAreaChange(area: real)
      modifies this`shapeArea, this`builtUpArea
      ensures shapeArea == area
      ensures builtUpArea == if area > 0.0 then env.toString(area) else old(builtUpArea)
      ensures area > 0.0 && RoundTrips(env, area) ==> env.parseFloat(builtUpArea) == Some(area)
    {
      shapeArea := area;
      if area > 0.0 {
        builtUpArea := env.toString(area);
      }
    }

    /** The "Calculate Carpet Area" button. On a failed check it returns the
        alert and changes nothing; on success it stores the new result. */
    method CalculateCarpetArea() returns (alert: Option<Failure>)
      modifies this`results
      ensures var o := Calculate(env.parseFloat, builtUpArea, deductionType, deductionValue, unit);
        && (o.Rejected? ==> alert == Some(o.failure) && results == old(results))
        && (o.Success? ==> alert == None && results == Some(o.result))
      ensures results != old(results) ==> results.Some? && Balanced(results.value)
    {
      var builtUp := env.parseFloat(builtUpArea);
      var deduction := env.parseFloat(deductionValue);

      if !Truthy(builtUp) || !Truthy(deduction) || AtMost(builtUp, 0.0) || Below(deduction, 0.0) {
        return Some(InvalidNumbers);
      }

      var carpetArea: real;
      var deductedArea: real;

      if deductionType == PercentageMode {
        if deduction.value > 100.0 {
          return Some(PercentageAbove100);
        }
        deductedArea := (builtUp.value * deduction.value) / 100.0;
        carpetArea := builtUp.value - deductedArea;
      } else {
        if deduction.value >= builtUp.value {
          return Some(FixedNotBelowBuiltUp);
        }
        deductedArea := deduction.value;
        carpetArea := builtUp.value - deduction.value;
      }

      results := Some(CarpetResult(builtUp.value, deductedArea, carpetArea,
                                   unit, deductionType, deduction.value));
      alert := None;
      SuccessIsBalanced(env.parseFloat, builtUpArea, deductionType, deductionValue, unit);
    }

    /** The "Reset" button: clears both inputs, the result and the shape area,
        and keeps the unit, the deduction type and the shape-calculator toggle. */
    method ResetCalculator()
      modifies this`builtUpArea, this`deductionValue, this`results, this`shapeArea
      ensures builtUpArea == "" && deductionValue == "" && results == None && shapeArea == 0.0
      ensures unit == old(unit) && deductionType == old(deductionType)
      ensures useShapeCalculator == old(useShapeCalculator)
    {
      builtUpArea := "";
      deductionValue := "";
      results := None;
      shapeArea := 0.0;
    }
  }

  /** The shape selector, shown while the shape-calculator toggle is on, wired
      to the calculator with `onAreaChange` set to `HandleShapeAreaChange`:
      editing a dimension field records the new shape area in the calculator,
      and a positive area replaces the built-up field with its printed form. */
  method EditShapeDimension(calculator: CarpetAreaCalculator, selector: ShapeArea.ShapeSelector,
                            key: ShapeArea.DimKey, value: string)
    requires calculator.useShapeCalculator
    modifies calculator`shapeArea, calculator`builtUpArea, selector`dimensions
    ensures selector.dimensions == old(selector.dimensions).With(key, value)
    ensures calculator.shapeArea == ShapeArea.CalculateArea(selector.env, selector.selectedShape, selector.dimensions)
    ensures calculator.builtUpArea ==
      if calculator.shapeArea > 0.0 then calculator.env.toString(calculator.shapeArea) else old(calculator.builtUpArea)
    ensures calculator.shapeArea > 0.0 && RoundTrips(calculator.env, calculator.shapeArea) ==>
      calculator.env.parseFloat(calculator.builtUpArea) == Some(calculator.shapeArea)
  {
    var area := selector.HandleDimensionChange(key, value);
    calculator.HandleShapeAreaChange(area);
  }
}
