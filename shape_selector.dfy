/** The shape area engine: the area of a rectangle, square, circle, ellipse,
    regular hexagon or regular pentagon from the raw text of its dimensions,
    and the selector component that keeps the chosen shape and a record of
    seven dimension fields and reports the area whenever one of them changes. */
module ShapeArea {
  import opened JsRuntime
  import opened Arithmetic

  datatype Shape = Rectangle | Square | Circle | Ellipse | Hexagon | Pentagon

  /** The seven dimension fields of the selector. */
  datatype DimKey = Length | Width | Radius | AxisA | AxisB | Side | Size

  /** The raw text of every dimension field. */
  datatype Dimensions = Dimensions(
    length: string, width: string, radius: string,
    axisA: string, axisB: string, side: string, size: string)
  {
    function Get(k: DimKey): string {
      match k
      case Length => length
      case Width => width
      case Radius => radius
      case AxisA => axisA
      case AxisB => axisB
      case Side => side
      case Size => size
    }

    /** The record with field `k` replaced by `v`, as `{ ...dims, [k]: v }`. */
    function With(k: DimKey, v: string): (r: Dimensions)
      ensures r.Get(k) == v
      ensures forall j :: j != k ==> r.Get(j) == Get(j)
    {
      match k
      case Length => this.(length := v)
      case Width => this.(width := v)
      case Radius => this.(radius := v)
      case AxisA => this.(axisA := v)
      case AxisB => this.(axisB := v)
      case Side => this.(side := v)
      case Size => this.(size := v)
    }
  }

  /** Every field empty: the initial record and the one a shape change installs. */
  function Cleared(): (d: Dimensions)
    ensures forall k :: d.Get(k) == ""
  {
    Dimensions("", "", "", "", "", "", "")
  }

  /** The dimension fields each shape's formula reads. */
  function ReadKeys(shape: Shape): set<DimKey> {
    match shape
    case Rectangle => {Length, Width}
    case Square => {Side}
    case Circle => {Radius}
    case Ellipse => {AxisA, AxisB}
    case Hexagon => {Size}
    case Pentagon => {Size}
  }

  /** The area of `shape`, or 0 whenever a dimension it reads is NaN or zero.
      The tests are truthiness tests only: a negative dimension still counts. */
  function CalculateArea(env: Env, shape: Shape, dims: Dimensions): (r: real)
    ensures r != 0.0 ==> forall k :: k in ReadKeys(shape) ==> Truthy(env.parseFloat(dims.Get(k)))
  {
    match shape
    case Rectangle => RectangleFormula(env.parseFloat(dims.length), env.parseFloat(dims.width))
    case Square => SquareFormula(env.parseFloat(dims.side))
    case Circle => CircleFormula(env, env.parseFloat(dims.radius))
    case Ellipse => EllipseFormula(env, env.parseFloat(dims.axisA), env.parseFloat(dims.axisB))
    case Hexagon => HexagonFormula(env, env.parseFloat(dims.size))
    case Pentagon => PentagonFormula(env, env.parseFloat(dims.size))
  }

  // The guarded expression of each case, over the parsed dimensions.

  function RectangleFormula(length: Option<real>, width: Option<real>): real {
    if Truthy(length) && Truthy(width) then length.value * width.value else 0.0
  }

  function SquareFormula(side: Option<real>): real {
    if Truthy(side) then side.value * side.value else 0.0
  }

  function CircleFormula(env: Env, radius: Option<real>): real {
    if Truthy(radius) then env.pi * radius.value * radius.value else 0.0
  }

  function EllipseFormula(env: Env, axisA: Option<real>, axisB: Option<real>): real {
    if Truthy(axisA) && Truthy(axisB) then env.pi * axisA.value * axisB.value else 0.0
  }

  function HexagonFormula(env: Env, hexSide: Option<real>): real {
    if Truthy(hexSide) then (3.0 * env.sqrt(3.0) / 2.0) * hexSide.value * hexSide.value else 0.0
  }

  function PentagonFormula(env: Env, pentSide: Option<real>): real {
    if Truthy(pentSide)
    then (1.0 / 4.0) * env.sqrt(25.0 + 10.0 * env.sqrt(5.0)) * pentSide.value * pentSide.value
    else 0.0
  }

  /** The shapes whose area is a constant times the square of one dimension. */
  predicate OneDimensional(shape: Shape) {
    shape in {Square, Circle, Hexagon, Pentagon}
  }

  /** The one field a one-dimensional shape reads. */
  function TheKey(shape: Shape): (k: DimKey)
    requires OneDimensional(shape)
    ensures ReadKeys(shape) == {k}
  {
    match shape
    case Square => Side
    case Circle => Radius
    case Hexagon => Size
    case Pentagon => Size
  }

  /** The constant factor of each area formula, as the geometry gives it:
      1 for rectangle and square, pi for circle and ellipse, 3*sqrt(3)/2 for
      the regular hexagon and (1/4)*sqrt(25 + 10*sqrt(5)) for the regular pentagon. */
  function Coefficient(env: Env, shape: Shape): (c: real)
    requires Valid(env)
    ensures c > 0.0
  {
    match shape
    case Rectangle => 1.0
    case Square => 1.0
    case Circle => env.pi
    case Ellipse => env.pi
    case Hexagon => 3.0 * env.sqrt(3.0) / 2.0
    case Pentagon =>
      assert env.sqrt(5.0) > 0.0;
      (1.0 / 4.0) * env.sqrt(25.0 + 10.0 * env.sqrt(5.0))
  }

  /** A rectangle's area is length times width when both are non-zero numbers, and 0 otherwise. */
  lemma RectangleArea(env: Env, dims: Dimensions, l: real, w: real)
    requires env.parseFloat(dims.length) == Some(l) && env.parseFloat(dims.width) == Some(w)
    ensures l != 0.0 && w != 0.0 ==> CalculateArea(env, Rectangle, dims) == l * w
    ensures l == 0.0 || w == 0.0 ==> CalculateArea(env, Rectangle, dims) == 0.0
  {
  }

  /** A rectangle with a NaN side has area 0. */
  lemma RectangleNaN(env: Env, dims: Dimensions)
    requires env.parseFloat(dims.length) == None || env.parseFloat(dims.width) == None
    ensures CalculateArea(env, Rectangle, dims) == 0.0
  {
  }

  /** The guard tests truthiness, not sign: one negative and one positive side
      give a negative rectangle area rather than 0. */
  lemma NegativeRectangle(env: Env, dims: Dimensions, l: real, w: real)
    requires env.parseFloat(dims.length) == Some(l) && env.parseFloat(dims.width) == Some(w)
    requires (l < 0.0 < w) || (w < 0.0 < l)
    ensures CalculateArea(env, Rectangle, dims) < 0.0
  {
    RectangleArea(env, dims, l, w);
    var area := CalculateArea(env, Rectangle, dims);
    if l < 0.0 {
      ProductNegative(l, w, area);
    } else {
      ProductNegative(w, l, area);
    }
  }

  /** The same holds for the ellipse: axes of opposite signs give a negative area. */
  lemma NegativeEllipse(env: Env, dims: Dimensions, a: real, b: real)
    requires env.pi > 0.0
    requires env.parseFloat(dims.axisA) == Some(a) && env.parseFloat(dims.axisB) == Some(b)
    requires (a < 0.0 < b) || (b < 0.0 < a)
    ensures CalculateArea(env, Ellipse, dims) < 0.0
  {
    var area := CalculateArea(env, Ellipse, dims);
    var pa := env.pi * a;
    assert area == pa * b;
    if a < 0.0 {
      ProductNegative(a, env.pi, pa);
      ProductNegative(pa, b, area);
    } else {
      ProductPositive(env.pi, a, pa);
      ProductNegative(b, pa, area);
    }
  }

  /** An ellipse's area is pi times the two axes when both are non-zero numbers, and 0 otherwise. */
  lemma EllipseArea(env: Env, dims: Dimensions)
    ensures var a, b := env.parseFloat(dims.axisA), env.parseFloat(dims.axisB);
      if Truthy(a) && Truthy(b)
      then CalculateArea(env, Ellipse, dims) == env.pi * a.value * b.value
      else CalculateArea(env, Ellipse, dims) == 0.0
  {
  }

  /** Square, circle, hexagon and pentagon: 0 when their one dimension is NaN
      or zero, and otherwise the coefficient times the dimension squared, which
      is positive even for a negative dimension. */
  lemma OneDimensionalArea(env: Env, shape: Shape, dims: Dimensions)
    requires Valid(env) && OneDimensional(shape)
    ensures var d := env.parseFloat(dims.Get(TheKey(shape)));
      !Truthy(d) ==> CalculateArea(env, shape, dims) == 0.0
    ensures var d := env.parseFloat(dims.Get(TheKey(shape)));
      Truthy(d) ==> CalculateArea(env, shape, dims) == Coefficient(env, shape) * d.value * d.value
    ensures var d := env.parseFloat(dims.Get(TheKey(shape)));
      Truthy(d) ==> CalculateArea(env, shape, dims) > 0.0
  {
    var d := env.parseFloat(dims.Get(TheKey(shape)));
    if Truthy(d) {
      var v := d.value;
      var area := CalculateArea(env, shape, dims);
      match shape
      case Square =>
        assert Coefficient(env, shape) * v * v == v * v;
        SquarePositive(v, area);
      case Circle =>
        PositiveTimesSquare(env.pi, v, area);
      case Hexagon =>
        PositiveTimesSquare(3.0 * env.sqrt(3.0) / 2.0, v, area);
      case Pentagon =>
        PositiveTimesSquare((1.0 / 4.0) * env.sqrt(25.0 + 10.0 * env.sqrt(5.0)), v, area);
    }
  }

  /** Square, circle, hexagon and pentagon areas are never negative. */
  lemma OneDimensionalAreaNonNegative(env: Env, shape: Shape, dims: Dimensions)
    requires Valid(env) && OneDimensional(shape)
    ensures CalculateArea(env, shape, dims) >= 0.0
  {
    OneDimensionalArea(env, shape, dims);
  }

  /** The area depends only on the fields its shape reads. */
  lemma AreaReadsOnlyItsKeys(env: Env, shape: Shape, d1: Dimensions, d2: Dimensions)
    requires forall k :: k in ReadKeys(shape) ==> d1.Get(k) == d2.Get(k)
    ensures CalculateArea(env, shape, d1) == CalculateArea(env, shape, d2)
  {
    match shape
    case Rectangle => assert d1.Get(Length) == d2.Get(Length) && d1.Get(Width) == d2.Get(Width);
    case Square => assert d1.Get(Side) == d2.Get(Side);
    case Circle => assert d1.Get(Radius) == d2.Get(Radius);
    case Ellipse => assert d1.Get(AxisA) == d2.Get(AxisA) && d1.Get(AxisB) == d2.Get(AxisB);
    case Hexagon => assert d1.Get(Size) == d2.Get(Size);
    case Pentagon => assert d1.Get(Size) == d2.Get(Size);
  }

  /** Editing a field the active shape does not read leaves its area unchanged;
      hexagon and pentagon read the same field, `size`. */
  lemma UnreadFieldEdit(env: Env, shape: Shape, dims: Dimensions, k: DimKey, v: string)
    requires k !in ReadKeys(shape)
    ensures CalculateArea(env, shape, dims.With(k, v)) == CalculateArea(env, shape, dims)
    ensures ReadKeys(Hexagon) == ReadKeys(Pentagon) == {Size}
  {
    AreaReadsOnlyItsKeys(env, shape, dims.With(k, v), dims);
  }

  /** With every field empty, every shape's area is 0, because `parseFloat("")` is NaN. */
  lemma ClearedAreaIsZero(env: Env, shape: Shape)
    requires env.parseFloat("") == None
    ensures CalculateArea(env, shape, Cleared()) == 0.0
  {
  }

  /** The worked examples: a 10 by 5 rectangle, a square of side 4, a circle of
      radius 7, a 3 by 2 ellipse, a hexagon of size 2 and a pentagon of size 1. */
  lemma ShapeExamples(env: Env, dims: Dimensions)
    requires dims == Dimensions("10", "5", "7", "3", "2", "4", "2")
    requires env.parseFloat("10") == Some(10.0) && env.parseFloat("5") == Some(5.0)
    requires env.parseFloat("7") == Some(7.0) && env.parseFloat("3") == Some(3.0)
    requires env.parseFloat("2") == Some(2.0) && env.parseFloat("4") == Some(4.0)
    requires env.parseFloat("1") == Some(1.0)
    ensures CalculateArea(env, Rectangle, dims) == 50.0
    ensures CalculateArea(env, Square, dims) == 16.0
    ensures CalculateArea(env, Circle, dims) == 49.0 * env.pi
    ensures CalculateArea(env, Ellipse, dims) == 6.0 * env.pi
    ensures CalculateArea(env, Hexagon, dims) == 6.0 * env.sqrt(3.0)
    ensures CalculateArea(env, Pentagon, dims.(size := "1")) == env.sqrt(25.0 + 10.0 * env.sqrt(5.0)) / 4.0
  {
  }

  /** The selector component: the chosen shape and the seven dimension fields.
      Each handler returns the value it passes to the `onAreaChange` callback. */
  class ShapeSelector {
    const env: Env
    var selectedShape: Shape
    var dimensions: Dimensions

    constructor (env: Env)
      ensures this.env == env
      ensures selectedShape == Rectangle && dimensions == Cleared()
    {
      this.env := env;
      selectedShape := Rectangle;
      dimensions := Cleared();
    }

    /** Sets field `key` to `value`, keeps every other field and the shape, and
        reports the area of the shape over the new fields. */
    method HandleDimensionChange(key: DimKey, value: string) returns (reported: real)
      modifies this`dimensions
      ensures dimensions == old(dimensions).With(key, value)
      ensures dimensions.Get(key) == value
      ensures forall j :: j != key ==> dimensions.Get(j) == old(dimensions).Get(j)
      ensures reported == CalculateArea(env, selectedShape, dimensions)
    {
      var newDimensions := dimensions.With(key, value);
      dimensions := newDimensions;
      var area := CalculateArea(env, selectedShape, newDimensions);
      reported := area;
    }

    /** Selects `shape`, clears all seven fields and reports 0; afterwards
        every shape's area over the fields is 0. */
    method HandleShapeChange(shape: Shape) returns (reported: real)
      modifies this`selectedShape, this`dimensions
      ensures selectedShape == shape && dimensions == Cleared()
      ensures reported == 0.0
      ensures env.parseFloat("") == None ==> forall s :: CalculateArea(env, s, dimensions) == 0.0
    {
      selectedShape := shape;
      var resetDimensions := Cleared();
      dimensions := resetDimensions;
      if env.parseFloat("") == None {
        forall s ensures CalculateArea(env, s, dimensions) == 0.0 {
          ClearedAreaIsZero(env, s);
        }
      }
      reported := 0.0;
    }
  }
}
