/** The small part of the JavaScript runtime that the area engines call:
    `parseFloat`, `Number.prototype.toString`, `Math.PI` and `Math.sqrt`,
    together with JavaScript's truthiness test and its comparisons on numbers
    that may be NaN.

    Numbers are reals; NaN is `None`. The runtime functions are not defined
    here: they are handed to the engines as an `Env`. `Valid` and `RoundTrips`
    state the only facts about them that the engines rely on. */
module JsRuntime {

  datatype Option<+T> = None | Some(value: T)

  /** The runtime services the engines use. */
  datatype Env = Env(
    parseFloat: string -> Option<real>,  // None stands for NaN
    toString: real -> string,
    pi: real,
    sqrt: real -> real)

  /** What the engines assume of the runtime: the empty string parses to NaN,
      pi is positive, and the square root of a positive number is positive. */
  ghost predicate Valid(env: Env) {
    && env.parseFloat("") == None
    && env.pi > 0.0
    && (forall x: real :: x > 0.0 ==> env.sqrt(x) > 0.0)
  }

  /** Some runtime meets `Valid`, so the facts proved under it are not vacuous. */
  lemma SomeRuntimeIsValid()
    ensures Valid(Env(s => None, x => "", 3.0, x => 1.0))
  {
  }

  /** Parsing the printed form of `x` gives `x` back. No function from the
      reals into strings does this for every real, so it is stated per value. */
  predicate RoundTrips(env: Env, x: real) {
    env.parseFloat(env.toString(x)) == Some(x)
  }

  /** JavaScript truthiness of a number: NaN, 0 and -0 are falsy. */
  predicate Truthy(x: Option<real>) {
    x.Some? && x.value != 0.0
  }

  /** `x <= c` in JavaScript: false when x is NaN. */
  predicate AtMost(x: Option<real>, c: real) {
    x.Some? && x.value <= c
  }

  /** `x < c` in JavaScript: false when x is NaN. */
  predicate Below(x: Option<real>, c: real) {
    x.Some? && x.value < c
  }
}
