/** Shared vocabulary of the bootstrapper: optional values, results, the error
    taxonomy, and the small real-number helpers (`min`/`max` as Python has them). */
module Base {

  datatype Option<+T> = None | Some(value: T)

  /** A computation that either yields a value or raises one of the source's errors. */
  datatype Result<+T> = Ok(value: T) | Err(error: Error) {
    predicate IsFailure() { Err? }

    function PropagateFailure<U>(): Result<U>
      requires Err?
    {
      Err(error)
    }

    function Extract(): T
      requires Ok?
    {
      value
    }
  }

  /** The exceptions the bootstrapper raises, one constructor per raise site kind. */
  datatype Error =
    | MissingPrice                      // neither dirty nor clean price on a priced row
    | MissingOvernightRate              // an overnight row without its rate in dirty_price
    | InvalidPillars                    // a pillar discount factor <= 0 reaches the interpolator
    | MissingAnchorRate                 // an FRN row before any overnight rate or 1-day pillar
    | UnknownInstrumentType(kind: string)
    | DivisionByZero                    // Python float division by zero
    | MissingCoupon                     // a fixed bond whose coupon is not a number reaches the solver
    | NonNumericTenor                   // a tenor cell that does not coerce to a number
    | MissingColumns(names: set<string>)

  /** Python's `min(a, b)` on reals. */
  function Min(a: real, b: real): (r: real)
    ensures r <= a && r <= b && (r == a || r == b)
  {
    if b < a then b else a
  }

  /** Python's `max(a, b)` on reals. */
  function Max(a: real, b: real): (r: real)
    ensures r >= a && r >= b && (r == a || r == b)
  {
    if b > a then b else a
  }

  function Abs(x: real): (r: real)
    ensures r >= 0.0 && (r == x || r == -x)
  {
    if x < 0.0 then -x else x
  }

  /** `math.ceil` on a real. */
  function Ceil(x: real): (k: int)
    ensures k as real >= x && (k - 1) as real < x
  {
    -((-x).Floor)
  }

  ghost predicate StrictlyIncreasing(xs: seq<real>)
  {
    forall i, j :: 0 <= i < j < |xs| ==> xs[i] < xs[j]
  }
}
