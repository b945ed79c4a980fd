/** The floating-point primitives the bootstrapper borrows from numpy and SciPy.
    They are not defined here: every operation that needs them takes a `Numerics`
    record as a parameter, and `Lawful` lists the only facts the proofs rely on. */
module Numerics {
  import opened Base

  /** One cash flow of a schedule: `amount` paid at `time` days. */
  datatype Flow = Flow(time: real, amount: real)

  /** What `brentq` is handed: the pricing data of the `pv_given_dfT` closure and
      the bracket `[Lo, dfS]`. */
  datatype RootProblem = RootProblem(
    price: real, preKnown: real, dfS: real, s: real, t: real, flows: seq<Flow>)

  /** Lower end of the solver's bracket (1e-14). */
  const Lo: real := 1e-14

  /** The tenor tolerance and the floor of every solved discount factor (1e-12). */
  const Tol: real := 1e-12

  /** The day-count basis of every money-market conversion. */
  const DayCount: real := 360.0

  datatype Numerics = Numerics(
    exp: real -> real,          // np.exp
    ln: real -> real,           // np.log
    pow: (real, real) -> real,  // ** with a real exponent
    round2: real -> real,       // round(x, 2)
    brent: RootProblem -> real, // scipy.optimize.brentq
    parse: string -> Option<real>) // pd.to_numeric(errors="coerce") on one text cell

  /** The facts about the primitives that the model uses: exp is positive and
      monotone, ln inverts it on the positive reals, a positive base raised to any
      power is positive, and brentq answers inside its bracket. */
  ghost predicate Lawful(n: Numerics)
  {
    && ExpPositive(n)
    && ExpMonotone(n)
    && LnInvertsExp(n)
    && (forall b, e :: b > 0.0 ==> n.pow(b, e) > 0.0)
    && (forall p: RootProblem :: Min(Lo, p.dfS) <= n.brent(p) <= Max(Lo, p.dfS))
  }

  ghost predicate ExpPositive(n: Numerics)
  {
    forall x :: n.exp(x) > 0.0
  }

  ghost predicate ExpMonotone(n: Numerics)
  {
    forall x, y :: x <= y ==> n.exp(x) <= n.exp(y)
  }

  ghost predicate LnInvertsExp(n: Numerics)
  {
    forall y :: y > 0.0 ==> n.exp(n.ln(y)) == y
  }

  /** ln is monotone on the positive reals, as the inverse of a monotone exp. */
  lemma LnMonotone(n: Numerics, a: real, b: real)
    requires ExpMonotone(n) && LnInvertsExp(n)
    requires 0.0 < a <= b
    ensures n.ln(a) <= n.ln(b)
  {
  }
}
