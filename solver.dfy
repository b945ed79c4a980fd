/** `_solve_df_T_loglinear_generic`: the discount factor at maturity `t` that
    reprices the flows after the last pillar `s`, with flows between `s` and `t`
    discounted log-linearly between DF(s) and the unknown DF(t). */
module Solver {
  import opened Base
  import opened Numerics

  /** The discount factor `pv_given_dfT` applies to a flow at `time`: log-linear
      between `(s, e^lnS)` and `(t, dfT)`, and `dfT` itself from `t - 1e-12` on. */
  function FlowDf(n: Numerics, lnS: real, s: real, t: real, dfT: real, time: real): real
    requires s < t
  {
    if time < t - Tol then
      var w := (time - s) / (t - s);
      n.exp((1.0 - w) * lnS + w * n.ln(dfT))
    else dfT
  }

  /** The present value of `flows` given DF(t) = dfT (summed in list order). */
  function FutureValue(n: Numerics, lnS: real, s: real, t: real, flows: seq<Flow>, dfT: real): real
    requires s < t
  {
    if flows == [] then 0.0
    else
      var f := flows[|flows| - 1];
      FutureValue(n, lnS, s, t, flows[..|flows| - 1], dfT) + Discounted(f, FlowDf(n, lnS, s, t, dfT, f.time))
  }

  /** `pv_given_dfT`: the known part plus the future flows; a non-positive
      candidate prices at the known part alone. */
  function Pv(n: Numerics, pre: real, dfS: real, s: real, t: real, flows: seq<Flow>, dfT: real): real
    requires s < t
  {
    if dfT <= 0.0 then pre else pre + FutureValue(n, n.ln(dfS), s, t, flows, dfT)
  }

  /** The loop of `pv_given_dfT`. */
  method PvGivenDfT(n: Numerics, pre: real, dfS: real, s: real, t: real, flows: seq<Flow>, dfT: real)
    returns (pv: real)
    requires s < t
    ensures pv == Pv(n, pre, dfS, s, t, flows, dfT)
  {
    if dfT <= 0.0 {
      return pre;
    }
    var lnS := n.ln(dfS);
    pv := pre;
    var i := 0;
    while i < |flows|
      invariant 0 <= i <= |flows|
      invariant pv == pre + FutureValue(n, lnS, s, t, flows[..i], dfT)
    {
      var f := flows[i];
      var dft := FlowDf(n, lnS, s, t, dfT, f.time);
      assert flows[..i + 1][..i] == flows[..i] && flows[..i + 1][i] == f;
      assert FutureValue(n, lnS, s, t, flows[..i + 1], dfT)
          == FutureValue(n, lnS, s, t, flows[..i], dfT) + Discounted(f, dft);
      pv := pv + f.amount * dft;
      i := i + 1;
    }
    assert flows[..|flows|] == flows;
  }

  /** True when the pricing error changes sign (or vanishes) across `[1e-14, dfS]`,
      so that `brentq` is called. */
  predicate Brackets(n: Numerics, price: real, pre: real, dfS: real, s: real, t: real, flows: seq<Flow>)
    requires s < t
  {
    SignChange(Pv(n, pre, dfS, s, t, flows, Lo) - price, Pv(n, pre, dfS, s, t, flows, dfS) - price)
  }

  /** `not f_lo * f_hi > 0`: the two pricing errors do not share a strict sign. */
  predicate SignChange(fLo: real, fHi: real)
  {
    !(fLo * fHi > 0.0)
  }

  /** A larger candidate DF(t) gives every flow after `s` a discount factor at
      least as large. */
  lemma FlowDfMonotone(n: Numerics, lnS: real, s: real, t: real, time: real, d1: real, d2: real)
    requires ExpMonotone(n) && LnInvertsExp(n)
    requires s < t && s <= time && 0.0 < d1 <= d2
    ensures FlowDf(n, lnS, s, t, d1, time) <= FlowDf(n, lnS, s, t, d2, time)
  {
    if time < t - Tol {
      var w := (time - s) / (t - s);
      assert w >= 0.0;
      LnMonotone(n, d1, d2);
      assert w * n.ln(d1) <= w * n.ln(d2);
      assert (1.0 - w) * lnS + w * n.ln(d1) <= (1.0 - w) * lnS + w * n.ln(d2);
    }
  }

  /** With non-negative amounts and each flow's discount factor at least as large
      under `d2` as under `d1`, the future value under `d2` is at least as large. */
  lemma {:induction false} FutureValueMonotone(n: Numerics, lnS: real, s: real, t: real, flows: seq<Flow>, d1: real, d2: real)
    requires s < t
    requires forall i :: 0 <= i < |flows| ==> flows[i].amount >= 0.0
    requires forall i :: 0 <= i < |flows| ==>
               FlowDf(n, lnS, s, t, d1, flows[i].time) <= FlowDf(n, lnS, s, t, d2, flows[i].time)
    ensures FutureValue(n, lnS, s, t, flows, d1) <= FutureValue(n, lnS, s, t, flows, d2)
  {
    if flows != [] {
      var init, f := flows[..|flows| - 1], flows[|flows| - 1];
      assert forall i :: 0 <= i < |init| ==> init[i] == flows[i];
      FutureValueMonotone(n, lnS, s, t, init, d1, d2);
      FutureValueSnoc(n, lnS, s, t, flows, d1);
      FutureValueSnoc(n, lnS, s, t, flows, d2);
      var x1, x2 := FlowDf(n, lnS, s, t, d1, f.time), FlowDf(n, lnS, s, t, d2, f.time);
      NonNegativeScale(f.amount, x1, x2);
      assert Discounted(f, x1) <= Discounted(f, x2);
    }
  }

  lemma FutureValueSnoc(n: Numerics, lnS: real, s: real, t: real, flows: seq<Flow>, d: real)
    requires s < t && flows != []
    ensures FutureValue(n, lnS, s, t, flows, d)
         == FutureValue(n, lnS, s, t, flows[..|flows| - 1], d)
            + Discounted(flows[|flows| - 1], FlowDf(n, lnS, s, t, d, flows[|flows| - 1].time))
  {}

  /** `FlowDfMonotone` for every flow of a schedule that lies after `s`. */
  lemma FlowDfsMonotone(n: Numerics, lnS: real, s: real, t: real, flows: seq<Flow>, d1: real, d2: real)
    requires ExpMonotone(n) && LnInvertsExp(n)
    requires s < t && 0.0 < d1 <= d2
    requires forall i :: 0 <= i < |flows| ==> flows[i].time >= s
    ensures forall i :: 0 <= i < |flows| ==>
              FlowDf(n, lnS, s, t, d1, flows[i].time) <= FlowDf(n, lnS, s, t, d2, flows[i].time)
  {
    forall i | 0 <= i < |flows|
      ensures FlowDf(n, lnS, s, t, d1, flows[i].time) <= FlowDf(n, lnS, s, t, d2, flows[i].time)
    {
      FlowDfMonotone(n, lnS, s, t, flows[i].time, d1, d2);
    }
  }

  lemma NonNegativeScale(a: real, x: real, y: real)
    requires a >= 0.0 && x <= y
    ensures a * x <= a * y
  {}

  /** `pv_given_dfT` is monotone in the candidate DF(t) on `(0, inf)` when every
      future amount is non-negative: the function `brentq` searches has at most
      one sign change there. */
  lemma PvMonotone(n: Numerics, pre: real, dfS: real, s: real, t: real, flows: seq<Flow>, d1: real, d2: real)
    requires ExpMonotone(n) && LnInvertsExp(n)
    requires s < t && 0.0 < d1 <= d2
    requires forall i :: 0 <= i < |flows| ==> flows[i].amount >= 0.0 && flows[i].time >= s
    ensures Pv(n, pre, dfS, s, t, flows, d1) <= Pv(n, pre, dfS, s, t, flows, d2)
  {
    FlowDfsMonotone(n, n.ln(dfS), s, t, flows, d1, d2);
    FutureValueMonotone(n, n.ln(dfS), s, t, flows, d1, d2);
  }

  /** The fallback's forward-flat log-slope from `s`, never above -1e-12. */
  function FlatSlope(n: Numerics, dfS: real, s: real): (m: real)
    ensures m <= -Tol
  {
    Min(-Tol, n.ln(dfS) / Max(s, 1.0))
  }

  /** The fallback's value of `flows` with every flow discounted forward-flat from `s`. */
  function FlatValue(n: Numerics, dfS: real, m: real, s: real, flows: seq<Flow>): real
  {
    if flows == [] then 0.0
    else
      var f := flows[|flows| - 1];
      FlatValue(n, dfS, m, s, flows[..|flows| - 1]) + Discounted(f, FlatDf(n, dfS, m, s, f.time))
  }

  /** A flow's present value under discount factor `df`. */
  function Discounted(f: Flow, df: real): real
  {
    f.amount * df
  }

  /** The fallback's discount factor at `time`: DF(s) carried forward at log-slope `m`. */
  function FlatDf(n: Numerics, dfS: real, m: real, s: real, time: real): real
  {
    dfS * n.exp(m * (time - s))
  }

  /** The loop of the fallback that accumulates `sum_unk_ff`. */
  method ForwardFlatSum(n: Numerics, dfS: real, s: real, flows: seq<Flow>) returns (sum: real)
    ensures sum == FlatValue(n, dfS, FlatSlope(n, dfS, s), s, flows)
  {
    var m := FlatSlope(n, dfS, s);
    sum := 0.0;
    var i := 0;
    while i < |flows|
      invariant 0 <= i <= |flows|
      invariant sum == FlatValue(n, dfS, m, s, flows[..i])
    {
      var f := flows[i];
      assert flows[..i + 1][..i] == flows[..i] && flows[..i + 1][i] == f;
      assert FlatValue(n, dfS, m, s, flows[..i + 1])
          == FlatValue(n, dfS, m, s, flows[..i]) + Discounted(f, FlatDf(n, dfS, m, s, f.time));
      sum := sum + f.amount * FlatDf(n, dfS, m, s, f.time);
      i := i + 1;
    }
    assert flows[..|flows|] == flows;
  }

  /** `max(1e-14, min(residual / last, hi))` in numpy arithmetic: dividing by a zero
      last amount gives +inf (clamped to `hi`) for a positive residual and -inf or
      nan (both clamped to 1e-14) otherwise. */
  function FallbackDf(residual: real, last: real, hi: real): (r: real)
    ensures Lo <= r <= Max(Lo, hi)
    ensures Lo <= hi ==> r <= hi
    ensures last != 0.0 && Lo <= residual / last <= hi ==> r == residual / last
  {
    if last != 0.0 then Max(Lo, Min(residual / last, hi))
    else if residual > 0.0 then Max(Lo, hi)
    else Lo
  }

  /** The fallback exactly as written: the forward-flat value of ALL unknown flows,
      the final one included, is taken off the price before dividing by the final
      amount. */
  function FallbackAsWritten(n: Numerics, price: real, pre: real, dfS: real, s: real, flows: seq<Flow>): (r: real)
    requires flows != []
    ensures Lo <= r && (Lo <= dfS ==> r <= dfS)
  {
    var unknown := FlatValue(n, dfS, FlatSlope(n, dfS, s), s, flows);
    FallbackDf(price - pre - unknown, flows[|flows| - 1].amount, dfS)
  }

  /** The fallback as intended: only the flows before the final one are priced
      forward-flat, and the final flow (at maturity) absorbs the residual. */
  function Fallback(n: Numerics, price: real, pre: real, dfS: real, s: real, flows: seq<Flow>): (r: real)
    requires flows != []
    ensures Lo <= r && (Lo <= dfS ==> r <= dfS)
  {
    var unknown := FlatValue(n, dfS, FlatSlope(n, dfS, s), s, flows[..|flows| - 1]);
    FallbackDf(price - pre - unknown, flows[|flows| - 1].amount, dfS)
  }

  /** When the clamp does not bind, the intended fallback reprices the instrument:
      known part + forward-flat earlier flows + final amount * DF(t) == price. */
  lemma FallbackReprices(n: Numerics, price: real, pre: real, dfS: real, s: real, flows: seq<Flow>)
    requires flows != []
    requires flows[|flows| - 1].amount != 0.0
    requires var init := flows[..|flows| - 1];
             var x := (price - pre - FlatValue(n, dfS, FlatSlope(n, dfS, s), s, init)) / flows[|flows| - 1].amount;
             Lo <= x <= dfS
    ensures pre + FlatValue(n, dfS, FlatSlope(n, dfS, s), s, flows[..|flows| - 1])
            + flows[|flows| - 1].amount * Fallback(n, price, pre, dfS, s, flows) == price
  {
    var a := flows[|flows| - 1].amount;
    var residual := price - pre - FlatValue(n, dfS, FlatSlope(n, dfS, s), s, flows[..|flows| - 1]);
    assert Fallback(n, price, pre, dfS, s, flows) == residual / a;
    assert a * (residual / a) == residual;
  }

  /** The fallback's division before clamping, with `unknown` the forward-flat
      value taken off the price. */
  function Unclamped(price: real, pre: real, unknown: real, last: Flow): real
    requires last.amount != 0.0
  {
    (price - pre - unknown) / last.amount
  }

  /** The as-written fallback misses the intended one by the forward-flat discount
      factor of the final flow, before clamping; so whenever the intended value is
      not clamped, the as-written one does not reprice the instrument. */
  lemma FallbackAsWrittenDoubleCounts(n: Numerics, price: real, pre: real, dfS: real, s: real, flows: seq<Flow>)
    requires ExpPositive(n) && dfS > 0.0
    requires flows != [] && flows[|flows| - 1].amount != 0.0
    ensures var m, last := FlatSlope(n, dfS, s), flows[|flows| - 1];
            var written := Unclamped(price, pre, FlatValue(n, dfS, m, s, flows), last);
            var intended := Unclamped(price, pre, FlatValue(n, dfS, m, s, flows[..|flows| - 1]), last);
            written == intended - FlatDf(n, dfS, m, s, last.time) && written < intended
  {
    var m := FlatSlope(n, dfS, s);
    var last := flows[|flows| - 1];
    var init := FlatValue(n, dfS, m, s, flows[..|flows| - 1]);
    var ff := FlatDf(n, dfS, m, s, last.time);
    FlatDfPositive(n, dfS, m, s, last.time);
    FlatValueSnoc(n, dfS, m, s, flows);
    UnclampedShift(price, pre, init, last, ff);
  }

  /** A bond with only its final flow left, priced above that flow's value at
      DF(S) (by half its forward-flat value): the bracket fails, the intended
      solver answers DF(S), and the solver as written answers a strictly
      smaller DF (so the two solvers disagree on it). */
  lemma FallbackAsWrittenMisprices(n: Numerics, a: real, dfS: real, s: real, t: real)
    requires ExpPositive(n) && a > 0.0 && Lo < dfS && s + Tol < t
    ensures var ff := FlatDf(n, dfS, FlatSlope(n, dfS, s), s, t);
            var price := a * dfS + a * ff / 2.0;
            var flows := [Flow(t, a)];
            && !Brackets(n, price, 0.0, dfS, s, t, flows)
            && SolveDfT(n, price, 0.0, dfS, s, t, flows) == dfS
            && FallbackAsWritten(n, price, 0.0, dfS, s, flows) < dfS
            && SolveDfTAsWritten(n, price, 0.0, dfS, s, t, flows) < SolveDfT(n, price, 0.0, dfS, s, t, flows)
  {
    var m := FlatSlope(n, dfS, s);
    var ff := FlatDf(n, dfS, m, s, t);
    var price := a * dfS + a * ff / 2.0;
    var flows := [Flow(t, a)];
    FlatDfPositive(n, dfS, m, s, t);
    assert flows[..0] == [];
    var lnS := n.ln(dfS);
    assert FlowDf(n, lnS, s, t, Lo, t) == Lo && FlowDf(n, lnS, s, t, dfS, t) == dfS;
    assert FutureValue(n, lnS, s, t, flows, Lo) == FutureValue(n, lnS, s, t, [], Lo) + a * Lo;
    assert FutureValue(n, lnS, s, t, flows, dfS) == FutureValue(n, lnS, s, t, [], dfS) + a * dfS;
    assert Pv(n, 0.0, dfS, s, t, flows, Lo) == a * Lo;
    assert Pv(n, 0.0, dfS, s, t, flows, dfS) == a * dfS;
    NegativeProduct(a * Lo - price, a * dfS - price);
    assert price / a == dfS + ff / 2.0;
    assert FlatValue(n, dfS, m, s, flows) == a * ff;
    assert (price - 0.0 - a * ff) / a == dfS - ff / 2.0;
  }

  lemma NegativeProduct(x: real, y: real)
    requires x < 0.0 && y < 0.0
    ensures x * y > 0.0
  {}

  lemma UnclampedShift(price: real, pre: real, v: real, last: Flow, f: real)
    requires last.amount != 0.0 && f > 0.0
    ensures Unclamped(price, pre, v + Discounted(last, f), last) == Unclamped(price, pre, v, last) - f
    ensures Unclamped(price, pre, v + Discounted(last, f), last) < Unclamped(price, pre, v, last)
  {
    ShiftedQuotient(price - pre, v, last.amount, f);
  }

  lemma FlatDfPositive(n: Numerics, dfS: real, m: real, s: real, time: real)
    requires ExpPositive(n) && dfS > 0.0
    ensures FlatDf(n, dfS, m, s, time) > 0.0
  {
    PositiveProduct(dfS, n.exp(m * (time - s)));
  }

  lemma FlatValueSnoc(n: Numerics, dfS: real, m: real, s: real, flows: seq<Flow>)
    requires flows != []
    ensures FlatValue(n, dfS, m, s, flows)
         == FlatValue(n, dfS, m, s, flows[..|flows| - 1])
            + Discounted(flows[|flows| - 1], FlatDf(n, dfS, m, s, flows[|flows| - 1].time))
  {}

  lemma PositiveProduct(x: real, y: real)
    requires x > 0.0 && y > 0.0
    ensures x * y > 0.0
  {}

  lemma ShiftedQuotient(p: real, v: real, a: real, f: real)
    requires a != 0.0 && f > 0.0
    ensures (p - (v + a * f)) / a == (p - v) / a - f
    ensures (p - (v + a * f)) / a < (p - v) / a
  {
    assert (p - (v + a * f)) == (p - v) - a * f;
    assert ((p - v) - a * f) / a == (p - v) / a - f;
  }

  /** The value the solver returns (with the intended fallback). */
  function SolveDfT(n: Numerics, price: real, pre: real, dfS: real, s: real, t: real, flows: seq<Flow>): (r: real)
    requires flows != []
    ensures t <= s + Tol ==> r == dfS
    ensures Lawful(n) && t > s + Tol ==> Min(Lo, dfS) <= r <= Max(Lo, dfS)
    ensures t > s + Tol && !Brackets(n, price, pre, dfS, s, t, flows) ==> Lo <= r && (Lo <= dfS ==> r <= dfS)
  {
    if t <= s + Tol then dfS
    else if !Brackets(n, price, pre, dfS, s, t, flows) then Fallback(n, price, pre, dfS, s, flows)
    else n.brent(RootProblem(price, pre, dfS, s, t, flows))
  }

  /** The solver with the intended fallback: the degenerate guard, two pricings
      for the bracket test, then either `brentq` or the forward-flat fallback over
      the flows before the final one. */
  method Solve(n: Numerics, price: real, pre: real, dfS: real, s: real, t: real, flows: seq<Flow>)
    returns (dfT: real)
    requires flows != []
    ensures dfT == SolveDfT(n, price, pre, dfS, s, t, flows)
  {
    if t <= s + Tol {
      return dfS;
    }
    var pvLo := PvGivenDfT(n, pre, dfS, s, t, flows, Lo);
    var pvHi := PvGivenDfT(n, pre, dfS, s, t, flows, dfS);
    var fLo, fHi := pvLo - price, pvHi - price;
    if !SignChange(fLo, fHi) {
      var unknown := ForwardFlatSum(n, dfS, s, flows[..|flows| - 1]);
      dfT := FallbackDf(price - pre - unknown, flows[|flows| - 1].amount, dfS);
    } else {
      dfT := n.brent(RootProblem(price, pre, dfS, s, t, flows));
    }
  }

  /** The value the solver returns with the fallback exactly as written. */
  function SolveDfTAsWritten(n: Numerics, price: real, pre: real, dfS: real, s: real, t: real, flows: seq<Flow>): (r: real)
    requires flows != []
    ensures t <= s + Tol ==> r == dfS
    ensures Lawful(n) && t > s + Tol ==> Min(Lo, dfS) <= r <= Max(Lo, dfS)
    ensures t > s + Tol && Brackets(n, price, pre, dfS, s, t, flows) ==> r == SolveDfT(n, price, pre, dfS, s, t, flows)
  {
    if t <= s + Tol then dfS
    else if !Brackets(n, price, pre, dfS, s, t, flows) then FallbackAsWritten(n, price, pre, dfS, s, flows)
    else n.brent(RootProblem(price, pre, dfS, s, t, flows))
  }

  /** The solver as written: as `Solve`, except that the fallback loop runs over
      every unknown flow, the final one included. */
  method SolveAsWritten(n: Numerics, price: real, pre: real, dfS: real, s: real, t: real, flows: seq<Flow>)
    returns (dfT: real)
    requires flows != []
    ensures dfT == SolveDfTAsWritten(n, price, pre, dfS, s, t, flows)
  {
    if t <= s + Tol {
      return dfS;
    }
    var pvLo := PvGivenDfT(n, pre, dfS, s, t, flows, Lo);
    var pvHi := PvGivenDfT(n, pre, dfS, s, t, flows, dfS);
    var fLo, fHi := pvLo - price, pvHi - price;
    if !SignChange(fLo, fHi) {
      var unknown := ForwardFlatSum(n, dfS, s, flows);
      dfT := FallbackDf(price - pre - unknown, flows[|flows| - 1].amount, dfS);
    } else {
      dfT := n.brent(RootProblem(price, pre, dfS, s, t, flows));
    }
  }
}
