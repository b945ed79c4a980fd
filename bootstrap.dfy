/** `bootstrap_from_curve_df`: one valuation date's rows, sorted by tenor, are
    walked once; each row adds or overwrites one pillar of the discount-factor
    map, and the pillars are finally turned into money-market zero rates. */
module Bootstrap {
  import opened Base
  import opened Numerics
  import opened LogLinearCurve
  import opened Solver
  import opened Instruments

  /** The run's mutable state: the pillar map (tenor in days to discount factor)
      and the cached overnight rate in percent. */
  datatype State = State(pillars: map<real, real>, onRate: Option<real>)

  /** `pillars = {0.0: 1.0}` and no overnight rate yet. */
  const Initial: State := State(map[0.0 := 1.0], None)

  /** The seed tenor 0 is a key of the map; no step ever removes it. */
  predicate Seeded(st: State)
  {
    0.0 in st.pillars
  }

  /** `pillars[t] = ...`: the map after a step is the map before with the key `t`
      set, and nothing else touched. */
  predicate UpdatesOnly(before: map<real, real>, after: map<real, real>, t: real)
  {
    t in after && after == before[t := after[t]]
  }

  /** Setting one key adds at most that key and keeps every other value. */
  lemma UpdatesOnlyKeys(before: map<real, real>, after: map<real, real>, t: real)
    requires UpdatesOnly(before, after, t)
    ensures after.Keys == before.Keys + {t}
    ensures forall k :: k in before && k != t ==> after[k] == before[k]
  {}

  // ---------------------------------------------------------------------------
  // The overnight rate used by the FRNs
  // ---------------------------------------------------------------------------

  /** The overnight rate in percent implied by a one-day discount factor. */
  function ImpliedOvernightPct(df1: real): real
    requires df1 != 0.0
  {
    ((1.0 / df1) - 1.0) * DayCount / 1.0 * 100.0
  }

  /** `_ensure_on_rate_pct`: the cached rate; else one derived from a pillar at
      exactly one day, which is then cached; else an error. */
  function EnsureOnRate(n: Numerics, st: State): (r: Result<State>)
    ensures st.onRate.Some? ==> r == Ok(st)
    ensures st.onRate.None? && 1.0 !in st.pillars ==> r == Err(MissingAnchorRate)
    ensures st.onRate.None? && 1.0 in st.pillars && st.pillars[1.0] == 0.0 ==> r == Err(DivisionByZero)
    ensures st.onRate.None? && 1.0 in st.pillars && st.pillars[1.0] != 0.0 ==>
              r == Ok(State(st.pillars, Some(n.round2(ImpliedOvernightPct(st.pillars[1.0])))))
    ensures r.Ok? ==> r.value.pillars == st.pillars && r.value.onRate.Some?
  {
    if st.onRate.Some? then Ok(st)
    else if 1.0 !in st.pillars then Err(MissingAnchorRate)
    else if st.pillars[1.0] == 0.0 then Err(DivisionByZero)
    else Ok(State(st.pillars, Some(n.round2(ImpliedOvernightPct(st.pillars[1.0])))))
  }

  /** The one-day discount factor an overnight row stores. */
  function OvernightDf(rate: real): real
    requires 1.0 + rate * (1.0 / DayCount) != 0.0
  {
    1.0 / (1.0 + rate * (1.0 / DayCount))
  }

  /** Reading the rate back from a one-day pillar recovers the overnight rate the
      pillar was built from (before rounding), so a 1-day pillar is an anchor as
      good as the overnight row itself. */
  lemma ImpliedRateRecoversOvernight(rate: real)
    requires 1.0 + rate * (1.0 / DayCount) != 0.0
    ensures OvernightDf(rate) != 0.0
    ensures ImpliedOvernightPct(OvernightDf(rate)) == rate * 100.0
  {
    var den := 1.0 + rate * (1.0 / DayCount);
    var df := OvernightDf(rate);
    assert df * den == 1.0;
    assert 1.0 / df == den;
  }

  // ---------------------------------------------------------------------------
  // Splitting a schedule at the last pillar S
  // ---------------------------------------------------------------------------

  /** `pre_known_sum`: the flows at or before `S + 1e-12` discounted on the
      current curve. */
  function KnownValue(n: Numerics, c: Curve, s: real, flows: seq<Flow>): real
    requires Valid(n, c)
  {
    if flows == [] then 0.0
    else
      var last := flows[|flows| - 1];
      KnownValue(n, c, s, flows[..|flows| - 1])
      + (if last.time <= s + Tol then Discounted(last, DfAt(n, c, last.time)) else 0.0)
  }

  predicate IncreasingTimes(flows: seq<Flow>)
  {
    forall i, j :: 0 <= i < j < |flows| ==> flows[i].time < flows[j].time
  }

  /** `future_times` / `future_amts`: the flows after `S + 1e-12`, in order. */
  function FutureFlows(s: real, flows: seq<Flow>): (r: seq<Flow>)
    ensures |r| <= |flows|
    ensures forall i :: 0 <= i < |r| ==> r[i].time > s + Tol
    ensures flows != [] && flows[|flows| - 1].time > s + Tol ==> r != [] && r[|r| - 1] == flows[|flows| - 1]
  {
    if flows == [] then []
    else
      var init, last := flows[..|flows| - 1], flows[|flows| - 1];
      var r0 := FutureFlows(s, init);
      if last.time <= s + Tol then r0 else r0 + [last]
  }

  /** The future flows are exactly the flows after `S + 1e-12`: none is dropped
      and none is invented. */
  lemma {:induction false} FutureFlowsMembers(s: real, flows: seq<Flow>)
    ensures forall f :: f in FutureFlows(s, flows) <==> f in flows && f.time > s + Tol
    decreases |flows|
  {
    if flows != [] {
      var init, last := flows[..|flows| - 1], flows[|flows| - 1];
      assert flows == init + [last];
      FutureFlowsMembers(s, init);
    }
  }

  /** A bound on every payment time is a bound on every future payment time. */
  lemma {:induction false} FutureFlowsBelow(s: real, flows: seq<Flow>, b: real)
    requires forall i :: 0 <= i < |flows| ==> flows[i].time < b
    ensures forall i :: 0 <= i < |FutureFlows(s, flows)| ==> FutureFlows(s, flows)[i].time < b
    decreases |flows|
  {
    if flows != [] {
      var init := flows[..|flows| - 1];
      assert forall i :: 0 <= i < |init| ==> init[i] == flows[i];
      FutureFlowsBelow(s, init, b);
    }
  }

  /** The split keeps the schedule's order: increasing payment times stay
      increasing in the future list. */
  lemma {:induction false} FutureFlowsOrdered(s: real, flows: seq<Flow>)
    requires IncreasingTimes(flows)
    ensures IncreasingTimes(FutureFlows(s, flows))
    decreases |flows|
  {
    if flows != [] {
      var init, last := flows[..|flows| - 1], flows[|flows| - 1];
      assert forall i :: 0 <= i < |init| ==> init[i] == flows[i];
      FutureFlowsOrdered(s, init);
      if last.time > s + Tol {
        FutureFlowsBelow(s, init, last.time);
        var r0 := FutureFlows(s, init);
        var r := r0 + [last];
        assert FutureFlows(s, flows) == r;
        forall i, j | 0 <= i < j < |r| ensures r[i].time < r[j].time {
          assert r[i] == r0[i];
          if j < |r0| { assert r[j] == r0[j]; }
        }
      }
    }
  }

  /** A schedule in time order whose last payment is after `S + 1e-12` gives the
      solver a non-empty future list in time order ending with that payment. */
  lemma LastFlowFuture(s: real, fs: seq<Flow>)
    requires fs != [] && fs[|fs| - 1].time > s + Tol
    requires forall i, j :: 0 <= i < j < |fs| ==> fs[i].time < fs[j].time
    ensures var future := FutureFlows(s, fs);
            IncreasingTimes(future) && future != [] && future[|future| - 1] == fs[|fs| - 1]
  {
    FutureFlowsOrdered(s, fs);
  }

  /** For an FRN whose maturity is beyond the curve, the solver receives the
      payments in time order and the last one is the maturity payment, which is
      the flow the fallback divides by. */
  lemma FrnFutureFlowsShape(n: Numerics, t: real, rPct: real, sPct: real, s: real)
    requires t > 0.0 && t > s + Tol
    ensures var fs := FrnFlows(t, FrnCouponParams(n, t, rPct, sPct));
            var future := FutureFlows(s, fs);
            && IncreasingTimes(future)
            && future != [] && future[|future| - 1] == fs[|fs| - 1] && future[|future| - 1].time == t
  {
    var fs := FrnFlows(t, FrnCouponParams(n, t, rPct, sPct));
    FrnScheduleShape(n, t, rPct, sPct);
    FrnTimesIncreasing(n, t, rPct, sPct);
    LastFlowFuture(s, fs);
  }

  /** The same for an MBONO: the coupons after S in order, then the final flow
      at maturity. */
  lemma FixedFutureFlowsShape(t: real, couponPct: real, s: real)
    ensures var sch := FixedBondSchedule(t, couponPct);
            var future := FutureFlows(s, sch.coupons) + [sch.final];
            IncreasingTimes(future) && future[|future| - 1].time == t
  {
    var sch := FixedBondSchedule(t, couponPct);
    FixedScheduleShape(t, couponPct);
    var cs := sch.coupons;
    assert IncreasingTimes(cs) by {
      forall i, j | 0 <= i < j < |cs| ensures cs[i].time < cs[j].time {
        assert cs[i].time == CouponPeriod * (i + 1) as real;
        assert cs[j].time == CouponPeriod * (j + 1) as real;
      }
    }
    FutureFlowsOrdered(s, cs);
    FutureFlowsBelow(s, cs, t);
    var f := FutureFlows(s, cs);
    var future := f + [sch.final];
    forall i, j | 0 <= i < j < |future| ensures future[i].time < future[j].time {
      assert future[i] == f[i];
      if j < |f| { assert future[j] == f[j]; }
    }
  }

  /** When every flow lies beyond `S + 1e-12` nothing is known and all flows are
      passed to the solver unchanged. */
  lemma AllFutureWhenBeyond(n: Numerics, c: Curve, s: real, flows: seq<Flow>)
    requires Valid(n, c)
    requires forall i :: 0 <= i < |flows| ==> flows[i].time > s + Tol
    ensures KnownValue(n, c, s, flows) == 0.0
    ensures FutureFlows(s, flows) == flows
  {
    NothingKnown(n, c, s, flows);
    AllFuture(s, flows);
  }

  lemma {:induction false} NothingKnown(n: Numerics, c: Curve, s: real, flows: seq<Flow>)
    requires Valid(n, c)
    requires forall i :: 0 <= i < |flows| ==> flows[i].time > s + Tol
    ensures KnownValue(n, c, s, flows) == 0.0
  {
    if flows != [] {
      var init := flows[..|flows| - 1];
      forall i | 0 <= i < |init| ensures init[i].time > s + Tol {
        assert init[i] == flows[i];
      }
      NothingKnown(n, c, s, init);
    }
  }

  lemma {:induction false} AllFuture(s: real, flows: seq<Flow>)
    requires forall i :: 0 <= i < |flows| ==> flows[i].time > s + Tol
    ensures FutureFlows(s, flows) == flows
  {
    if flows != [] {
      var init := flows[..|flows| - 1];
      forall i | 0 <= i < |init| ensures init[i].time > s + Tol {
        assert init[i] == flows[i];
      }
      AllFuture(s, init);
      assert init + [flows[|flows| - 1]] == flows;
    }
  }

  /** The loop that splits a schedule into the known value and the future flows. */
  method Partition(n: Numerics, c: Curve, s: real, flows: seq<Flow>) returns (pre: real, future: seq<Flow>)
    requires Valid(n, c)
    ensures pre == KnownValue(n, c, s, flows)
    ensures future == FutureFlows(s, flows)
  {
    pre, future := 0.0, [];
    var i := 0;
    while i < |flows|
      invariant 0 <= i <= |flows|
      invariant pre == KnownValue(n, c, s, flows[..i])
      invariant future == FutureFlows(s, flows[..i])
    {
      var f := flows[i];
      assert flows[..i + 1][..i] == flows[..i];
      if f.time <= s + Tol {
        pre := pre + Discounted(f, DfAt(n, c, f.time));
      } else {
        future := future + [f];
      }
      i := i + 1;
    }
    assert flows[..i] == flows;
  }

  // ---------------------------------------------------------------------------
  // The four families
  // ---------------------------------------------------------------------------

  /** `max(1e-12, min(df_T, df(S)))`: the solved DF is kept at or below the DF at
      the last pillar and never below 1e-12. */
  function Clamp(dfT: real, dfS: real): (r: real)
    ensures Tol <= r
    ensures Tol <= dfS ==> r <= dfS
    ensures Tol <= dfT <= dfS ==> r == dfT
    ensures r <= Max(Tol, dfS)
  {
    Max(Tol, Min(dfT, dfS))
  }

  /** The overnight rate as given: a value above 1 is read as a percentage. */
  function OvernightRate(raw: real): (rate: real)
    ensures raw <= 1.0 ==> rate == raw
    ensures raw > 1.0 ==> rate * 100.0 == raw
  {
    if raw > 1.0 then raw / 100.0 else raw
  }

  /** The overnight anchor: the row's `dirty_price` carries the annual rate. */
  function OvernightStep(n: Numerics, st: State, row: Row): (r: Result<State>)
    ensures row.dirty.None? ==> r == Err(MissingOvernightRate)
    ensures r.Err? ==> r.error == MissingOvernightRate || r.error == DivisionByZero
    ensures r.Ok? ==> row.dirty.Some? && UpdatesOnly(st.pillars, r.value.pillars, row.tenor)
                      && var rate := OvernightRate(row.dirty.value);
                      && r.value.pillars[row.tenor] * (1.0 + rate / DayCount) == 1.0
                      && r.value.onRate == Some(n.round2(rate * 100.0))
  {
    match row.dirty
    case None => Err(MissingOvernightRate)
    case Some(raw) =>
      var rate := OvernightRate(raw);
      if 1.0 + rate * (1.0 / DayCount) == 0.0 then Err(DivisionByZero)
      else
        var df := OvernightDf(rate);
        assert df * (1.0 + rate * (1.0 / DayCount)) == 1.0;
        Ok(State(st.pillars[row.tenor := df], Some(n.round2(rate * 100.0))))
  }

  /** CETES: face 10, so the discount factor is the price over 10. */
  function ZeroStep(st: State, row: Row): (r: Result<State>)
    ensures r.Err? <==> PickPrice(row).Err?
    ensures r.Ok? ==> r.value == State(st.pillars[row.tenor := PickPrice(row).value / 10.0], st.onRate)
                      && r.value.pillars[row.tenor] * 10.0 == PickPrice(row).value
  {
    var price :- PickPrice(row);
    Ok(State(st.pillars[row.tenor := price / 10.0], st.onRate))
  }

  /** The DF at `T` of a coupon instrument: read off the curve when `T` is not
      beyond the last pillar, otherwise solved from the price. */
  function CouponDf(n: Numerics, c: Curve, price: real, s: real, t: real, known: real, future: seq<Flow>): real
    requires Valid(n, c) && future != []
  {
    if t <= s + Tol then DfAt(n, c, t)
    else SolveDfT(n, price, known, DfAt(n, c, s), s, t, future)
  }

  /** MBONOS: price, schedule, curve on the current pillars, split at S, solve,
      clamp. A coupon that is not a number only matters when the solver runs. */
  function FixedStep(n: Numerics, st: State, row: Row): (r: Result<State>)
    requires Seeded(st)
    ensures r.Ok? ==> UpdatesOnly(st.pillars, r.value.pillars, row.tenor) && r.value.onRate == st.onRate
    ensures r.Ok? ==> BuildCurve(n, st.pillars).Ok?
                      && var dfS := DfAt(n, BuildCurve(n, st.pillars).value, MaxKey(st.pillars));
                      && var v := r.value.pillars[row.tenor];
                      && Tol <= v && v <= Max(Tol, dfS) && (Tol <= dfS ==> v <= dfS)
  {
    var price :- PickPrice(row);
    var c :- BuildCurve(n, st.pillars);
    var s := MaxKey(st.pillars);
    var t := row.tenor;
    if t <= s + Tol then
      Ok(State(st.pillars[t := Clamp(DfAt(n, c, t), DfAt(n, c, s))], st.onRate))
    else if row.coupon.None? then Err(MissingCoupon)
    else
      var sch := FixedBondSchedule(t, row.coupon.value);
      var future := FutureFlows(s, sch.coupons) + [sch.final];
      var dfT := CouponDf(n, c, price, s, t, KnownValue(n, c, s, sch.coupons), future);
      Ok(State(st.pillars[t := Clamp(dfT, DfAt(n, c, s))], st.onRate))
  }

  /** BONDES D/F/G: overnight rate, spread, period arithmetic; a note with no
      period left copies the last pillar. */
  function FrnStep(n: Numerics, st: State, row: Row): (r: Result<State>)
    requires Seeded(st)
    ensures st.onRate.None? && 1.0 !in st.pillars ==> r == Err(MissingAnchorRate)
    ensures r.Ok? ==> UpdatesOnly(st.pillars, r.value.pillars, row.tenor) && r.value.onRate.Some?
    ensures r.Ok? ==> EnsureOnRate(n, st).Ok? && r.value.onRate == EnsureOnRate(n, st).value.onRate
    ensures r.Ok? && FrnPeriods(row.tenor) <= 0 ==> r.value.pillars[row.tenor] == st.pillars[MaxKey(st.pillars)]
  {
    var st1 :- EnsureOnRate(n, st);
    var p := FrnCouponParams(n, row.tenor, st1.onRate.value, NormalizeSpread(row.coupon));
    if p.k <= 0 then
      Ok(State(st1.pillars[row.tenor := st1.pillars[MaxKey(st1.pillars)]], st1.onRate))
    else
      FrnPillar(n, st1, row, p)
  }

  /** A BONDES with at least one period left: price, schedule, split, solve,
      clamp. */
  function FrnPillar(n: Numerics, st: State, row: Row, p: FrnTerms): (r: Result<State>)
    requires Seeded(st) && st.onRate.Some?
    requires p == FrnCouponParams(n, row.tenor, st.onRate.value, NormalizeSpread(row.coupon)) && p.k >= 1
    ensures r.Ok? ==> UpdatesOnly(st.pillars, r.value.pillars, row.tenor) && r.value.onRate == st.onRate
    ensures r.Ok? ==> BuildCurve(n, st.pillars).Ok?
                      && var dfS := DfAt(n, BuildCurve(n, st.pillars).value, MaxKey(st.pillars));
                      && var v := r.value.pillars[row.tenor];
                      && Tol <= v && v <= Max(Tol, dfS) && (Tol <= dfS ==> v <= dfS)
  {
    var rPct := st.onRate.value;
    var t := row.tenor;
    var price :- FrnPrice(row, Accrued(n, rPct, p.d));
    var flows := FrnFlows(t, p);
    var c :- BuildCurve(n, st.pillars);
    var s := MaxKey(st.pillars);
    if t <= s + Tol then
      Ok(State(st.pillars[t := Clamp(DfAt(n, c, t), DfAt(n, c, s))], st.onRate))
    else
      FrnFutureFlowsShape(n, t, rPct, NormalizeSpread(row.coupon), s);
      var dfT := CouponDf(n, c, price, s, t, KnownValue(n, c, s, flows), FutureFlows(s, flows));
      Ok(State(st.pillars[t := Clamp(dfT, DfAt(n, c, s))], st.onRate))
  }


  /** One pass of the row loop. Without an overnight row anywhere in the frame
      every row is skipped. */
  function Step(n: Numerics, anchored: bool, st: State, row: Row): (r: Result<State>)
    requires Seeded(st)
    ensures !anchored ==> r == Ok(st)
    ensures anchored && Classify(row.kind) == Unrecognised ==> r == Err(UnknownInstrumentType(Normalize(row.kind)))
    ensures anchored && Classify(row.kind) == ZeroCoupon ==> r == ZeroStep(st, row)
    ensures anchored && Classify(row.kind) == Overnight ==> r == OvernightStep(n, st, row)
    ensures anchored && Classify(row.kind) == FixedBond ==> r == FixedStep(n, st, row)
    ensures anchored && Classify(row.kind) == FloatingNote ==> r == FrnStep(n, st, row)
    ensures anchored && r.Ok? ==> UpdatesOnly(st.pillars, r.value.pillars, row.tenor)
    ensures r.Ok? ==> Seeded(r.value)
  {
    if !anchored then Ok(st)
    else
      match Classify(row.kind)
      case Overnight => OvernightStep(n, st, row)
      case ZeroCoupon => ZeroStep(st, row)
      case FixedBond => FixedStep(n, st, row)
      case FloatingNote => FrnStep(n, st, row)
      case Unrecognised => Err(UnknownInstrumentType(Normalize(row.kind)))
  }

  /** A loop body that accepts every seeded state and never loses the seed. */
  ghost predicate KeepsSeed(step: (State, Row) --> Result<State>)
  {
    forall st: State, row: Row ::
      Seeded(st) ==> step.requires(st, row) && (step(st, row).Ok? ==> Seeded(step(st, row).value))
  }

  /** A loop body that only ever sets the pillar at the row's tenor. */
  ghost predicate SetsOnlyTenor(step: (State, Row) --> Result<State>)
    requires KeepsSeed(step)
  {
    forall st: State, row: Row ::
      Seeded(st) && step(st, row).Ok? ==> UpdatesOnly(st.pillars, step(st, row).value.pillars, row.tenor)
  }

  /** The row loop over the sorted rows with a given body; the first error ends
      it. */
  function Fold(step: (State, Row) --> Result<State>, st: State, rows: seq<Row>): (r: Result<State>)
    requires KeepsSeed(step) && Seeded(st)
    ensures r.Ok? ==> Seeded(r.value)
    decreases |rows|
  {
    if rows == [] then Ok(st)
    else
      match step(st, rows[0])
      case Err(e) => Err(e)
      case Ok(st1) => Fold(step, st1, rows[1..])
  }

  function Tenors(rows: seq<Row>): set<real>
  {
    set i | 0 <= i < |rows| :: rows[i].tenor
  }

  /** A body that sets only the row's tenor makes the fold add exactly the rows'
      tenors to the keys and keep every value no row names. */
  lemma {:induction false} FoldKeys(step: (State, Row) --> Result<State>, st: State, rows: seq<Row>)
    requires KeepsSeed(step) && SetsOnlyTenor(step) && Seeded(st)
    requires Fold(step, st, rows).Ok?
    ensures var out := Fold(step, st, rows).value;
            && out.pillars.Keys == st.pillars.Keys + Tenors(rows)
            && forall k :: k in st.pillars && k !in Tenors(rows) ==> out.pillars[k] == st.pillars[k]
    decreases |rows|
  {
    if rows != [] {
      var st1 := step(st, rows[0]).value;
      UpdatesOnlyKeys(st.pillars, st1.pillars, rows[0].tenor);
      FoldKeys(step, st1, rows[1..]);
      assert Tenors(rows) == {rows[0].tenor} + Tenors(rows[1..]) by {
        forall x | x in Tenors(rows) ensures x in {rows[0].tenor} + Tenors(rows[1..]) {
          var i :| 0 <= i < |rows| && rows[i].tenor == x;
          if i > 0 { assert rows[1..][i - 1].tenor == x; }
        }
        forall x | x in Tenors(rows[1..]) ensures x in Tenors(rows) {
          var i :| 0 <= i < |rows[1..]| && rows[1..][i].tenor == x;
          assert rows[i + 1].tenor == x;
        }
      }
    }
  }

  /** A row on which the body fails from every seeded state makes the fold fail. */
  lemma {:induction false} FoldFails(step: (State, Row) --> Result<State>, st: State, rows: seq<Row>, i: nat)
    requires KeepsSeed(step) && Seeded(st)
    requires i < |rows| && forall st': State :: Seeded(st') ==> step(st', rows[i]).Err?
    ensures Fold(step, st, rows).Err?
    decreases |rows|
  {
    if i > 0 && step(st, rows[0]).Ok? {
      assert rows[1..][i - 1] == rows[i];
      FoldFails(step, step(st, rows[0]).value, rows[1..], i - 1);
    }
  }

  /** A body that returns its state unchanged makes the fold return it too. */
  lemma {:induction false} FoldIdle(step: (State, Row) --> Result<State>, st: State, rows: seq<Row>)
    requires KeepsSeed(step) && Seeded(st)
    requires forall st': State, row: Row :: Seeded(st') ==> step(st', row) == Ok(st')
    ensures Fold(step, st, rows) == Ok(st)
    decreases |rows|
  {
    if rows != [] {
      FoldIdle(step, st, rows[1..]);
    }
  }

  /** `Step` as a loop body. */
  function StepOf(n: Numerics, anchored: bool): (step: (State, Row) --> Result<State>)
    ensures KeepsSeed(step)
    ensures anchored ==> SetsOnlyTenor(step)
    ensures forall st: State, row: Row :: Seeded(st) ==> step(st, row) == Step(n, anchored, st, row)
  {
    (st: State, row: Row) requires Seeded(st) => Step(n, anchored, st, row)
  }

  /** The row loop of `bootstrap_from_curve_df`. */
  function Run(n: Numerics, anchored: bool, st: State, rows: seq<Row>): (r: Result<State>)
    requires Seeded(st)
    ensures r.Ok? ==> Seeded(r.value)
  {
    Fold(StepOf(n, anchored), st, rows)
  }

  /** The pillar map only grows: after the loop its keys are the seed keys plus
      (when anchored) the tenors of the rows, and a key no row names keeps its
      value. */
  lemma RunKeys(n: Numerics, anchored: bool, st: State, rows: seq<Row>)
    requires Seeded(st)
    requires Run(n, anchored, st, rows).Ok?
    ensures var out := Run(n, anchored, st, rows).value;
            && out.pillars.Keys == st.pillars.Keys + (if anchored then Tenors(rows) else {})
            && forall k :: k in st.pillars && k !in Tenors(rows) ==> out.pillars[k] == st.pillars[k]
  {
    if anchored {
      FoldKeys(StepOf(n, anchored), st, rows);
    } else {
      NoAnchorRunIdle(n, st, rows);
    }
  }

  /** Without an overnight row the loop leaves the state as it was. */
  lemma NoAnchorRunIdle(n: Numerics, st: State, rows: seq<Row>)
    requires Seeded(st)
    ensures Run(n, false, st, rows) == Ok(st)
  {
    FoldIdle(StepOf(n, false), st, rows);
  }

  /** Once an error occurs the run has no result: a row whose type is not one of
      the four families makes the whole anchored run fail. */
  lemma RunFailsOnUnknown(n: Numerics, st: State, rows: seq<Row>, i: nat)
    requires Seeded(st)
    requires i < |rows| && Classify(rows[i].kind) == Unrecognised
    ensures Run(n, true, st, rows).Err?
  {
    FoldFails(StepOf(n, true), st, rows, i);
  }

  // ---------------------------------------------------------------------------
  // Sorting and the zero curve
  // ---------------------------------------------------------------------------

  /** Places a row before the first row whose tenor is not smaller. */
  function InsertByTenor(x: Row, sorted: seq<Row>): (r: seq<Row>)
    ensures |r| == |sorted| + 1
    ensures multiset(r) == multiset(sorted) + multiset{x}
    ensures r[0] == x || (sorted != [] && r[0] == sorted[0])
    ensures TenorSorted(sorted) ==> TenorSorted(r)
  {
    if sorted == [] || x.tenor <= sorted[0].tenor then [x] + sorted
    else
      var tail := sorted[1..];
      assert sorted == [sorted[0]] + tail;
      assert TenorSorted(sorted) ==> TenorSorted(tail) by {
        if TenorSorted(sorted) {
          forall i, j | 0 <= i < j < |tail| ensures tail[i].tenor <= tail[j].tenor {
            assert tail[i] == sorted[i + 1] && tail[j] == sorted[j + 1];
          }
        }
      }
      var rest := InsertByTenor(x, tail);
      [sorted[0]] + rest
  }

  predicate TenorSorted(rows: seq<Row>)
  {
    forall i, j :: 0 <= i < j < |rows| ==> rows[i].tenor <= rows[j].tenor
  }

  /** `df.sort_values("tenor_days")`: ascending tenor, same rows. Rows of equal
      tenor keep their input order here. */
  function SortByTenor(rows: seq<Row>): (r: seq<Row>)
    ensures multiset(r) == multiset(rows)
    ensures TenorSorted(r)
  {
    if rows == [] then []
    else
      assert rows == [rows[0]] + rows[1..];
      InsertByTenor(rows[0], SortByTenor(rows[1..]))
  }
  /** Sorting neither drops nor invents a row. */
  lemma SortKeepsRows(rows: seq<Row>)
    ensures forall r :: r in SortByTenor(rows) <==> r in rows
  {
    var sorted := SortByTenor(rows);
    forall r ensures r in sorted <==> r in rows {
      assert r in sorted <==> r in multiset(sorted);
      assert r in rows <==> r in multiset(rows);
    }
  }


  /** No two rows of the frame share a tenor. */
  predicate DistinctTenors(rows: seq<Row>)
  {
    forall i, j :: 0 <= i < j < |rows| ==> rows[i].tenor != rows[j].tenor
  }

  /** Tenors strictly ascending. */
  predicate TenorStrict(rows: seq<Row>)
  {
    forall i, j :: 0 <= i < j < |rows| ==> rows[i].tenor < rows[j].tenor
  }

  /** Inserting a row whose tenor is new keeps the tenors strictly ascending. */
  lemma {:induction false} InsertStrict(x: Row, sorted: seq<Row>)
    requires TenorStrict(sorted)
    requires forall i :: 0 <= i < |sorted| ==> sorted[i].tenor != x.tenor
    ensures TenorStrict(InsertByTenor(x, sorted))
  {
    if sorted != [] && x.tenor > sorted[0].tenor {
      var tail := sorted[1..];
      assert forall i :: 0 <= i < |tail| ==> tail[i] == sorted[i + 1];
      InsertStrict(x, tail);
      var rest := InsertByTenor(x, tail);
      forall k | 0 <= k < |rest| ensures sorted[0].tenor < rest[k].tenor {
        InsertedFrom(x, tail, k);
      }
      ConsStrict(sorted[0], rest);
    }
  }

  /** Every row of an insertion is the inserted row or a row already there. */
  lemma InsertedFrom(x: Row, sorted: seq<Row>, k: nat)
    requires k < |InsertByTenor(x, sorted)|
    ensures InsertByTenor(x, sorted)[k] == x || InsertByTenor(x, sorted)[k] in sorted
  {
    var r := InsertByTenor(x, sorted);
    assert r[k] in multiset(r);
  }

  lemma ConsStrict(h: Row, rest: seq<Row>)
    requires TenorStrict(rest)
    requires forall k :: 0 <= k < |rest| ==> h.tenor < rest[k].tenor
    ensures TenorStrict([h] + rest)
  {
    var r := [h] + rest;
    forall i, j | 0 <= i < j < |r| ensures r[i].tenor < r[j].tenor {
      assert r[j] == rest[j - 1];
      if i > 0 {
        assert r[i] == rest[i - 1];
      }
    }
  }

  /** Distinct tenors sort into strictly ascending tenors. */
  lemma {:induction false} SortStrict(rows: seq<Row>)
    requires DistinctTenors(rows)
    ensures TenorStrict(SortByTenor(rows))
  {
    if rows != [] {
      var tail := rows[1..];
      assert DistinctTenors(tail) by {
        forall i, j | 0 <= i < j < |tail| ensures tail[i].tenor != tail[j].tenor {
          assert tail[i] == rows[i + 1] && tail[j] == rows[j + 1];
        }
      }
      SortStrict(tail);
      var sorted := SortByTenor(tail);
      SortKeepsRows(tail);
      forall k | 0 <= k < |sorted| ensures sorted[k].tenor != rows[0].tenor {
        assert sorted[k] in sorted;
        var p :| 0 <= p < |tail| && tail[p] == sorted[k];
        assert tail[p] == rows[p + 1];
      }
      InsertStrict(rows[0], sorted);
    }
  }

  /** A permutation of a strictly ascending sequence that is itself in ascending
      tenor order is that very sequence. */
  lemma {:induction false} SortedUnique(a: seq<Row>, b: seq<Row>)
    requires TenorStrict(a) && TenorSorted(b)
    requires multiset(a) == multiset(b)
    ensures a == b
  {
    assert |a| == |multiset(a)| == |multiset(b)| == |b|;
    if a != [] {
      SameHead(a, b);
      TailsPermute(a, b);
      TailsOrdered(a, b);
      SortedUnique(a[1..], b[1..]);
    }
  }

  /** Two permutations with the same first row permute their tails. */
  lemma TailsPermute(a: seq<Row>, b: seq<Row>)
    requires a != [] && b != [] && a[0] == b[0] && multiset(a) == multiset(b)
    ensures multiset(a[1..]) == multiset(b[1..])
  {
    assert a == [a[0]] + a[1..] && b == [b[0]] + b[1..];
    assert multiset(a) == multiset{a[0]} + multiset(a[1..]);
    assert multiset(b) == multiset{a[0]} + multiset(b[1..]);
    assert multiset(a[1..]) == multiset(a) - multiset{a[0]} == multiset(b[1..]);
  }

  /** The smallest tenor of a strictly ascending sequence heads every ascending
      permutation of it. */
  lemma SameHead(a: seq<Row>, b: seq<Row>)
    requires TenorStrict(a) && TenorSorted(b)
    requires multiset(a) == multiset(b) && a != [] && b != []
    ensures a[0] == b[0]
  {
    assert a[0] in multiset(b);
    var k :| 0 <= k < |b| && b[k] == a[0];
    assert b[0] in multiset(a);
    var q :| 0 <= q < |a| && a[q] == b[0];
    assert b[0].tenor <= b[k].tenor;
  }

  lemma TailsOrdered(a: seq<Row>, b: seq<Row>)
    requires TenorStrict(a) && TenorSorted(b) && a != [] && b != []
    ensures TenorStrict(a[1..]) && TenorSorted(b[1..])
  {
    forall i, j | 0 <= i < j < |a[1..]| ensures a[1..][i].tenor < a[1..][j].tenor {
      assert a[1..][i] == a[i + 1] && a[1..][j] == a[j + 1];
    }
    forall i, j | 0 <= i < j < |b[1..]| ensures b[1..][i].tenor <= b[1..][j].tenor {
      assert b[1..][i] == b[i + 1] && b[1..][j] == b[j + 1];
    }
  }

  /** With distinct tenors, the sort forgets the order the rows came in. */
  lemma SortOrderFree(rows: seq<Row>, rows': seq<Row>)
    requires DistinctTenors(rows) && multiset(rows') == multiset(rows)
    ensures SortByTenor(rows') == SortByTenor(rows)
  {
    SortStrict(rows);
    SortedUnique(SortByTenor(rows), SortByTenor(rows'));
  }

  /** `"overnight_rate" in df["type"].to_list()`: the raw type, not normalised. */
  predicate AnchorPresent(rows: seq<Row>)
  {
    exists i :: 0 <= i < |rows| && rows[i].kind == "overnight_rate"
  }

  /** A zero rate in percent; `Unbounded` is numpy's `inf` for a zero DF. */
  datatype Rate = Finite(value: real) | Unbounded

  /** One row of the output table. */
  datatype Point = Point(days: int, zeroRate: Rate)

  /** `((1/DF) - 1) * (360/T) * 100`: the money-market simple Act/360 rate. */
  function ZeroRate(t: real, df: real): Rate
    requires t > 0.0
  {
    if df == 0.0 then Unbounded else Finite(((1.0 / df) - 1.0) * (DayCount / t) * 100.0)
  }

  /** The zero rate is the simple rate that discounts back to the pillar:
      `DF = 1 / (1 + z T / 36000)`. */
  lemma ZeroRateRoundTrip(t: real, df: real)
    requires t > 0.0 && df != 0.0
    ensures var z := ZeroRate(t, df).value;
            1.0 + z * t / (DayCount * 100.0) != 0.0 && df == 1.0 / (1.0 + z * t / (DayCount * 100.0))
  {
    var z := ZeroRate(t, df).value;
    var g := (1.0 / df) - 1.0;
    assert z == g * (DayCount / t) * 100.0;
    assert (DayCount / t) * t == DayCount;
    assert z * t == g * ((DayCount / t) * t) * 100.0;
    assert z * t / (DayCount * 100.0) == g;
    assert 1.0 + g == 1.0 / df;
  }

  /** An overnight row at one day yields a first zero rate equal to the quoted
      rate in percent (unrounded). */
  lemma OvernightZeroRate(rate: real)
    requires 1.0 + rate * (1.0 / DayCount) != 0.0
    ensures ZeroRate(1.0, OvernightDf(rate)) == Finite(rate * 100.0)
  {
    ImpliedRateRecoversOvernight(rate);
  }

  /** `tenors > 0`: the positive tenors, in the given order. */
  function PositiveTenors(ks: seq<real>): (r: seq<real>)
    ensures |r| <= |ks|
    ensures forall i :: 0 <= i < |r| ==> r[i] > 0.0
  {
    if ks == [] then []
    else
      var rest := PositiveTenors(ks[1..]);
      if ks[0] > 0.0 then [ks[0]] + rest else rest
  }

  /** The filter keeps exactly the positive tenors. */
  lemma {:induction false} PositiveTenorsMembers(ks: seq<real>)
    ensures forall x :: x in PositiveTenors(ks) <==> x in ks && x > 0.0
    decreases |ks|
  {
    if ks != [] {
      assert ks == [ks[0]] + ks[1..];
      PositiveTenorsMembers(ks[1..]);
    }
  }

  /** A strict lower bound on every tenor bounds every kept tenor. */
  lemma {:induction false} PositiveTenorsAbove(ks: seq<real>, b: real)
    requires forall i :: 0 <= i < |ks| ==> b < ks[i]
    ensures forall i :: 0 <= i < |PositiveTenors(ks)| ==> b < PositiveTenors(ks)[i]
    decreases |ks|
  {
    if ks != [] {
      assert forall i :: 0 <= i < |ks[1..]| ==> ks[1..][i] == ks[i + 1];
      PositiveTenorsAbove(ks[1..], b);
    }
  }

  lemma {:induction false} PositiveTenorsOrdered(ks: seq<real>)
    requires StrictlyIncreasing(ks)
    ensures StrictlyIncreasing(PositiveTenors(ks))
    decreases |ks|
  {
    if ks != [] {
      var tail := ks[1..];
      assert StrictlyIncreasing(tail) by {
        forall i, j | 0 <= i < j < |tail| ensures tail[i] < tail[j] {
          assert tail[i] == ks[i + 1] && tail[j] == ks[j + 1];
        }
      }
      PositiveTenorsOrdered(tail);
      var rest := PositiveTenors(tail);
      if ks[0] > 0.0 {
        assert forall i :: 0 <= i < |tail| ==> ks[0] < tail[i] by {
          forall i | 0 <= i < |tail| ensures ks[0] < tail[i] {
            assert tail[i] == ks[i + 1];
          }
        }
        PositiveTenorsAbove(tail, ks[0]);
        var r := [ks[0]] + rest;
        assert PositiveTenors(ks) == r;
        forall i, j | 0 <= i < j < |r| ensures r[i] < r[j] {
          assert r[j] == rest[j - 1];
          if i > 0 { assert r[i] == rest[i - 1]; }
        }
      } else {
        assert PositiveTenors(ks) == rest;
      }
    }
  }

  /** `tenors[tenors > 0]`: the positive pillar tenors in ascending order. */
  function OutputTenors(pillars: map<real, real>): (ts: seq<real>)
    ensures forall i :: 0 <= i < |ts| ==> ts[i] in pillars && ts[i] > 0.0
    ensures StrictlyIncreasing(ts)
  {
    var ks := SortedKeys(pillars.Keys);
    PositiveTenorsMembers(ks);
    PositiveTenorsOrdered(ks);
    PositiveTenors(ks)
  }

  /** No positive pillar is left out of the output. */
  lemma OutputTenorsComplete(pillars: map<real, real>)
    ensures forall t :: t in pillars && t > 0.0 ==> t in OutputTenors(pillars)
  {
    PositiveTenorsMembers(SortedKeys(pillars.Keys));
  }

  /** The output table: one point per positive tenor, with its whole number of
      days and its zero rate. */
  function ZeroCurve(pillars: map<real, real>): (r: seq<Point>)
  {
    var ts := OutputTenors(pillars);
    seq(|ts|, i requires 0 <= i < |ts| => Point(ts[i].Floor, ZeroRate(ts[i], pillars[ts[i]])))
  }

  /** Days are non-decreasing along the output, so the final stable sort by days
      leaves the order as it is. */
  lemma ZeroCurveDaysOrdered(pillars: map<real, real>)
    ensures var r := ZeroCurve(pillars);
            forall i, j :: 0 <= i < j < |r| ==> r[i].days <= r[j].days
  {
    var ts := OutputTenors(pillars);
    var r := ZeroCurve(pillars);
    forall i, j | 0 <= i < j < |r| ensures r[i].days <= r[j].days {
      assert ts[i] < ts[j];
      assert r[i].days == ts[i].Floor && r[j].days == ts[j].Floor;
    }
  }



  /** The whole per-date bootstrap. */
  function BootstrapSpec(n: Numerics, rows: seq<Row>): Result<seq<Point>>
  {
    var st :- Run(n, AnchorPresent(rows), Initial, SortByTenor(rows));
    Ok(ZeroCurve(st.pillars))
  }

  /** The curve does not depend on the order of the input rows when no two share
      a tenor: any permutation of the frame gives the same result, error included. */
  lemma BootstrapOrderFree(n: Numerics, rows: seq<Row>, rows': seq<Row>)
    requires DistinctTenors(rows) && multiset(rows') == multiset(rows)
    ensures BootstrapSpec(n, rows') == BootstrapSpec(n, rows)
  {
    SortOrderFree(rows, rows');
    AnchorPresentPermutation(rows, rows');
  }

  /** Whether an overnight row is present does not depend on the row order. */
  lemma AnchorPresentPermutation(rows: seq<Row>, rows': seq<Row>)
    requires multiset(rows') == multiset(rows)
    ensures AnchorPresent(rows') == AnchorPresent(rows)
  {
    if AnchorPresent(rows) {
      var i :| 0 <= i < |rows| && rows[i].kind == "overnight_rate";
      assert rows[i] in multiset(rows');
      var j :| 0 <= j < |rows'| && rows'[j] == rows[i];
    }
    if AnchorPresent(rows') {
      var i :| 0 <= i < |rows'| && rows'[i].kind == "overnight_rate";
      assert rows'[i] in multiset(rows);
      var j :| 0 <= j < |rows| && rows[j] == rows'[i];
    }
  }

  /** Without an overnight row every row is skipped and only the tenor-0 pillar
      remains, so the output is empty. */
  lemma NoAnchorEmptyCurve(n: Numerics, rows: seq<Row>)
    requires !AnchorPresent(rows)
    ensures BootstrapSpec(n, rows) == Ok([])
  {
    var sorted := SortByTenor(rows);
    NoAnchorRunIdle(n, Initial, sorted);
    var ks := SortedKeys(Initial.pillars.Keys);
    assert ks == [0.0] by {
      assert |ks| == 1 && ks[0] in Initial.pillars.Keys;
    }
    assert PositiveTenors(ks[1..]) == [];
    assert OutputTenors(Initial.pillars) == [];
    assert ZeroCurve(Initial.pillars) == [];
  }

  /** With an overnight row present, a row of unknown type anywhere makes the
      date fail. */
  lemma UnknownTypeFails(n: Numerics, rows: seq<Row>, i: nat)
    requires AnchorPresent(rows)
    requires i < |rows| && Classify(rows[i].kind) == Unrecognised
    ensures BootstrapSpec(n, rows).Err?
  {
    var j := SortedPosition(rows, i);
    RunFailsOnUnknown(n, Initial, SortByTenor(rows), j);
  }

  /** Where a row of the frame lands after sorting. */
  lemma SortedPosition(rows: seq<Row>, i: nat) returns (j: nat)
    requires i < |rows|
    ensures j < |SortByTenor(rows)| && SortByTenor(rows)[j] == rows[i]
  {
    SortKeepsRows(rows);
    assert rows[i] in SortByTenor(rows);
    j :| 0 <= j < |SortByTenor(rows)| && SortByTenor(rows)[j] == rows[i];
  }


  /** If no row has tenor 0, the seed pillar `DF(0) = 1` survives the run. */
  lemma OriginPillarKept(n: Numerics, rows: seq<Row>)
    requires forall i :: 0 <= i < |rows| ==> rows[i].tenor != 0.0
    requires Run(n, AnchorPresent(rows), Initial, SortByTenor(rows)).Ok?
    ensures var out := Run(n, AnchorPresent(rows), Initial, SortByTenor(rows)).value;
            0.0 in out.pillars && out.pillars[0.0] == 1.0
  {
    var sorted := SortByTenor(rows);
    RunKeys(n, AnchorPresent(rows), Initial, sorted);
    SortKeepsRows(rows);
    forall i | 0 <= i < |sorted| ensures sorted[i].tenor != 0.0 {
      assert sorted[i] in rows;
    }
  }

  // ---------------------------------------------------------------------------
  // The clamp on solved pillars
  // ---------------------------------------------------------------------------

  /** On a built curve the DF at the last pillar is that pillar's DF. */
  lemma DfAtLastPillar(n: Numerics, pillars: map<real, real>, c: Curve)
    requires Lawful(n) && pillars != map[] && BuildCurve(n, pillars) == Ok(c)
    ensures DfAt(n, c, MaxKey(pillars)) == pillars[MaxKey(pillars)]
  {
    var last := |c.xs| - 1;
    assert MaxKey(pillars) == c.xs[last];
    DfAtPillar(n, c, last);
  }


  lemma FixedPillarBounded(n: Numerics, st: State, row: Row)
    requires Lawful(n) && Seeded(st) && FixedStep(n, st, row).Ok?
    ensures var ps := st.pillars[MaxKey(st.pillars)];
            var v := FixedStep(n, st, row).value.pillars[row.tenor];
            Tol <= v <= Max(Tol, ps) && (Tol <= ps ==> v <= ps)
  {
    var c := BuildCurve(n, st.pillars);
    DfAtLastPillar(n, st.pillars, c.value);
  }

  lemma FrnPillarBounded(n: Numerics, st: State, row: Row)
    requires Lawful(n) && Seeded(st) && FrnStep(n, st, row).Ok?
    ensures var ps := st.pillars[MaxKey(st.pillars)];
            var v := FrnStep(n, st, row).value.pillars[row.tenor];
            Min(Tol, ps) <= v <= Max(Tol, ps)
  {
    var st1 := EnsureOnRate(n, st).value;
    var p := FrnCouponParams(n, row.tenor, st1.onRate.value, NormalizeSpread(row.coupon));
    if p.k > 0 {
      var c := BuildCurve(n, st1.pillars);
      DfAtLastPillar(n, st1.pillars, c.value);
    }
  }

  /** A coupon instrument's new pillar lies between 1e-12 and the DF at the last
      pillar S (it equals that DF when an FRN has no period left): a solved DF can
      never exceed the DF at S, nor fall below 1e-12 when that DF is at least 1e-12. */
  lemma CouponPillarBounded(n: Numerics, st: State, row: Row)
    requires Lawful(n) && Seeded(st)
    requires Classify(row.kind) == FixedBond || Classify(row.kind) == FloatingNote
    requires Step(n, true, st, row).Ok?
    ensures var ps := st.pillars[MaxKey(st.pillars)];
            var v := Step(n, true, st, row).value.pillars[row.tenor];
            Min(Tol, ps) <= v <= Max(Tol, ps)
  {
    if Classify(row.kind) == FixedBond {
      FixedPillarBounded(n, st, row);
    } else {
      FrnPillarBounded(n, st, row);
    }
  }

  /** One unfolding of the fold. */
  lemma RunStep(n: Numerics, anchored: bool, st: State, rows: seq<Row>)
    requires Seeded(st) && rows != []
    ensures var step := Step(n, anchored, st, rows[0]);
            Run(n, anchored, st, rows) == if step.Err? then Err(step.error) else Run(n, anchored, step.value, rows[1..])
  {
    var step := StepOf(n, anchored);
    assert step(st, rows[0]) == Step(n, anchored, st, rows[0]);
  }

  // ---------------------------------------------------------------------------
  // The driver as the source runs it
  // ---------------------------------------------------------------------------

  /** The MBONO branch of the row loop. */
  method ProcessFixed(n: Numerics, st: State, row: Row) returns (r: Result<State>)
    requires Seeded(st)
    ensures r == FixedStep(n, st, row)
  {
    var price :- PickPrice(row);
    var c :- BuildCurve(n, st.pillars);
    var s := MaxKey(st.pillars);
    var t := row.tenor;
    var dfS := DfAt(n, c, s);
    var dfT: real;
    if t <= s + Tol {
      dfT := DfAt(n, c, t);
    } else {
      if row.coupon.None? {
        return Err(MissingCoupon);
      }
      var sch := FixedBondSchedule(t, row.coupon.value);
      var pre, future := Partition(n, c, s, sch.coupons);
      future := future + [sch.final];
      dfT := Solve(n, price, pre, dfS, s, t, future);
    }
    return Ok(State(st.pillars[t := Clamp(dfT, dfS)], st.onRate));
  }

  /** The BONDES D/F/G branch of the row loop. */
  method ProcessFrn(n: Numerics, st: State, row: Row) returns (r: Result<State>)
    requires Seeded(st)
    ensures r == FrnStep(n, st, row)
  {
    var st1 :- EnsureOnRate(n, st);
    var p := FrnCouponParams(n, row.tenor, st1.onRate.value, NormalizeSpread(row.coupon));
    if p.k <= 0 {
      return Ok(State(st1.pillars[row.tenor := st1.pillars[MaxKey(st1.pillars)]], st1.onRate));
    }
    r := ProcessFrnPeriods(n, st1, row, p);
  }

  /** A BONDES with at least one period left. */
  method ProcessFrnPeriods(n: Numerics, st: State, row: Row, p: FrnTerms) returns (r: Result<State>)
    requires Seeded(st) && st.onRate.Some?
    requires p == FrnCouponParams(n, row.tenor, st.onRate.value, NormalizeSpread(row.coupon)) && p.k >= 1
    ensures r == FrnPillar(n, st, row, p)
  {
    var rPct := st.onRate.value;
    var t := row.tenor;
    var price :- FrnPrice(row, Accrued(n, rPct, p.d));
    var flows := FrnFlows(t, p);
    var c :- BuildCurve(n, st.pillars);
    var s := MaxKey(st.pillars);
    var pre, future := Partition(n, c, s, flows);
    var dfS := DfAt(n, c, s);
    var dfT: real;
    if t <= s + Tol {
      dfT := DfAt(n, c, t);
    } else {
      FrnFutureFlowsShape(n, t, rPct, NormalizeSpread(row.coupon), s);
      dfT := Solve(n, price, pre, dfS, s, t, future);
    }
    return Ok(State(st.pillars[t := Clamp(dfT, dfS)], st.onRate));
  }


  /** The body of the row loop once an overnight row is known to be present. */
  method ProcessRow(n: Numerics, st: State, row: Row) returns (r: Result<State>)
    requires Seeded(st)
    ensures r == Step(n, true, st, row)
  {
    match Classify(row.kind)
    case Overnight => r := OvernightStep(n, st, row);
    case ZeroCoupon => r := ZeroStep(st, row);
    case FixedBond => r := ProcessFixed(n, st, row);
    case FloatingNote => r := ProcessFrn(n, st, row);
    case Unrecognised => r := Err(UnknownInstrumentType(Normalize(row.kind)));
  }

  /** `bootstrap_from_curve_df`: sort, seed, walk the rows updating the pillars
      and the cached overnight rate, then convert to zero rates. */
  method BootstrapFromCurve(n: Numerics, rows: seq<Row>) returns (r: Result<seq<Point>>)
    ensures r == BootstrapSpec(n, rows)
  {
    var sorted := SortByTenor(rows);
    var st :- WalkRows(n, AnchorPresent(rows), sorted);
    return Ok(ZeroCurve(st.pillars));
  }

  /** One pass of the row loop on the first of `rows`: skipped without an anchor
      row, otherwise processed; either the loop stops with the step's error or it
      goes on from the step's state with the remaining rows. */
  method StepRows(n: Numerics, anchored: bool, st: State, rows: seq<Row>) returns (r: Result<State>)
    requires Seeded(st) && rows != []
    ensures r.Err? ==> Run(n, anchored, st, rows) == Err(r.error)
    ensures r.Ok? ==> Seeded(r.value) && Run(n, anchored, st, rows) == Run(n, anchored, r.value, rows[1..])
  {
    RunStep(n, anchored, st, rows);
    if anchored {
      r := ProcessRow(n, st, rows[0]);
    } else {
      r := Ok(st);
    }
  }

  /** The row loop, starting from `{0.0: 1.0}` and no overnight rate. */
  method WalkRows(n: Numerics, anchored: bool, sorted: seq<Row>) returns (r: Result<State>)
    ensures r == Run(n, anchored, Initial, sorted)
  {
    var pillars: map<real, real> := map[0.0 := 1.0];
    var onRate: Option<real> := None;
    var i := 0;
    while i < |sorted|
      invariant 0 <= i <= |sorted|
      invariant 0.0 in pillars
      invariant Run(n, anchored, Initial, sorted) == Run(n, anchored, State(pillars, onRate), sorted[i..])
    {
      assert sorted[i..][1..] == sorted[i + 1..];
      var step := StepRows(n, anchored, State(pillars, onRate), sorted[i..]);
      if step.Err? {
        return Err(step.error);
      }
      pillars, onRate := step.value.pillars, step.value.onRate;
      i := i + 1;
    }
    return Ok(State(pillars, onRate));
  }

}
