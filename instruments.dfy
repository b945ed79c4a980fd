/** The per-family pieces of `bootstrap_from_curve_df`: type dispatch, price
    selection, spread normalisation and the two coupon schedules. */
module Instruments {
  import opened Base
  import opened Numerics

  /** One instrument row of a valuation date after numeric coercion; a missing or
      non-numeric cell is `None`. */
  datatype Row = Row(kind: string, tenor: real, clean: Option<real>, dirty: Option<real>, coupon: Option<real>)

  // ---------------------------------------------------------------------------
  // Type dispatch: `str(r["type"]).strip().lower()`
  // ---------------------------------------------------------------------------

  datatype Family = Overnight | ZeroCoupon | FixedBond | FloatingNote | Unrecognised

  /** The characters Python's `str.strip()` removes. */
  predicate IsSpace(c: char)
  {
    var k := c as int;
    (9 <= k <= 13) || (28 <= k <= 32) || k == 133 || k == 160 || k == 5760
    || (8192 <= k <= 8202) || k == 8232 || k == 8233 || k == 8239 || k == 8287 || k == 12288
  }

  function TrimStart(s: string): (r: string)
    ensures |r| <= |s| && r == s[|s| - |r|..]
    ensures r == [] || !IsSpace(r[0])
  {
    if s != [] && IsSpace(s[0]) then TrimStart(s[1..]) else s
  }

  function TrimEnd(s: string): (r: string)
    ensures |r| <= |s| && r == s[..|r|]
    ensures r == [] || !IsSpace(r[|r| - 1])
  {
    if s != [] && IsSpace(s[|s| - 1]) then TrimEnd(s[..|s| - 1]) else s
  }

  /** `str.strip()`: no whitespace at either end. */
  function Strip(s: string): (r: string)
    ensures r == [] || (!IsSpace(r[0]) && !IsSpace(r[|r| - 1]))
  {
    TrimEnd(TrimStart(s))
  }

  function LowerChar(c: char): (l: char)
    ensures IsSpace(l) == IsSpace(c)
  {
    if 'A' <= c <= 'Z' then (c as int + 32) as char else c
  }

  /** `str.lower()` on the ASCII letters. */
  function Lower(s: string): (r: string)
    ensures |r| == |s| && forall i :: 0 <= i < |s| ==> r[i] == LowerChar(s[i])
  {
    seq(|s|, i requires 0 <= i < |s| => LowerChar(s[i]))
  }

  function Normalize(kind: string): string
  {
    Lower(Strip(kind))
  }

  /** Character-by-character equality, written recursively so that a comparison
      against a type name is unfolded only as far as a proof needs. */
  function SameText(a: string, b: string): bool
  {
    if a == [] || b == [] then a == [] && b == []
    else a[0] == b[0] && SameText(a[1..], b[1..])
  }

  lemma {:induction false} SameTextIsEquality(a: string, b: string)
    ensures SameText(a, b) <==> a == b
  {
    if a != [] && b != [] {
      SameTextIsEquality(a[1..], b[1..]);
      assert a == [a[0]] + a[1..] && b == [b[0]] + b[1..];
    }
  }

  /** The dispatch of the row loop on the normalised `type`. */
  function Classify(kind: string): Family
  {
    var k := Normalize(kind);
    if SameText(k, "overnight_rate") then Overnight
    else if SameText(k, "zero_coupon") then ZeroCoupon
    else if SameText(k, "fixed_bond") then FixedBond
    else if SameText(k, "floating_bondes_d") || SameText(k, "floating_bondes_f") || SameText(k, "floating_bondes_g") then FloatingNote
    else Unrecognised
  }

  /** Which normalised names select which family; every other name is unrecognised. */
  lemma ClassifyNames(kind: string)
    ensures Classify(kind) == Overnight <==> Normalize(kind) == "overnight_rate"
    ensures Classify(kind) == ZeroCoupon <==> Normalize(kind) == "zero_coupon"
    ensures Classify(kind) == FixedBond <==> Normalize(kind) == "fixed_bond"
    ensures Classify(kind) == FloatingNote <==> Normalize(kind) in {"floating_bondes_d", "floating_bondes_f", "floating_bondes_g"}
  {
    var k := Normalize(kind);
    SameTextIsEquality(k, "overnight_rate");
    SameTextIsEquality(k, "zero_coupon");
    SameTextIsEquality(k, "fixed_bond");
    SameTextIsEquality(k, "floating_bondes_d");
    SameTextIsEquality(k, "floating_bondes_f");
    SameTextIsEquality(k, "floating_bondes_g");
  }

  lemma StripUnchanged(s: string)
    requires s == [] || (!IsSpace(s[0]) && !IsSpace(s[|s| - 1]))
    ensures Strip(s) == s
  {}

  lemma LowerTwice(s: string)
    ensures Lower(Lower(s)) == Lower(s)
  {
    var l := Lower(s);
    assert forall i :: 0 <= i < |l| ==> LowerChar(l[i]) == l[i];
  }

  lemma LowerKeepsEnds(s: string)
    requires s == [] || (!IsSpace(s[0]) && !IsSpace(s[|s| - 1]))
    ensures var l := Lower(s); l == [] || (!IsSpace(l[0]) && !IsSpace(l[|l| - 1]))
  {
    var l := Lower(s);
    if l != [] {
      assert l[0] == LowerChar(s[0]);
      assert l[|l| - 1] == LowerChar(s[|s| - 1]);
    }
  }

  /** Normalising twice is normalising once, so a type already in normal form is
      dispatched as written and surrounding blanks or capitals never matter twice. */
  lemma {:induction false} NormalizeIdempotent(kind: string)
    ensures Normalize(Normalize(kind)) == Normalize(kind)
  {
    var t := Strip(kind);
    LowerKeepsEnds(t);
    StripUnchanged(Lower(t));
    LowerTwice(t);
  }

  // ---------------------------------------------------------------------------
  // Prices and spreads
  // ---------------------------------------------------------------------------

  /** `_pick_price`: the dirty price when present, else the clean price; an error
      when neither is present. */
  function PickPrice(row: Row): (r: Result<real>)
    ensures row.dirty.Some? ==> r == Ok(row.dirty.value)
    ensures row.dirty.None? && row.clean.Some? ==> r == Ok(row.clean.value)
    ensures r.Err? <==> row.dirty.None? && row.clean.None?
    ensures r.Err? ==> r.error == MissingPrice
  {
    match row.dirty
    case Some(p) => Ok(p)
    case None =>
      match row.clean
      case Some(p) => Ok(p)
      case None => Err(MissingPrice)
  }

  /** `_normalize_spread_pct`: a missing spread is 0; a magnitude above 5 is read
      as basis points and turned into percentage points. */
  function NormalizeSpread(raw: Option<real>): (s: real)
    ensures raw.None? ==> s == 0.0
    ensures raw.Some? && Abs(raw.value) <= 5.0 ==> s == raw.value
    ensures raw.Some? && Abs(raw.value) > 5.0 ==> s * 100.0 == raw.value && Abs(s) < Abs(raw.value)
  {
    match raw
    case None => 0.0
    case Some(x) => if Abs(x) > 5.0 then x / 100.0 else x
  }

  // ---------------------------------------------------------------------------
  // BONDES D / F / G: 28-day floating-rate notes
  // ---------------------------------------------------------------------------

  const FrnPeriod: real := 28.0

  /** The money-market basis of the FRN rate formulas (360 days times percent). */
  const RateBasis: real := 36000.0

  /** `k = ceil(T / 28)` for a positive tenor, 0 otherwise: the number of coupons
      up to and including maturity. */
  function FrnPeriods(t: real): (k: int)
    ensures t <= 0.0 ==> k == 0
    ensures t > 0.0 ==> k >= 1 && FrnPeriod * (k - 1) as real < t <= FrnPeriod * k as real
  {
    if t > 0.0 then Ceil(t / FrnPeriod) else 0
  }

  /** The outputs of `_frn_28day_coupon_params`. */
  datatype FrnTerms = FrnTerms(k: int, d: real, rem: real, c1: real, c: real)

  /** `TCdev`: the realised overnight rate compounded over the `d` accrued days. */
  function AccrualRate(n: Numerics, rPct: real, d: real): real
  {
    if d <= 0.0 then 0.0 else (n.pow(1.0 + rPct / RateBasis, d) - 1.0) * RateBasis / d
  }

  /** The accrued interest added to a clean FRN price. */
  function Accrued(n: Numerics, rPct: real, d: real): real
  {
    100.0 * d * AccrualRate(n, rPct, d) / RateBasis
  }

  /** `_frn_28day_coupon_params`: the next payment is `rem` days away, with
      `0 < rem <= 28`, and `d = 28 - rem` days of the current period have accrued. */
  function FrnCouponParams(n: Numerics, t: real, rPct: real, sPct: real): (p: FrnTerms)
    ensures p.k == FrnPeriods(t)
    ensures p.k == 0 ==> p == FrnTerms(0, 0.0, 0.0, 0.0, 0.0)
    ensures p.k > 0 ==> p.rem == t - FrnPeriod * (p.k - 1) as real
                        && 0.0 < p.rem <= FrnPeriod && p.d == FrnPeriod - p.rem && 0.0 <= p.d < FrnPeriod
  {
    var k := FrnPeriods(t);
    if k == 0 then FrnTerms(0, 0.0, 0.0, 0.0, 0.0)
    else
      var rem := t - FrnPeriod * (k - 1) as real;
      var d := if rem > 0.0 then FrnPeriod - rem else 0.0;
      var tcDev := AccrualRate(n, rPct, d);
      var rEff := rPct + sPct;
      var tc1 := ((1.0 + tcDev / RateBasis) * n.pow(1.0 + rEff / RateBasis, FrnPeriod - d) - 1.0) * RateBasis / FrnPeriod;
      var tc := (n.pow(1.0 + rEff / RateBasis, FrnPeriod) - 1.0) * RateBasis / FrnPeriod;
      FrnTerms(k, d, rem, 100.0 * FrnPeriod * tc1 / RateBasis, 100.0 * FrnPeriod * tc / RateBasis)
  }

  /** A note whose maturity falls on a 28-day boundary has accrued nothing, and its
      first coupon is then a full regular coupon. */
  lemma FirstCouponRegularOnBoundary(n: Numerics, t: real, rPct: real, sPct: real)
    requires t > 0.0
    ensures var p := FrnCouponParams(n, t, rPct, sPct);
            (p.d == 0.0 <==> t == FrnPeriod * p.k as real) && (p.d == 0.0 ==> p.c1 == p.c)
  {}

  /** The FRN price: dirty when present, else clean plus accrued, else an error. */
  function FrnPrice(row: Row, accrued: real): (r: Result<real>)
    ensures row.dirty.Some? ==> r == Ok(row.dirty.value)
    ensures row.dirty.None? && row.clean.Some? ==> r == Ok(row.clean.value + accrued)
    ensures r.Err? <==> row.dirty.None? && row.clean.None?
    ensures r.Err? ==> r.error == MissingPrice
  {
    match row.dirty
    case Some(p) => Ok(p)
    case None =>
      match row.clean
      case Some(p) => Ok(p + accrued)
      case None => Err(MissingPrice)
  }

  /** The FRN payment list: `k - 1` coupons at `rem + 28 j` (the first one `c1`,
      the rest `c`), then principal plus the last coupon at maturity. */
  function FrnFlows(t: real, p: FrnTerms): seq<Flow>
    requires p.k >= 1
  {
    var coupons := seq(p.k - 1, j requires 0 <= j < p.k - 1 =>
      Flow(p.rem + FrnPeriod * j as real, if j == 0 then p.c1 else p.c));
    coupons + [Flow(t, 100.0 + (if p.k > 1 then p.c else p.c1))]
  }

  /** The FRN schedule has `k` payments starting `rem` days out, 28 days apart,
      the last one at maturity; the first pays `c1`, the middle ones `c`, and the
      last pays principal plus `c` (plus `c1` when it is the only one). */
  lemma FrnScheduleShape(n: Numerics, t: real, rPct: real, sPct: real)
    requires t > 0.0
    ensures var p := FrnCouponParams(n, t, rPct, sPct);
            var fs := FrnFlows(t, p);
            && |fs| == p.k
            && fs[0].time == p.rem
            && fs[|fs| - 1].time == t
            && (forall j :: 0 <= j < |fs| - 1 ==> fs[j + 1].time == fs[j].time + FrnPeriod)
            && (forall j :: 0 <= j < |fs| ==> 0.0 < fs[j].time <= t)
            && (p.k > 1 ==> fs[0].amount == p.c1)
            && (forall j :: 0 < j < |fs| - 1 ==> fs[j].amount == p.c)
            && fs[|fs| - 1].amount == 100.0 + (if p.k > 1 then p.c else p.c1)
  {
    var p := FrnCouponParams(n, t, rPct, sPct);
    var fs := FrnFlows(t, p);
    forall j | 0 <= j < |fs| - 1 ensures fs[j + 1].time == fs[j].time + FrnPeriod {
      if j + 1 == |fs| - 1 {
        assert fs[j].time == p.rem + FrnPeriod * (p.k - 2) as real;
      }
    }
  }

  /** Every FRN payment time is strictly later than the one before. */
  lemma FrnTimesIncreasing(n: Numerics, t: real, rPct: real, sPct: real)
    requires t > 0.0
    ensures var fs := FrnFlows(t, FrnCouponParams(n, t, rPct, sPct));
            forall i, j :: 0 <= i < j < |fs| ==> fs[i].time < fs[j].time
  {
    var p := FrnCouponParams(n, t, rPct, sPct);
    var fs := FrnFlows(t, p);
    FrnScheduleShape(n, t, rPct, sPct);
    forall i, j | 0 <= i < j < |fs| ensures fs[i].time < fs[j].time {
      assert fs[i].time == p.rem + FrnPeriod * i as real;
      assert fs[j].time == p.rem + FrnPeriod * j as real;
    }
  }

  // ---------------------------------------------------------------------------
  // MBONOS: fixed 182-day coupons
  // ---------------------------------------------------------------------------

  const CouponPeriod: real := 182.0

  /** `np.isclose(a, b)` with numpy's default tolerances (rtol 1e-5, atol 1e-8). */
  predicate IsClose(a: real, b: real)
  {
    Abs(a - b) <= 1e-8 + 1e-5 * Abs(b)
  }

  /** `floor(T / 182)`, never negative (a non-positive count lists no dates). */
  function CouponCount(t: real): (k: nat)
  {
    var k := (t / CouponPeriod).Floor;
    if k > 0 then k else 0
  }

  /** `pre_T_dates`: 182 j for j = 1 .. floor(T / 182), the last one dropped when
      it is numerically equal to T. */
  function CouponDates(t: real): (ds: seq<real>)
  {
    var all := seq(CouponCount(t), j requires 0 <= j < CouponCount(t) => CouponPeriod * (j + 1) as real);
    if all != [] && IsClose(all[|all| - 1], t) then all[..|all| - 1] else all
  }

  /** A fixed bond's coupons before maturity and its final flow at maturity. */
  datatype FixedSchedule = FixedSchedule(coupons: seq<Flow>, final: Flow)

  /** `c_rate * alpha * 100`: the coupon on face 100 at `couponPct` percent a
      year for `days` days of accrual, Act/360. */
  function CouponAmount(couponPct: real, days: real): real
  {
    couponPct / 100.0 * (days / DayCount) * 100.0
  }

  /** The MBONO cash flows for face 100 and an annual coupon in percent. */
  function FixedBondSchedule(t: real, couponPct: real): FixedSchedule
  {
    var ds := CouponDates(t);
    var lastCoupon := if ds == [] then 0.0 else ds[|ds| - 1];
    FixedSchedule(
      seq(|ds|, j requires 0 <= j < |ds| => Flow(ds[j], CouponAmount(couponPct, CouponPeriod))),
      Flow(t, 100.0 + CouponAmount(couponPct, t - lastCoupon)))
  }


  /** The coupon dates are the multiples of 182 days up to maturity, less the
      last one when it is within tolerance of maturity. */
  lemma CouponDatesShape(t: real)
    ensures var ds := CouponDates(t);
            var k := CouponCount(t);
            && (|ds| == k - 1 <==> k > 0 && IsClose(CouponPeriod * k as real, t))
            && (|ds| == k || |ds| == k - 1)
            && (forall j :: 0 <= j < |ds| ==> ds[j] == CouponPeriod * (j + 1) as real && ds[j] < t)
  {
    var k := CouponCount(t);
    if k > 0 {
      assert CouponPeriod * k as real <= t;
    }
  }

  /** The MBONO coupons: every 182 days from the valuation date, all strictly
      before maturity, each paying `c/100 * 182/360 * 100`; the date
      182 floor(T/182) is dropped exactly when it is numerically T. */
  lemma FixedScheduleShape(t: real, couponPct: real)
    ensures var sch := FixedBondSchedule(t, couponPct);
            var k := CouponCount(t);
            var m := |sch.coupons|;
            && (m == k - 1 <==> k > 0 && IsClose(CouponPeriod * k as real, t))
            && (m == k || m == k - 1)
            && (forall j :: 0 <= j < m ==> sch.coupons[j].time == CouponPeriod * (j + 1) as real)
            && (forall j :: 0 <= j < m ==> sch.coupons[j].time < t)
            && (forall j :: 0 <= j < m ==> sch.coupons[j].amount == CouponAmount(couponPct, CouponPeriod))
  {
    CouponDatesShape(t);
  }

  /** The MBONO final flow: at maturity, 100 plus a stub coupon for the days
      since the last coupon date (the valuation date when there is none). */
  lemma FixedFinalFlow(t: real, couponPct: real)
    ensures var sch := FixedBondSchedule(t, couponPct);
            var m := |sch.coupons|;
            && sch.final.time == t
            && sch.final.amount == 100.0 + CouponAmount(couponPct, t - CouponPeriod * m as real)
  {
    var ds := CouponDates(t);
    var lastCoupon := if ds == [] then 0.0 else ds[|ds| - 1];
    assert lastCoupon == CouponPeriod * |ds| as real by {
      CouponDatesShape(t);
    }
  }
}
