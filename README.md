# Banxico zero-curve bootstrapper, modelled in Dafny

This project models the zero-curve bootstrapper for Mexican government paper.

The per-date driver is `bootstrap_from_curve_df`. It does the following:
- sorts one valuation date's instrument rows by tenor;
- seeds a pillar map `{0: 1}` (tenor in days to discount factor);
- walks the rows once, dispatching on the normalised `type` to one of four families:
  - the overnight anchor;
  - CETES zero-coupon notes (face 10);
  - MBONOS (fixed 182-day coupons);
  - BONDES D/F/G (28-day floating-rate notes).
- For the two coupon families it builds a cash-flow schedule and splits it at the last pillar S. Flows at or before S are valued on the current log-linear curve. The flows after S go to a solver for DF(T). The solver brackets the root and calls `brentq`, or falls back to a forward-flat approximation. The solved DF is clamped below DF(S) and above 1e-12, then stored as a pillar.
- Finally the positive tenors are turned into money-market Act/360 zero rates in percent.

Two wrappers run the driver over a table of nodes with many valuation dates:
- the long-table wrapper in `bootstrap.py`;
- the registered wrapper in `rates_to_curves.py`. It skips dates with fewer than five rows, renames the input columns, and folds the curves into a `(date, curve id) -> {days: zero rate}` map.

Layout, one module per file:
- `base.dfy` (`Base`): results, the error taxonomy, Python's `min`/`max`/`ceil`.
- `numerics.dfy` (`Numerics`): the floating-point primitives and pandas' text-to-number parser. They are a record of functions passed as a parameter. `Lawful` lists the only facts assumed about them: exp is positive and monotone, ln inverts exp, a positive base to any power is positive, and brentq answers inside its bracket.
- `curve.dfy` (`LogLinearCurve`): `_build_loglinear_df_func` and the `df(t)` closure it returns.
- `solver.dfy` (`Solver`): `_solve_df_T_loglinear_generic`, with its two loops as methods.
- `instruments.dfy` (`Instruments`): type normalisation and dispatch, `_pick_price`, `_normalize_spread_pct`, `_frn_28day_coupon_params`, and the two coupon schedules.
- `bootstrap.dfy` (`Bootstrap`): the driver.
  - Its state is the pillar map plus the cached overnight rate.
  - One step function per family.
  - The row loop is a fold, `Run`, and the method `WalkRows` is proved equal to it.
  - The final zero-rate table.
- `timeseries.dfy` (`TimeSeries`): the two wrappers. Each has a specification function and a loop method proved equal to it.

Conventions of the source that the model keeps:
- MBONO coupon dates are counted forward from the valuation date (182, 364, ... days), not backward from maturity.
- An overnight row sets the pillar at the row's own tenor, which need not be one day.
- For an FRN, `k = ceil(T/28)`, `rem = T - 28(k-1)` and `d = 28 - rem`.
- An FRN row accepts a 1-day pillar as the anchor when no overnight rate is cached.
- The five-row minimum applies only in the registered wrapper. The long-table wrapper processes every date.
- Without an `overnight_rate` row the driver skips every row, and the output is an empty table.
- The registered wrapper has no up-front column check. A missing column fails only when a date with at least five rows reads it, in the order `days_to_maturity`, `clean_price`, `dirty_price`, `current_coupon`, `type`.
- When the bracket test fails, the solver that the driver uses is the corrected fallback (see Findings). The fallback exactly as written is modelled beside it.

## Model

| member | source | states |
|---|---|---|
| Base.Min | src/instruments/bootstrap.py:46 | Python `min`: at most both arguments and equal to one of them |
| Base.Max | src/instruments/bootstrap.py:244 | Python `max`: at least both arguments and equal to one of them |
| Base.Ceil | src/instruments/bootstrap.py:165 | `np.ceil`: the least integer not below x |
| LogLinearCurve.SortedKeys | src/instruments/bootstrap.py:28 | `sorted(keys)`: same elements as the key set, each once, strictly ascending |
| LogLinearCurve.MaxKey | src/instruments/bootstrap.py:222 | `max(pillars.keys())` is a key and bounds every key |
| LogLinearCurve.BuildCurve | src/instruments/bootstrap.py:28-32 | the builder fails with InvalidPillars exactly when some pillar DF is <= 0; otherwise it captures the keys in ascending order, each key's DF, and the logs of the DFs |
| LogLinearCurve.DfAt | src/instruments/bootstrap.py:34-53 | the interpolated DF is positive at every tenor |
| LogLinearCurve.TailSlope | src/instruments/bootstrap.py:45-46 | the extrapolation slope beyond the last pillar is at most -1e-12 |
| LogLinearCurve.CountBelowAt | src/instruments/bootstrap.py:49 | `searchsorted` of a pillar tenor on strictly increasing tenors is its own index |
| LogLinearCurve.CountBelowBetween | src/instruments/bootstrap.py:49 | `searchsorted` of a tenor in (xs[i], xs[i+1]] on strictly increasing tenors is i + 1 |
| LogLinearCurve.DfAtPillar | src/instruments/bootstrap.py:34-53 | the interpolator returns each pillar's DF exactly at that pillar's tenor |
| LogLinearCurve.DfAtInterior | src/instruments/bootstrap.py:49-53 | strictly between pillars i and i+1, the DF is the log-linear interpolation of exactly those two pillars |
| LogLinearCurve.DfAtTailNonIncreasing | src/instruments/bootstrap.py:42-48 | beyond the last pillar the DF never increases with tenor |
| LogLinearCurve.LogBetweenAtRight | src/instruments/bootstrap.py:51-53 | the log-linear segment between two pillars ends at the right pillar's DF |
| LogLinearCurve.LerpAtRight | src/instruments/bootstrap.py:51-52 | the interpolation weight at the right pillar is 1, so the log-DF there is the right pillar's |
| Solver.PvGivenDfT | src/instruments/bootstrap.py:70-82 | the accumulation loop of `pv_given_dfT` computes the known part plus each future flow discounted log-linearly between DF(S) and the candidate DF(T); a non-positive candidate prices at the known part |
| Numerics.LnMonotone | src/instruments/bootstrap.py:73 | `np.log` is monotone on the positive reals, given that exp is monotone and inverts it |
| Solver.FlowDfMonotone | src/instruments/bootstrap.py:76-80 | a larger candidate DF(T) gives each flow after S a DF at least as large |
| Solver.FutureValueMonotone | src/instruments/bootstrap.py:75-81 | with non-negative amounts, flow-by-flow larger DFs give a future value at least as large |
| Solver.FlowDfsMonotone | src/instruments/bootstrap.py:75-80 | FlowDfMonotone for every flow of a schedule after S |
| Solver.PvMonotone | src/instruments/bootstrap.py:70-82 | with non-negative amounts after S, `pv_given_dfT` never decreases on positive candidates, and neither does the pricing error that `brentq` searches |
| Solver.FlatSlope | src/instruments/bootstrap.py:91 | the fallback's forward-flat slope is at most -1e-12 |
| Solver.ForwardFlatSum | src/instruments/bootstrap.py:92-95 | the fallback loop sums each flow discounted forward-flat from S |
| Solver.FallbackDf | src/instruments/bootstrap.py:96-97 | the fallback's division result is clamped into [1e-14, max(1e-14, DF(S))] and is the unclamped quotient whenever that already lies in range; division by a zero amount follows numpy |
| Solver.FallbackAsWritten | src/instruments/bootstrap.py:89-97 | the fallback as written always lands in [1e-14, DF(S)] when DF(S) >= 1e-14 |
| Solver.Fallback | src/instruments/bootstrap.py:89-97 | the corrected fallback always lands in [1e-14, DF(S)] when DF(S) >= 1e-14 |
| Solver.FallbackReprices | src/instruments/bootstrap.py:89-97 | when the clamp does not bind, the corrected fallback reprices the instrument exactly |
| Solver.FallbackAsWrittenDoubleCounts | src/instruments/bootstrap.py:93-96 | before clamping, the fallback as written is below the repricing value by the forward-flat DF of the final flow |
| Solver.FallbackAsWrittenMisprices | src/instruments/bootstrap.py:85-97 | a single final flow priced above its value at DF(S) fails the bracket test; the intended solver then returns DF(S), but the solver as written returns a strictly smaller DF |
| Solver.UnclampedShift | src/instruments/bootstrap.py:96 | taking a further positive discounted amount off the residual lowers the quotient by that DF |
| Solver.SolveDfT | src/instruments/bootstrap.py:57-99 | DF(S) unchanged when T <= S + 1e-12; otherwise within [min(1e-14, DF(S)), max(1e-14, DF(S))]; on the fallback path at least 1e-14 and at most DF(S) |
| Solver.Solve | src/instruments/bootstrap.py:57-99 | the solver's guard, its two bracket pricings, and then brentq or the corrected fallback loop (over the flows before the final one) compute SolveDfT |
| Solver.SolveDfTAsWritten | src/instruments/bootstrap.py:57-99 | the solver with the fallback as written: DF(S) when T <= S + 1e-12, within the bracket otherwise, and equal to SolveDfT whenever the bracket test passes |
| Solver.SolveAsWritten | src/instruments/bootstrap.py:57-99 | the solver's guard, bracket pricings, and brentq or the fallback loop over every future flow compute SolveDfTAsWritten |
| Instruments.TrimStart | src/instruments/bootstrap.py:186 | `lstrip`: a suffix of the input that does not start with whitespace |
| Instruments.TrimEnd | src/instruments/bootstrap.py:186 | `rstrip`: a prefix of the input that does not end with whitespace |
| Instruments.Strip | src/instruments/bootstrap.py:186 | `strip()`: no whitespace at either end |
| Instruments.Lower | src/instruments/bootstrap.py:186 | `lower()`: same length, each character lowered |
| Instruments.SameTextIsEquality | src/instruments/bootstrap.py:190 | the character-by-character comparison used by the dispatch is string equality |
| Instruments.ClassifyNames | src/instruments/bootstrap.py:190-249 | the dispatch picks each family exactly for its normalised type names (overnight_rate, zero_coupon, fixed_bond, floating_bondes_d/f/g) |
| Instruments.NormalizeIdempotent | src/instruments/bootstrap.py:186 | normalising a type twice is normalising it once |
| Instruments.PickPrice | src/instruments/bootstrap.py:9-20 | dirty price when present, else clean price; an error exactly when both are missing |
| Instruments.NormalizeSpread | src/instruments/bootstrap.py:146-153 | a missing spread is 0; a magnitude above 5 is divided by 100; otherwise unchanged |
| Instruments.FrnPeriods | src/instruments/bootstrap.py:165 | k = ceil(T/28) for T > 0 (so 28(k-1) < T <= 28k), else 0 |
| Instruments.FrnCouponParams | src/instruments/bootstrap.py:155-182 | k = FrnPeriods(T); when k = 0 every output is 0; otherwise rem = T - 28(k-1) lies in (0, 28] and d = 28 - rem lies in [0, 28) |
| Instruments.FirstCouponRegularOnBoundary | src/instruments/bootstrap.py:169-181 | nothing is accrued exactly when T is a multiple of 28, and then the first coupon equals the regular one |
| Instruments.FrnPrice | src/instruments/bootstrap.py:262-270 | dirty price when present, else clean price plus accrued; an error exactly when both are missing |
| Instruments.FrnScheduleShape | src/instruments/bootstrap.py:272-284 | k payments, the first at rem, 28 days apart, the last at T; the first pays C1, the middle ones C, and the last 100 + C (100 + C1 when k = 1) |
| Instruments.FrnTimesIncreasing | src/instruments/bootstrap.py:274-283 | the FRN payment times are strictly increasing |
| Instruments.CouponDatesShape | src/instruments/bootstrap.py:211-214 | coupon dates are 182j for j = 1..floor(T/182), all before T; the last one is dropped exactly when it is numerically equal to T |
| Instruments.FixedScheduleShape | src/instruments/bootstrap.py:209-218 | MBONO coupons fall at the coupon dates, all before T, each paying c/100·(182/360)·100 |
| Instruments.FixedFinalFlow | src/instruments/bootstrap.py:215-219 | the final MBONO flow is at T and pays 100 + c/100·((T - last coupon date)/360)·100, with the last coupon date 0 when there is none |
| Bootstrap.UpdatesOnlyKeys | src/instruments/bootstrap.py:198 | `pillars[T] = v` adds at most key T and keeps every other value |
| Bootstrap.EnsureOnRate | src/instruments/bootstrap.py:135-144 | the cached rate if any; else round2 of the rate implied by a 1-day pillar, which is then cached; else MissingAnchorRate; pillars untouched |
| Bootstrap.ImpliedRateRecoversOvernight | src/instruments/bootstrap.py:141 | the rate read back from a 1-day pillar set by an overnight row is that row's rate in percent |
| Bootstrap.FutureFlows | src/instruments/bootstrap.py:224-236 | the future list only holds flows after S + 1e-12 and keeps the last flow when that flow is after S |
| Bootstrap.FutureFlowsMembers | src/instruments/bootstrap.py:227-232 | a flow is in the future list exactly when it is in the schedule and after S + 1e-12 |
| Bootstrap.FutureFlowsOrdered | src/instruments/bootstrap.py:289-296 | the split keeps the schedule's time order |
| Bootstrap.FrnFutureFlowsShape | src/instruments/bootstrap.py:272-302 | for an FRN maturing after S, the solver gets a non-empty future list in time order that ends with the maturity payment |
| Bootstrap.FixedFutureFlowsShape | src/instruments/bootstrap.py:224-242 | for an MBONO, the coupons after S followed by the final flow are in time order and end at T |
| Bootstrap.AllFutureWhenBeyond | src/instruments/bootstrap.py:224-236 | when every flow is after S, nothing is known and every flow is passed to the solver |
| Bootstrap.NothingKnown | src/instruments/bootstrap.py:289-296 | no flow at or before S + 1e-12 means a known value of 0 |
| Bootstrap.AllFuture | src/instruments/bootstrap.py:289-296 | every flow after S + 1e-12 means the future list is the whole schedule |
| Bootstrap.Partition | src/instruments/bootstrap.py:289-296 | the split loop computes the known value and the future list |
| Bootstrap.Clamp | src/instruments/bootstrap.py:244 | the clamp result is at least 1e-12, at most DF(S) when DF(S) >= 1e-12, and equal to the input when that already lies in range |
| Bootstrap.OvernightRate | src/instruments/bootstrap.py:194-196 | a rate above 1 is read as a percentage and divided by 100 |
| Bootstrap.OvernightStep | src/instruments/bootstrap.py:190-200 | a missing dirty price is an error; otherwise only the pillar at T is set, to a DF with DF·(1 + rate/360) = 1, and the cached rate becomes round2(rate·100) |
| Bootstrap.ZeroStep | src/instruments/bootstrap.py:202-205 | the pillar at T becomes exactly price/10, with no solving and no clamp; fails exactly when there is no price |
| Bootstrap.FixedStep | src/instruments/bootstrap.py:207-246 | only the pillar at T changes; the cached rate is kept; the new DF lies between 1e-12 and DF(S) |
| Bootstrap.FrnStep | src/instruments/bootstrap.py:249-256 | with no cached rate and no 1-day pillar it fails with MissingAnchorRate; on success the anchor lookup succeeded and its rate is the one cached, only the pillar at T changes, and with no period left that pillar copies the last pillar DF |
| Bootstrap.FrnPillar | src/instruments/bootstrap.py:258-306 | for an FRN with at least one period, only the pillar at T changes and the new DF lies between 1e-12 and DF(S) |
| Bootstrap.Step | src/instruments/bootstrap.py:185-309 | without an anchor row the state is unchanged; an unknown type fails; each family is sent to its own step (overnight, zero, fixed, FRN), which sets only the pillar at T; the seed key 0 is never removed |
| Bootstrap.Fold | src/instruments/bootstrap.py:185-309 | the row loop keeps the seed key |
| Bootstrap.FoldKeys | src/instruments/bootstrap.py:185-309 | a loop whose body sets only the row's tenor ends with the seed keys plus the rows' tenors, and keeps every value no row names |
| Bootstrap.FoldFails | src/instruments/bootstrap.py:185-309 | a row on which the body always fails makes the loop fail |
| Bootstrap.FoldIdle | src/instruments/bootstrap.py:188-189 | a body that never changes the state leaves the state unchanged |
| Bootstrap.StepOf | src/instruments/bootstrap.py:185-309 | the loop body is Step, keeps the seed, and (when anchored) sets only the row's tenor |
| Bootstrap.Run | src/instruments/bootstrap.py:185-309 | the row loop never removes the seed key |
| Bootstrap.RunKeys | src/instruments/bootstrap.py:131-309 | the pillar map only grows: final keys are the seed keys plus (when anchored) the row tenors; untouched keys keep their values |
| Bootstrap.NoAnchorRunIdle | src/instruments/bootstrap.py:188-189 | without an overnight row every row is skipped |
| Bootstrap.RunFailsOnUnknown | src/instruments/bootstrap.py:309 | an anchored run with a row of unknown type fails |
| Bootstrap.RunStep | src/instruments/bootstrap.py:185-309 | one iteration of the loop is one Step; an error ends the loop |
| Bootstrap.InsertByTenor | src/instruments/bootstrap.py:129 | insertion keeps the rows (as a multiset) and keeps them in tenor order |
| Bootstrap.SortByTenor | src/instruments/bootstrap.py:129 | the sorted rows are a permutation of the input, in ascending tenor |
| Bootstrap.SortKeepsRows | src/instruments/bootstrap.py:129 | sorting neither drops nor invents a row |
| Bootstrap.SortedPosition | src/instruments/bootstrap.py:129 | every input row appears at some position of the sorted rows |
| Bootstrap.InsertStrict | src/instruments/bootstrap.py:129 | inserting a row with a new tenor keeps tenors strictly ascending |
| Bootstrap.InsertedFrom | src/instruments/bootstrap.py:129 | each row of an insertion is the inserted row or a row already present |
| Bootstrap.ConsStrict | src/instruments/bootstrap.py:129 | a row below every tenor of a strictly ascending sequence can head it |
| Bootstrap.SortStrict | src/instruments/bootstrap.py:129 | rows with distinct tenors sort into strictly ascending tenors |
| Bootstrap.SameHead | src/instruments/bootstrap.py:129 | every ascending permutation of a strictly ascending sequence starts with the same row |
| Bootstrap.TailsOrdered | src/instruments/bootstrap.py:129 | dropping the first row keeps a sequence strictly (resp. weakly) ascending |
| Bootstrap.SortedUnique | src/instruments/bootstrap.py:129 | an ascending permutation of a strictly ascending sequence is that sequence |
| Bootstrap.TailsPermute | src/instruments/bootstrap.py:129 | two permutations with the same first row permute their tails |
| Bootstrap.SortOrderFree | src/instruments/bootstrap.py:129 | with distinct tenors, every permutation of the rows sorts to the same sequence |
| Bootstrap.ZeroRateRoundTrip | src/instruments/bootstrap.py:317 | the zero rate z is the simple Act/360 rate with DF = 1/(1 + z·T/36000) |
| Bootstrap.OvernightZeroRate | src/instruments/bootstrap.py:197-317 | an overnight pillar at one day gives a zero rate equal to the quoted rate in percent |
| Bootstrap.PositiveTenors | src/instruments/bootstrap.py:314-315 | the mask keeps only tenors > 0 |
| Bootstrap.PositiveTenorsMembers | src/instruments/bootstrap.py:314-315 | the mask keeps exactly the positive tenors |
| Bootstrap.PositiveTenorsOrdered | src/instruments/bootstrap.py:312-315 | masking keeps ascending order |
| Bootstrap.OutputTenors | src/instruments/bootstrap.py:312-315 | the output tenors are positive pillar keys, strictly ascending |
| Bootstrap.OutputTenorsComplete | src/instruments/bootstrap.py:312-315 | every positive pillar appears in the output |
| Bootstrap.ZeroCurveDaysOrdered | src/instruments/bootstrap.py:318-319 | output days are already non-decreasing, so the final `mergesort` (a stable sort) by days keeps the order |
| Bootstrap.NoAnchorEmptyCurve | src/instruments/bootstrap.py:185-319 | with no `overnight_rate` row the result is the empty table |
| Bootstrap.BootstrapOrderFree | src/instruments/bootstrap.py:124-319 | when no two rows share a tenor, the driver's result (curve or error) does not depend on the order of the input rows |
| Bootstrap.AnchorPresentPermutation | src/instruments/bootstrap.py:188 | whether an `overnight_rate` row is present does not depend on the row order |
| Bootstrap.UnknownTypeFails | src/instruments/bootstrap.py:309 | with an anchor present, any row of unknown type makes the date fail |
| Bootstrap.OriginPillarKept | src/instruments/bootstrap.py:131 | when no row has tenor 0, the seed pillar DF(0) = 1 survives the run |
| Bootstrap.DfAtLastPillar | src/instruments/bootstrap.py:241 | DF(S) read off the curve is the last pillar's DF |
| Bootstrap.FixedPillarBounded | src/instruments/bootstrap.py:244-245 | a new MBONO pillar lies in [1e-12, max(1e-12, last pillar DF)], and is at most the last pillar DF when that is >= 1e-12 |
| Bootstrap.FrnPillarBounded | src/instruments/bootstrap.py:254-305 | a new FRN pillar lies between min(1e-12, last pillar DF) and max(1e-12, last pillar DF) |
| Bootstrap.CouponPillarBounded | src/instruments/bootstrap.py:238-305 | a coupon instrument's new pillar never exceeds the DF at S, nor falls below 1e-12 when that DF is at least 1e-12 |
| Bootstrap.ProcessFixed | src/instruments/bootstrap.py:207-246 | the MBONO branch computes FixedStep |
| Bootstrap.ProcessFrn | src/instruments/bootstrap.py:249-256 | the FRN branch computes FrnStep |
| Bootstrap.ProcessFrnPeriods | src/instruments/bootstrap.py:258-306 | the FRN branch with at least one period computes FrnPillar |
| Bootstrap.ProcessRow | src/instruments/bootstrap.py:186-309 | the anchored loop body computes Step |
| Bootstrap.StepRows | src/instruments/bootstrap.py:185-309 | one pass of the loop: the step's error ends the run, otherwise the run goes on from the step's seeded state |
| Bootstrap.WalkRows | src/instruments/bootstrap.py:131-309 | the loop, updating the pillar map and cached rate in place, computes Run from the seed state |
| Bootstrap.BootstrapFromCurve | src/instruments/bootstrap.py:124-319 | the driver computes BootstrapSpec: sort, loop, zero-rate table |
| TimeSeries.ToNumber | src/instruments/rates_to_curves.py:56-59 | `pd.to_numeric(errors="coerce")`: a number stays, text is parsed (missing when it does not parse), an empty cell is missing |
| TimeSeries.ToRow | src/instruments/rates_to_curves.py:56-59 | one row is read with the given tenor and coupon columns, every numeric column coerced; it fails exactly when the tenor does not coerce to a number |
| TimeSeries.ToRows | src/instruments/bootstrap.py:124-128 | the rows of a date are coerced in order; it fails exactly when some tenor does not coerce to a number |
| TimeSeries.InsertDate | src/instruments/rates_to_curves.py:49 | inserting keeps the dates ascending and distinct and adds exactly the new date |
| TimeSeries.Dates | src/instruments/rates_to_curves.py:49 | the group keys are exactly the dates present, ascending, each once |
| TimeSeries.Group | src/instruments/rates_to_curves.py:49 | a group only holds records of its date |
| TimeSeries.GroupMembers | src/instruments/rates_to_curves.py:49 | a group holds exactly the records of its date |
| TimeSeries.ConcatDates | src/instruments/bootstrap.py:348-354 | concatenation only appends, and only points of the dates visited |
| TimeSeries.LongTableSpec | src/instruments/bootstrap.py:340-346 | an empty table gives an empty result; a missing required column fails before any date is processed |
| TimeSeries.ConcatDatesOrdered | src/instruments/bootstrap.py:348-354 | the output is grouped by date in ascending order |
| TimeSeries.LongTableOrdered | src/instruments/bootstrap.py:348-354 | the wrapper's output lists the dates in ascending order |
| TimeSeries.ConcatDatesFails | src/instruments/bootstrap.py:350 | a failing date fails the whole run |
| TimeSeries.BootstrapLongTable | src/instruments/bootstrap.py:326-354 | the wrapper loop computes LongTableSpec |
| TimeSeries.FirstMissing | src/instruments/rates_to_curves.py:56-59 | the first column read that the table lacks; none exactly when all are present |
| TimeSeries.SliceCurve | src/instruments/rates_to_curves.py:54-65 | a date fails on the first missing column it reads; otherwise tenor comes from `days_to_maturity` and coupon from `current_coupon` |
| TimeSeries.ToDictKeys | src/instruments/rates_to_curves.py:76 | the dictionary's keys are exactly the days of the points |
| TimeSeries.ToDictLastWins | src/instruments/rates_to_curves.py:76 | each day maps to the rate of the last point with that day |
| TimeSeries.CurvesSpec | src/instruments/rates_to_curves.py:42-44 | an empty table gives an empty result; a table without `time_index` cannot be grouped |
| TimeSeries.FoldCurvesEntries | src/instruments/rates_to_curves.py:49-83 | the fold adds exactly one entry per date with at least five rows and a non-empty curve, holding that curve's dictionary, and keeps earlier entries |
| TimeSeries.CurvesEntries | src/instruments/rates_to_curves.py:46-85 | the result has one entry (date, id) per date with at least five rows and a non-empty curve, mapping days to zero rate; so it is empty when no date survives |
| TimeSeries.FoldCurvesFails | src/instruments/rates_to_curves.py:61-65 | an error on any date with at least five rows aborts the run with no partial result |
| TimeSeries.FoldCurvesStep | src/instruments/rates_to_curves.py:49-68 | one date: skipped below five rows, otherwise aborts on error or adds its non-empty curve |
| TimeSeries.DateCurve | src/instruments/rates_to_curves.py:54-65 | the loop body for a date with at least five rows computes SliceCurve |
| TimeSeries.BootstrapCurves | src/instruments/rates_to_curves.py:15-85 | the registered wrapper's loop computes CurvesSpec |

## Left out

- `brentq` is an oracle. The model assumes only that its answer lies in the bracket. Convergence and root accuracy are not modelled.
- Solver.SolveDfT: the driver runs the corrected fallback (`Solver.Fallback`), not the fallback loop at bootstrap.py:92-96 exactly as written. `Solver.SolveDfTAsWritten` and `Solver.SolveAsWritten` model the code as written, and `Solver.FallbackAsWrittenMisprices` gives an input on which the two disagree (see Findings).
- `np.exp`, `np.log`, real powers and `round(x, 2)` are abstract functions. Only the facts in `Numerics.Lawful` are assumed about them.
- IEEE floating point is not modelled: no rounding, overflow, NaN or infinity. Reals are exact.
- The one exception is division by zero. A Python division by zero is the `DivisionByZero` error. numpy's division by a zero amount in the fallback follows numpy: it gives inf, which the clamp turns into DF(S), or -inf/NaN, which the clamp turns into 1e-14. A zero DF in the output is `Rate.Unbounded`.
- TimeSeries.ToRow: a tenor that does not coerce to a number is the `NonNumericTenor` error. The source carries it as NaN, and NaN comparisons are not modelled.
- TimeSeries.ToNumber: the text parser of `pd.to_numeric` is the abstract `Numerics.parse`. Which strings it accepts, and what number it reads from them, is not modelled.
- Bootstrap.FixedStep: a coupon that is not a number is the `MissingCoupon` error, and only when the solver runs. The source computes with NaN.
- TimeSeries.TypeText: a `type` cell that is not text normalises to the empty string, so it fails as an unknown type with an empty name. The source would fail with the cell's `str()` as the name.
- Instruments.Lower: lowers only `A`–`Z`. Python's full Unicode lowering is not modelled. Non-ASCII spellings of the type names are therefore not covered.
- Bootstrap.SortByTenor: a stable insertion order. pandas' default sort at bootstrap.py:129 does not promise stability for rows of equal tenor. For those rows, the model fixes the order in which later rows overwrite earlier pillars. When no two rows share a tenor, Bootstrap.BootstrapOrderFree shows that the order does not matter.
- The day-count basis is fixed at 360, the only value any caller passes.
- The output tables are sequences of points, maps and error values, not DataFrames. Column order, index reset, dtype and the `unique_identifier` column are not modelled.
- Reading `last_update` and fetching nodes between dates are I/O. A frame is the input instead.
- The fixing updaters in `rates_to_curves.py`, the Banxico HTTP client, the data nodes, the registries, the settings tables and the build script are not part of this model. They are network, clock, environment and registry plumbing.
- `Bootstrap.DfAtLastPillar`, `FixedPillarBounded` and `FrnPillarBounded` assume `Numerics.Lawful`. The source relies on the same properties of `np.exp`/`np.log`.

## Findings

| source | as written | input that shows it | evidently intended | confidence | as-written member | corrected member |
|---|---|---|---|---|---|---|
| src/instruments/bootstrap.py:93-96 | the fallback sums the forward-flat value of every future flow, the final flow at T included, takes it off the price, and then divides by the final amount | a bond with only its final flow (amount a > 0) left after S, priced at a·DF(S) plus half that flow's forward-flat value. The bracket test fails. The intended division gives more than DF(S) and is clamped to DF(S). The code gives DF(S) minus half the forward-flat DF of T. In general the code's quotient is below the repricing one by the final flow's forward-flat DF | take only the flows before the final one off the price, so that the final flow alone absorbs the residual (the code's own comment says the last flow is assumed to be at T) | medium, not executed | Solver.FallbackAsWritten, Solver.SolveDfTAsWritten, Solver.SolveAsWritten, Solver.FallbackAsWrittenMisprices, Solver.FallbackAsWrittenDoubleCounts | Solver.Fallback, Solver.FallbackReprices, Solver.SolveDfT |
