/** The discount-factor store's read side: the log-linear interpolator that
    `_build_loglinear_df_func` builds from a snapshot of the pillars. */
module LogLinearCurve {
  import opened Base
  import opened Numerics

  lemma NonEmpty(s: set<real>)
    requires s != {}
    ensures exists x :: x in s
  {
    if forall x :: x !in s {
      assert false;
    }
  }

  lemma {:induction false} SetMinExists(s: set<real>)
    requires s != {}
    ensures exists m :: m in s && forall y :: y in s ==> m <= y
    decreases |s|
  {
    NonEmpty(s);
    var x :| x in s;
    if s == {x} {
      assert forall y :: y in s ==> x <= y;
    } else {
      SetMinExists(s - {x});
      var m' :| m' in s - {x} && forall y :: y in s - {x} ==> m' <= y;
      var m := Min(x, m');
      forall y | y in s ensures m <= y {
        if y != x { assert y in s - {x}; }
      }
      assert m in s;
    }
  }

  /** The least element of a non-empty finite set of tenors. */
  function SetMin(s: set<real>): (m: real)
    requires s != {}
    ensures m in s && forall y :: y in s ==> m <= y
  {
    SetMinExists(s);
    var m :| m in s && forall y :: y in s ==> m <= y;
    m
  }

  /** `sorted(keys)`: the tenors of a pillar map in ascending order, each once. */
  function SortedKeys(s: set<real>): (r: seq<real>)
    ensures |r| == |s|
    ensures forall x :: x in r <==> x in s
    ensures StrictlyIncreasing(r)
    decreases |s|
  {
    if s == {} then []
    else
      var m := SetMin(s);
      [m] + SortedKeys(s - {m})
  }

  /** `max(pillars.keys())`: the last pillar tenor. */
  function MaxKey(pillars: map<real, real>): (s: real)
    requires pillars != map[]
    ensures s in pillars && forall k :: k in pillars ==> k <= s
  {
    var xs := SortedKeys(pillars.Keys);
    assert xs[0] in pillars.Keys;
    xs[|xs| - 1]
  }

  /** The arrays captured by the `df(t)` closure: sorted tenors, their discount
      factors and the logarithms of those. */
  datatype Curve = Curve(xs: seq<real>, ys: seq<real>, logys: seq<real>)

  /** What a successfully built curve over a non-empty pillar map satisfies. */
  ghost predicate Valid(n: Numerics, c: Curve)
  {
    && |c.xs| >= 1
    && |c.ys| == |c.xs|
    && |c.logys| == |c.xs|
    && StrictlyIncreasing(c.xs)
    && (forall i :: 0 <= i < |c.ys| ==> c.ys[i] > 0.0)
    && (forall i :: 0 <= i < |c.ys| ==> c.logys[i] == n.ln(c.ys[i]))
  }

  /** `np.log(ys)`. */
  function LogValues(n: Numerics, ys: seq<real>): (logys: seq<real>)
    ensures |logys| == |ys| && forall i :: 0 <= i < |ys| ==> logys[i] == n.ln(ys[i])
  {
    seq(|ys|, i requires 0 <= i < |ys| => n.ln(ys[i]))
  }

  /** `_build_loglinear_df_func`: fails exactly when some pillar discount factor is
      not positive; otherwise captures the pillars in tenor order. */
  function BuildCurve(n: Numerics, pillars: map<real, real>): (r: Result<Curve>)
    ensures r.Ok? <==> forall k :: k in pillars ==> pillars[k] > 0.0
    ensures r.Err? ==> r.error == InvalidPillars
    ensures r.Ok? ==> r.value.xs == SortedKeys(pillars.Keys)
    ensures r.Ok? ==> |r.value.ys| == |r.value.xs|
                      && forall i :: 0 <= i < |r.value.xs| ==> r.value.ys[i] == pillars[r.value.xs[i]]
    ensures r.Ok? && pillars != map[] ==> Valid(n, r.value)
  {
    var xs := SortedKeys(pillars.Keys);
    var ys := PillarValues(pillars, xs);
    if exists i :: 0 <= i < |ys| && ys[i] <= 0.0 then
      Err(InvalidPillars)
    else
      PositivePillars(pillars, xs, ys);
      Ok(Curve(xs, ys, LogValues(n, ys)))
  }

  /** The discount factors of the pillars, in the order of `xs`. */
  function PillarValues(pillars: map<real, real>, xs: seq<real>): (ys: seq<real>)
    requires forall i :: 0 <= i < |xs| ==> xs[i] in pillars
    ensures |ys| == |xs| && forall i :: 0 <= i < |xs| ==> ys[i] == pillars[xs[i]]
  {
    seq(|xs|, i requires 0 <= i < |xs| => pillars[xs[i]])
  }

  lemma PositivePillars(pillars: map<real, real>, xs: seq<real>, ys: seq<real>)
    requires forall x :: x in pillars ==> x in xs
    requires forall i :: 0 <= i < |xs| ==> xs[i] in pillars
    requires |ys| == |xs| && forall i :: 0 <= i < |xs| ==> ys[i] == pillars[xs[i]]
    requires forall i :: 0 <= i < |ys| ==> ys[i] > 0.0
    ensures forall k :: k in pillars ==> pillars[k] > 0.0
  {
    forall k | k in pillars ensures pillars[k] > 0.0 {
      var i :| 0 <= i < |xs| && xs[i] == k;
    }
  }

  /** `np.searchsorted(xs, t)` on an ascending array: how many tenors lie below `t`. */
  function CountBelow(xs: seq<real>, t: real): (k: nat)
    ensures k <= |xs|
  {
    if xs == [] then 0
    else (if xs[0] < t then 1 else 0) + CountBelow(xs[1..], t)
  }

  /** The closure `df(t)`: log-linear inside the pillars, the first slope to the
      left, and to the right the last slope capped at -1e-12. */
  function DfAt(n: Numerics, c: Curve, t: real): (r: real)
    requires Valid(n, c)
    ensures Lawful(n) ==> r > 0.0
  {
    var xs, ys, ly, last := c.xs, c.ys, c.logys, |c.xs| - 1;
    if t <= xs[0] then
      if last == 0 then ys[0]
      else LogLine(n, xs[0], ly[0], (ly[1] - ly[0]) / (xs[1] - xs[0]), t)
    else if t >= xs[last] then
      if last == 0 then ys[0]
      else LogLine(n, xs[last], ly[last], TailSlope(c), t)
    else
      var j0 := CountBelow(xs, t) - 1;
      var j1 := if last - 1 < j0 then last - 1 else j0;
      var j := if j1 < 0 then 0 else j1;
      LogBetween(n, xs[j], ly[j], xs[j + 1], ly[j + 1], t)
  }

  /** exp of the line through `(x0, y0)` with slope `m`, evaluated at `t`. */
  function LogLine(n: Numerics, x0: real, y0: real, m: real, t: real): real
  {
    n.exp(y0 + m * (t - x0))
  }

  /** exp of the linear interpolation of `y0` at `x0` and `y1` at `x1`, at `t`. */
  function LogBetween(n: Numerics, x0: real, y0: real, x1: real, y1: real, t: real): real
    requires x0 < x1
  {
    n.exp(Lerp(x0, y0, x1, y1, t))
  }

  /** The linear interpolation of `y0` at `x0` and `y1` at `x1`, at `t`. */
  function Lerp(x0: real, y0: real, x1: real, y1: real, t: real): real
    requires x0 < x1
  {
    var w := (t - x0) / (x1 - x0);
    y0 * (1.0 - w) + y1 * w
  }

  /** The log-slope of the last two pillars, capped at -1e-12 so that it never points up. */
  function TailSlope(c: Curve): (m: real)
    requires |c.xs| >= 2 && |c.logys| == |c.xs| && c.xs[|c.xs| - 2] < c.xs[|c.xs| - 1]
    ensures m <= -Tol
  {
    var last := |c.xs| - 1;
    Min((c.logys[last] - c.logys[last - 1]) / (c.xs[last] - c.xs[last - 1]), -Tol)
  }

  lemma LogLineAtAnchor(n: Numerics, x0: real, y0: real, m: real)
    ensures LogLine(n, x0, y0, m, x0) == n.exp(y0)
  {
    assert y0 + m * (x0 - x0) == y0;
  }

  lemma LogBetweenAtRight(n: Numerics, x0: real, y0: real, x1: real, y1: real)
    requires x0 < x1
    ensures LogBetween(n, x0, y0, x1, y1, x1) == n.exp(y1)
  {
    LerpAtRight(x0, y0, x1, y1);
  }

  lemma LerpAtRight(x0: real, y0: real, x1: real, y1: real)
    requires x0 < x1
    ensures Lerp(x0, y0, x1, y1, x1) == y1
  {
    var w := (x1 - x0) / (x1 - x0);
    DivSelf(x1 - x0);
    assert y0 * (1.0 - w) + y1 * w == y1;
  }

  lemma DivSelf(d: real)
    requires d != 0.0
    ensures d / d == 1.0
  {}


  lemma LogLineNonIncreasing(n: Numerics, x0: real, y0: real, m: real, t1: real, t2: real)
    requires forall x, y :: x <= y ==> n.exp(x) <= n.exp(y)
    requires m <= 0.0 && t1 <= t2
    ensures LogLine(n, x0, y0, m, t2) <= LogLine(n, x0, y0, m, t1)
  {
    assert m * (t2 - t1) <= 0.0;
    assert y0 + m * (t2 - x0) <= y0 + m * (t1 - x0);
  }

  lemma {:induction false} CountBelowNone(xs: seq<real>, t: real)
    requires forall i :: 0 <= i < |xs| ==> t <= xs[i]
    ensures CountBelow(xs, t) == 0
  {
    if xs != [] {
      CountBelowNone(xs[1..], t);
    }
  }

  /** On strictly increasing tenors, the insertion point of a pillar tenor is its index. */
  lemma {:induction false} CountBelowAt(xs: seq<real>, i: nat)
    requires StrictlyIncreasing(xs) && i < |xs|
    ensures CountBelow(xs, xs[i]) == i
  {
    if i == 0 {
      CountBelowNone(xs[1..], xs[0]);
    } else {
      assert xs[1..][i - 1] == xs[i];
      CountBelowAt(xs[1..], i - 1);
    }
  }

  /** On strictly increasing tenors, a `t` in `(xs[i], xs[i + 1]]` is inserted
      after `xs[i]`. */
  lemma {:induction false} CountBelowBetween(xs: seq<real>, i: nat, t: real)
    requires StrictlyIncreasing(xs) && i + 1 < |xs|
    requires xs[i] < t <= xs[i + 1]
    ensures CountBelow(xs, t) == i + 1
  {
    assert xs[0] <= xs[i];
    if i == 0 {
      forall k | 0 <= k < |xs[1..]| ensures t <= xs[1..][k] {
        assert xs[1] <= xs[k + 1];
      }
      CountBelowNone(xs[1..], t);
    } else {
      assert xs[1..][i - 1] == xs[i] && xs[1..][i] == xs[i + 1];
      CountBelowBetween(xs[1..], i - 1, t);
    }
  }

  /** Strictly between two neighbouring pillars, the interpolator is the
      log-linear line through exactly those two pillars. */
  lemma DfAtInterior(n: Numerics, c: Curve, i: nat, t: real)
    requires Valid(n, c) && i + 1 < |c.xs|
    requires c.xs[i] < t < c.xs[i + 1]
    ensures DfAt(n, c, t) == LogBetween(n, c.xs[i], c.logys[i], c.xs[i + 1], c.logys[i + 1], t)
  {
    var last := |c.xs| - 1;
    assert c.xs[0] <= c.xs[i] && c.xs[i + 1] <= c.xs[last];
    CountBelowBetween(c.xs, i, t);
  }

  /** The interpolator reproduces every pillar exactly. */
  lemma DfAtPillar(n: Numerics, c: Curve, i: nat)
    requires Lawful(n) && Valid(n, c) && i < |c.xs|
    ensures DfAt(n, c, c.xs[i]) == c.ys[i]
  {
    var last := |c.xs| - 1;
    assert n.exp(c.logys[i]) == c.ys[i];
    if i == 0 {
      if last > 0 {
        LogLineAtAnchor(n, c.xs[0], c.logys[0], (c.logys[1] - c.logys[0]) / (c.xs[1] - c.xs[0]));
      }
    } else if i == last {
      LogLineAtAnchor(n, c.xs[last], c.logys[last], TailSlope(c));
    } else {
      CountBelowAt(c.xs, i);
      LogBetweenAtRight(n, c.xs[i - 1], c.logys[i - 1], c.xs[i], c.logys[i]);
    }
  }

  /** Beyond the last pillar the discount factor never increases with tenor. */
  lemma DfAtTailNonIncreasing(n: Numerics, c: Curve, t1: real, t2: real)
    requires Lawful(n) && Valid(n, c)
    requires c.xs[|c.xs| - 1] <= t1 <= t2
    ensures DfAt(n, c, t2) <= DfAt(n, c, t1)
  {
    var last := |c.xs| - 1;
    if last > 0 {
      LogLineNonIncreasing(n, c.xs[last], c.logys[last], TailSlope(c), t1, t2);
    }
  }
}
