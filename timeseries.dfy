/** The two wrappers that run the per-date bootstrap over a table of curve
    nodes: the long-table one of `bootstrap.py` and the registered one of
    `rates_to_curves.py`, which folds the curves into a map. */
module TimeSeries {
  import opened Base
  import opened Numerics
  import opened Instruments
  import opened Bootstrap

  // ---------------------------------------------------------------------------
  // The node table
  // ---------------------------------------------------------------------------

  /** One cell as read from the node table. */
  datatype Value = Num(x: real) | Text(s: string) | Null

  /** One node row: its valuation date and its other cells by column name. */
  datatype Record = Record(time: int, cells: map<string, Value>)

  /** The frame: the column names it carries and its rows. */
  datatype Frame = Frame(columns: set<string>, records: seq<Record>)

  /** `DataFrame.empty`: no rows or no columns. */
  predicate IsEmpty(f: Frame)
  {
    f.records == [] || f.columns == {}
  }

  function CellOf(r: Record, col: string): Value
  {
    if col in r.cells then r.cells[col] else Null
  }

  /** `pd.to_numeric(..., errors="coerce")`: a number stays, text is parsed (the
      parse may fail), and an empty cell is missing. */
  function ToNumber(n: Numerics, v: Value): (o: Option<real>)
    ensures v.Num? ==> o == Some(v.x)
    ensures v.Text? ==> o == n.parse(v.s)
    ensures v.Null? ==> o.None?
  {
    match v
    case Num(x) => Some(x)
    case Text(s) => n.parse(s)
    case Null => None
  }

  /** `str(r["type"])` for a text cell; any other cell names no family. */
  function TypeText(v: Value): string
  {
    if v.Text? then v.s else ""
  }

  /** One coerced instrument row; a tenor that is not a number is an error. */
  function ToRow(n: Numerics, r: Record, tenorCol: string, couponCol: string): (o: Result<Row>)
    ensures o.Err? <==> ToNumber(n, CellOf(r, tenorCol)).None?
    ensures o.Ok? ==> o.value == Row(TypeText(CellOf(r, "type")), ToNumber(n, CellOf(r, tenorCol)).value,
                                     ToNumber(n, CellOf(r, "clean_price")), ToNumber(n, CellOf(r, "dirty_price")),
                                     ToNumber(n, CellOf(r, couponCol)))
  {
    match ToNumber(n, CellOf(r, tenorCol))
    case None => Err(NonNumericTenor)
    case Some(t) =>
      Ok(Row(TypeText(CellOf(r, "type")), t, ToNumber(n, CellOf(r, "clean_price")),
             ToNumber(n, CellOf(r, "dirty_price")), ToNumber(n, CellOf(r, couponCol))))
  }

  /** The coerced rows of one date, in table order. */
  function ToRows(n: Numerics, rs: seq<Record>, tenorCol: string, couponCol: string): (o: Result<seq<Row>>)
    ensures o.Err? <==> exists i :: 0 <= i < |rs| && ToNumber(n, CellOf(rs[i], tenorCol)).None?
    ensures o.Ok? ==> |o.value| == |rs| && forall i :: 0 <= i < |rs| ==> o.value[i] == ToRow(n, rs[i], tenorCol, couponCol).value
  {
    if rs == [] then Ok([])
    else
      var init := rs[..|rs| - 1];
      assert forall i :: 0 <= i < |init| ==> init[i] == rs[i];
      var head :- ToRows(n, init, tenorCol, couponCol);
      var last :- ToRow(n, rs[|rs| - 1], tenorCol, couponCol);
      Ok(head + [last])
  }

  // ---------------------------------------------------------------------------
  // groupby("time_index")
  // ---------------------------------------------------------------------------

  predicate StrictlyIncreasingTimes(ds: seq<int>)
  {
    forall i, j :: 0 <= i < j < |ds| ==> ds[i] < ds[j]
  }

  /** Adds a date to an ascending list of distinct dates. */
  function InsertDate(d: int, ds: seq<int>): (r: seq<int>)
    requires StrictlyIncreasingTimes(ds)
    ensures StrictlyIncreasingTimes(r)
    ensures forall x :: x in r <==> x == d || x in ds
  {
    if ds == [] || d < ds[0] then [d] + ds
    else if d == ds[0] then ds
    else
      var rest := InsertDate(d, ds[1..]);
      assert forall x :: x in ds <==> x == ds[0] || x in ds[1..];
      assert forall i :: 0 <= i < |rest| ==> ds[0] < rest[i] by {
        forall i | 0 <= i < |rest| ensures ds[0] < rest[i] {
          if rest[i] != d {
            assert rest[i] in ds[1..];
            var j :| 0 <= j < |ds[1..]| && ds[1..][j] == rest[i];
            assert ds[j + 1] == rest[i];
          }
        }
      }
      [ds[0]] + rest
  }

  /** The group keys in ascending order, each once (`groupby` sorts its keys). */
  function Dates(rs: seq<Record>): (ds: seq<int>)
    ensures StrictlyIncreasingTimes(ds)
    ensures forall d :: d in ds <==> exists i :: 0 <= i < |rs| && rs[i].time == d
  {
    if rs == [] then []
    else
      var rest := Dates(rs[1..]);
      assert forall i :: 0 < i < |rs| ==> rs[i] == rs[1..][i - 1];
      InsertDate(rs[0].time, rest)
  }

  /** The rows of one date, in table order. */
  function Group(rs: seq<Record>, d: int): (g: seq<Record>)
    ensures |g| <= |rs|
    ensures forall i :: 0 <= i < |g| ==> g[i].time == d
  {
    if rs == [] then []
    else
      var init, last := rs[..|rs| - 1], rs[|rs| - 1];
      Group(init, d) + (if last.time == d then [last] else [])
  }

  /** A date's group holds exactly the records stamped with that date. */
  lemma {:induction false} GroupMembers(rs: seq<Record>, d: int)
    ensures forall r :: r in Group(rs, d) <==> r in rs && r.time == d
    decreases |rs|
  {
    if rs != [] {
      var init, last := rs[..|rs| - 1], rs[|rs| - 1];
      assert rs == init + [last];
      GroupMembers(init, d);
    }
  }

  // ---------------------------------------------------------------------------
  // `boostrap_mbono_curve` in bootstrap.py: one long table
  // ---------------------------------------------------------------------------

  const Required: set<string> := {"time_index", "type", "tenor_days", "clean_price", "dirty_price", "coupon"}

  /** One output row: a date and one point of its zero curve. */
  datatype TimedPoint = TimedPoint(time: int, point: Point)

  function Tag(d: int, pts: seq<Point>): (r: seq<TimedPoint>)
    ensures |r| == |pts| && forall i :: 0 <= i < |pts| ==> r[i] == TimedPoint(d, pts[i])
  {
    seq(|pts|, i requires 0 <= i < |pts| => TimedPoint(d, pts[i]))
  }

  /** The curve of one date's rows, read with the column names of this table. */
  function GroupCurve(n: Numerics, g: seq<Record>): Result<seq<Point>>
  {
    var rows :- ToRows(n, g, "tenor_days", "coupon");
    BootstrapSpec(n, rows)
  }
  /** `GroupCurve` as the per-date curve of the fold. */
  function GroupCurveOf(n: Numerics): (curve: seq<Record> -> Result<seq<Point>>)
    ensures forall g :: curve(g) == GroupCurve(n, g)
  {
    g => GroupCurve(n, g)
  }


  /** Every date in order, each group passed to `curve` and its points appended
      to `acc`; the first failing date ends the run. */
  function ConcatDates(curve: seq<Record> -> Result<seq<Point>>, rs: seq<Record>, ds: seq<int>, acc: seq<TimedPoint>): (r: Result<seq<TimedPoint>>)
    ensures r.Ok? ==> acc <= r.value && forall i :: |acc| <= i < |r.value| ==> r.value[i].time in ds
    decreases |ds|
  {
    if ds == [] then Ok(acc)
    else
      var pts :- curve(Group(rs, ds[0]));
      var r := ConcatDates(curve, rs, ds[1..], acc + Tag(ds[0], pts));
      assert r.Ok? ==> forall i :: |acc| <= i < |r.value| ==> r.value[i].time in ds by {
        if r.Ok? {
          forall i | |acc| <= i < |r.value| ensures r.value[i].time in ds {
            if i < |acc| + |pts| {
              assert r.value[i] == (acc + Tag(ds[0], pts))[i];
            }
          }
        }
      }
      r
  }

  /** The public wrapper of `bootstrap.py`: an empty table gives an empty result,
      a missing required column fails before any date is processed. */
  function LongTableSpec(n: Numerics, f: Frame): (r: Result<seq<TimedPoint>>)
    ensures IsEmpty(f) ==> r == Ok([])
    ensures !IsEmpty(f) && Required - f.columns != {} ==> r == Err(MissingColumns(Required - f.columns))
  {
    if IsEmpty(f) then Ok([])
    else if Required - f.columns != {} then Err(MissingColumns(Required - f.columns))
    else ConcatDates(GroupCurveOf(n), f.records, Dates(f.records), [])
  }

  lemma TailIncreasing(ds: seq<int>)
    requires StrictlyIncreasingTimes(ds) && ds != []
    ensures StrictlyIncreasingTimes(ds[1..]) && ds[0] !in ds[1..]
  {
    var tail := ds[1..];
    forall i, j | 0 <= i < j < |tail| ensures tail[i] < tail[j] {
      assert tail[i] == ds[i + 1] && tail[j] == ds[j + 1];
    }
  }

  predicate TimeOrdered(out: seq<TimedPoint>)
  {
    forall i, j :: 0 <= i < j < |out| ==> out[i].time <= out[j].time
  }

  /** The output is grouped by date in ascending date order. */
  lemma {:induction false} ConcatDatesOrdered(curve: seq<Record> -> Result<seq<Point>>, rs: seq<Record>, ds: seq<int>, acc: seq<TimedPoint>)
    requires StrictlyIncreasingTimes(ds) && TimeOrdered(acc)
    requires forall i, d :: 0 <= i < |acc| && d in ds ==> acc[i].time < d
    requires ConcatDates(curve, rs, ds, acc).Ok?
    ensures TimeOrdered(ConcatDates(curve, rs, ds, acc).value)
    decreases |ds|
  {
    if ds != [] {
      var pts := curve(Group(rs, ds[0])).value;
      var tail := ds[1..];
      TailIncreasing(ds);
      var acc1 := acc + Tag(ds[0], pts);
      forall i, j | 0 <= i < j < |acc1| ensures acc1[i].time <= acc1[j].time {
        if j >= |acc| {
          assert acc1[j].time == ds[0];
          if i < |acc| { assert acc1[i] == acc[i]; }
        }
      }
      forall i, d | 0 <= i < |acc1| && d in tail ensures acc1[i].time < d {
        var k :| 0 <= k < |tail| && tail[k] == d;
        assert ds[k + 1] == d && d in ds && ds[0] < ds[k + 1];
        if i < |acc| {
          assert acc1[i] == acc[i];
        } else {
          assert acc1[i] == Tag(ds[0], pts)[i - |acc|];
        }
      }
      ConcatDatesOrdered(curve, rs, tail, acc1);
    }
  }

  /** The public wrapper lists each date's points together, dates ascending. */
  lemma LongTableOrdered(n: Numerics, f: Frame)
    requires LongTableSpec(n, f).Ok?
    ensures TimeOrdered(LongTableSpec(n, f).value)
  {
    if !IsEmpty(f) && Required - f.columns == {} {
      ConcatDatesOrdered(GroupCurveOf(n), f.records, Dates(f.records), []);
    }
  }

  /** A date whose curve fails makes the whole run fail; there is no partial
      result. */
  lemma {:induction false} ConcatDatesFails(curve: seq<Record> -> Result<seq<Point>>, rs: seq<Record>, ds: seq<int>, acc: seq<TimedPoint>, k: nat)
    requires k < |ds| && curve(Group(rs, ds[k])).Err?
    ensures ConcatDates(curve, rs, ds, acc).Err?
    decreases |ds|
  {
    if k > 0 && curve(Group(rs, ds[0])).Ok? {
      assert ds[1..][k - 1] == ds[k];
      ConcatDatesFails(curve, rs, ds[1..], acc + Tag(ds[0], curve(Group(rs, ds[0])).value), k - 1);
    }
  }

  /** The loop over the date groups. */
  method BootstrapLongTable(n: Numerics, f: Frame) returns (r: Result<seq<TimedPoint>>)
    ensures r == LongTableSpec(n, f)
  {
    if IsEmpty(f) {
      return Ok([]);
    }
    var missing := Required - f.columns;
    if missing != {} {
      return Err(MissingColumns(missing));
    }
    var curve := GroupCurveOf(n);
    var ds := Dates(f.records);
    var results: seq<TimedPoint> := [];
    var i := 0;
    assert ds[0..] == ds;
    while i < |ds|
      invariant 0 <= i <= |ds|
      invariant LongTableSpec(n, f) == ConcatDates(curve, f.records, ds[i..], results)
    {
      assert ds[i..][0] == ds[i] && ds[i..][1..] == ds[i + 1..];
      var g := Group(f.records, ds[i]);
      var rows := ToRows(n, g, "tenor_days", "coupon");
      if rows.Err? {
        assert curve(g).Err?;
        return Err(rows.error);
      }
      var zdf := BootstrapFromCurve(n, rows.value);
      assert curve(g) == zdf;
      if zdf.Err? {
        return Err(zdf.error);
      }
      results := results + Tag(ds[i], zdf.value);
      i := i + 1;
    }
    return Ok(results);
  }

  // ---------------------------------------------------------------------------
  // `boostrap_mbono_curve` in rates_to_curves.py: a map of curves
  // ---------------------------------------------------------------------------

  /** A date with fewer rows than this is skipped. */
  const MinRows: nat := 5

  /** The columns a surviving date reads, in the order they are read. */
  const SliceColumns: seq<string> := ["days_to_maturity", "clean_price", "dirty_price", "current_coupon", "type"]

  function FirstMissing(columns: set<string>, names: seq<string>): (o: Option<string>)
    ensures o.None? <==> forall i :: 0 <= i < |names| ==> names[i] in columns
    ensures o.Some? ==> o.value in names && o.value !in columns
  {
    if names == [] then None
    else if names[0] !in columns then Some(names[0])
    else
      var rest := FirstMissing(columns, names[1..]);
      assert forall i :: 0 < i < |names| ==> names[i] == names[1..][i - 1];
      rest
  }

  /** One surviving date: the renamed and coerced rows, bootstrapped. */
  function SliceCurve(n: Numerics, columns: set<string>, g: seq<Record>): (r: Result<seq<Point>>)
    ensures FirstMissing(columns, SliceColumns).Some? ==> r == Err(MissingColumns({FirstMissing(columns, SliceColumns).value}))
  {
    match FirstMissing(columns, SliceColumns)
    case Some(c) => Err(MissingColumns({c}))
    case None =>
      var rows :- ToRows(n, g, "days_to_maturity", "current_coupon");
      BootstrapSpec(n, rows)
  }
  /** `SliceCurve` as the per-date curve of the fold. */
  function SliceCurveOf(n: Numerics, columns: set<string>): (curve: seq<Record> -> Result<seq<Point>>)
    ensures forall g :: curve(g) == SliceCurve(n, columns, g)
  {
    g => SliceCurve(n, columns, g)
  }


  /** `g.set_index("days_to_maturity")["zero_rate"].to_dict()`: a later point with
      the same number of days replaces an earlier one. */
  function ToDict(pts: seq<Point>): (m: map<int, Rate>)
  {
    if pts == [] then map[]
    else ToDict(pts[..|pts| - 1])[pts[|pts| - 1].days := pts[|pts| - 1].zeroRate]
  }

  /** The keys of the dictionary are the days of the points. */
  lemma {:induction false} ToDictKeys(pts: seq<Point>)
    ensures forall k :: k in ToDict(pts) <==> exists i :: 0 <= i < |pts| && pts[i].days == k
    decreases |pts|
  {
    if pts != [] {
      var init := pts[..|pts| - 1];
      assert forall i :: 0 <= i < |init| ==> init[i] == pts[i];
      ToDictKeys(init);
    }
  }

  /** Each day maps to the rate of the last point with that day. */
  lemma {:induction false} ToDictLastWins(pts: seq<Point>, i: nat)
    requires i < |pts|
    requires forall j :: i < j < |pts| ==> pts[j].days != pts[i].days
    ensures pts[i].days in ToDict(pts) && ToDict(pts)[pts[i].days] == pts[i].zeroRate
  {
    if i < |pts| - 1 {
      var init := pts[..|pts| - 1];
      assert init[i] == pts[i];
      ToDictLastWins(init, i);
    }
  }

  /** A date contributes when it has enough rows and a non-empty curve. */
  predicate Contributes(curve: seq<Record> -> Result<seq<Point>>, rs: seq<Record>, d: int)
  {
    |Group(rs, d)| >= MinRows && curve(Group(rs, d)).Ok? && curve(Group(rs, d)).value != []
  }

  type CurveMap = map<(int, string), map<int, Rate>>

  /** `if not zdf.empty: curves[(date, uid)] = zdf_to_dict(zdf)`. */
  function AddCurve(uid: string, d: int, pts: seq<Point>, acc: CurveMap): CurveMap
  {
    if pts == [] then acc else acc[(d, uid) := ToDict(pts)]
  }

  /** Folds the dates, in order, into the result map. */
  function FoldCurves(uid: string, curve: seq<Record> -> Result<seq<Point>>, rs: seq<Record>, ds: seq<int>, acc: CurveMap): Result<CurveMap>
    decreases |ds|
  {
    if ds == [] then Ok(acc)
    else
      var g := Group(rs, ds[0]);
      if |g| < MinRows then FoldCurves(uid, curve, rs, ds[1..], acc)
      else
        var pts :- curve(g);
        FoldCurves(uid, curve, rs, ds[1..], AddCurve(uid, ds[0], pts, acc))
  }

  /** The registered wrapper: an empty table gives an empty map, a table without
      `time_index` cannot be grouped. */
  function CurvesSpec(n: Numerics, uid: string, f: Frame): (r: Result<CurveMap>)
    ensures IsEmpty(f) ==> r == Ok(map[])
    ensures !IsEmpty(f) && "time_index" !in f.columns ==> r == Err(MissingColumns({"time_index"}))
  {
    if IsEmpty(f) then Ok(map[])
    else if "time_index" !in f.columns then Err(MissingColumns({"time_index"}))
    else FoldCurves(uid, SliceCurveOf(n, f.columns), f.records, Dates(f.records), map[])
  }

  /** What the fold leaves in the map: the entries it started with, plus one
      entry per contributing date, holding that date's curve as a dictionary;
      a date with fewer than five rows contributes nothing. */
  lemma {:induction false} FoldCurvesEntries(uid: string, curve: seq<Record> -> Result<seq<Point>>, rs: seq<Record>, ds: seq<int>, acc: CurveMap)
    requires StrictlyIncreasingTimes(ds)
    requires forall key :: key in acc ==> key.0 !in ds
    requires FoldCurves(uid, curve, rs, ds, acc).Ok?
    ensures var m := FoldCurves(uid, curve, rs, ds, acc).value;
            && (forall key :: key in m <==> key in acc || (key.1 == uid && key.0 in ds && Contributes(curve, rs, key.0)))
            && (forall key :: key in acc ==> m[key] == acc[key])
            && (forall d :: d in ds && Contributes(curve, rs, d) ==> m[(d, uid)] == ToDict(curve(Group(rs, d)).value))
    decreases |ds|
  {
    if ds != [] {
      var d, tail := ds[0], ds[1..];
      TailIncreasing(ds);
      assert forall x :: x in ds <==> x == d || x in tail;
      var g := Group(rs, d);
      if |g| < MinRows {
        FoldCurvesEntries(uid, curve, rs, tail, acc);
      } else {
        var pts := curve(g).value;
        var acc1 := AddCurve(uid, d, pts, acc);
        FoldCurvesEntries(uid, curve, rs, tail, acc1);
      }
    }
  }

  /** The registered wrapper's result: one entry per date that has at least five
      rows and a non-empty curve, keyed by the date and the curve id, holding
      that date's `{days: zero rate}`. */
  lemma CurvesEntries(n: Numerics, uid: string, f: Frame)
    requires !IsEmpty(f) && "time_index" in f.columns
    requires CurvesSpec(n, uid, f).Ok?
    ensures var m := CurvesSpec(n, uid, f).value;
            var curve := SliceCurveOf(n, f.columns);
            var ds := Dates(f.records);
            && (forall key :: key in m <==> key.1 == uid && key.0 in ds && Contributes(curve, f.records, key.0))
            && (forall d :: d in ds && Contributes(curve, f.records, d) ==> m[(d, uid)] == ToDict(curve(Group(f.records, d)).value))
  {
    FoldCurvesEntries(uid, SliceCurveOf(n, f.columns), f.records, Dates(f.records), map[]);
  }

  /** An error on any date with enough rows aborts the whole run. */
  lemma {:induction false} FoldCurvesFails(uid: string, curve: seq<Record> -> Result<seq<Point>>, rs: seq<Record>, ds: seq<int>, acc: CurveMap, k: nat)
    requires k < |ds| && |Group(rs, ds[k])| >= MinRows && curve(Group(rs, ds[k])).Err?
    ensures FoldCurves(uid, curve, rs, ds, acc).Err?
    decreases |ds|
  {
    if k > 0 {
      assert ds[1..][k - 1] == ds[k];
      var g := Group(rs, ds[0]);
      if |g| < MinRows {
        FoldCurvesFails(uid, curve, rs, ds[1..], acc, k - 1);
      } else if curve(g).Ok? {
        var pts := curve(g).value;
        FoldCurvesFails(uid, curve, rs, ds[1..], AddCurve(uid, ds[0], pts, acc), k - 1);
      }
    }
  }

  /** One date of the fold: skipped below five rows, otherwise its curve either
      aborts the fold or is added when it is not empty. */
  lemma FoldCurvesStep(uid: string, curve: seq<Record> -> Result<seq<Point>>, rs: seq<Record>, ds: seq<int>, acc: CurveMap)
    requires ds != []
    ensures var g := Group(rs, ds[0]);
            var rest := FoldCurves(uid, curve, rs, ds[1..], acc);
            && (|g| < MinRows ==> FoldCurves(uid, curve, rs, ds, acc) == rest)
            && (|g| >= MinRows && curve(g).Err? ==> FoldCurves(uid, curve, rs, ds, acc) == Err(curve(g).error))
            && (|g| >= MinRows && curve(g) == Ok([]) ==> FoldCurves(uid, curve, rs, ds, acc) == rest)
            && (|g| >= MinRows && curve(g).Ok? && curve(g).value != [] ==>
                  FoldCurves(uid, curve, rs, ds, acc) == FoldCurves(uid, curve, rs, ds[1..], AddCurve(uid, ds[0], curve(g).value, acc)))
  {}

  /** The body of the loop for a date with enough rows. */
  method DateCurve(n: Numerics, columns: set<string>, g: seq<Record>) returns (r: Result<seq<Point>>)
    ensures r == SliceCurve(n, columns, g)
  {
    var missing := FirstMissing(columns, SliceColumns);
    if missing.Some? {
      return Err(MissingColumns({missing.value}));
    }
    var rows := ToRows(n, g, "days_to_maturity", "current_coupon");
    if rows.Err? {
      return Err(rows.error);
    }
    r := BootstrapFromCurve(n, rows.value);
  }

  /** The loop over the date groups of the registered wrapper. */
  method BootstrapCurves(n: Numerics, uid: string, f: Frame) returns (r: Result<CurveMap>)
    ensures r == CurvesSpec(n, uid, f)
  {
    if IsEmpty(f) {
      return Ok(map[]);
    }
    if "time_index" !in f.columns {
      return Err(MissingColumns({"time_index"}));
    }
    var curve := SliceCurveOf(n, f.columns);
    var ds := Dates(f.records);
    var curves: CurveMap := map[];
    var i := 0;
    assert ds[0..] == ds;
    while i < |ds|
      invariant 0 <= i <= |ds|
      invariant CurvesSpec(n, uid, f) == FoldCurves(uid, curve, f.records, ds[i..], curves)
    {
      assert ds[i..][0] == ds[i] && ds[i..][1..] == ds[i + 1..];
      FoldCurvesStep(uid, curve, f.records, ds[i..], curves);
      var g := Group(f.records, ds[i]);
      if |g| >= MinRows {
        var pts := DateCurve(n, f.columns, g);
        assert curve(g) == pts;
        if pts.Err? {
          return Err(pts.error);
        }
        curves := AddCurve(uid, ds[i], pts.value, curves);
      }
      i := i + 1;
    }
    assert ds[i..] == [];
    return Ok(curves);
  }
}
