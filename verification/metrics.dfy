/** `MetricsCalculator` of `src/backtest/metrics.py`: returns and drawdown
    of an equity curve, the ratio metrics with their guard branches, and the
    trade statistics of the summary. Square roots are a parameter; numpy's
    `inf` and `nan` results are `ExtReal` values. */
module Metrics {
  import opened Common

  /** A closed trade as the calculator sees it; times are timestamps. */
  datatype TradeMetrics = TradeMetrics(
    entryTime: real,
    exitTime: real,
    entryPrice: real,
    exitPrice: real,
    quantity: real,
    profitLoss: real,
    profitLossPercent: real,
    duration: int,
    maxProfit: real,
    maxLoss: real)

  // ---------------------------------------------------------------------------
  // calculate_returns
  // ---------------------------------------------------------------------------

  /** One step of `calculate_returns`: 0 after a zero equity, else the
      percentage change. */
  function StepReturn(prev: real, next: real): (r: real)
    ensures prev == 0.0 ==> r == 0.0
    ensures prev != 0.0 ==> r * prev == (next - prev) * 100.0
  {
    if prev == 0.0 then 0.0 else (next - prev) / prev * 100.0
  }

  /** `calculate_returns`: one entry per consecutive pair of the curve. */
  function CalculateReturns(equity: seq<real>): (r: seq<real>)
    ensures |r| == if |equity| == 0 then 0 else |equity| - 1
    ensures forall i :: 0 <= i < |r| ==> r[i] == StepReturn(equity[i], equity[i + 1])
  {
    if |equity| == 0 then []
    else seq(|equity| - 1, i requires 0 <= i < |equity| - 1 => StepReturn(equity[i], equity[i + 1]))
  }

  /** The returns give the curve back: from the first equity, each next
      value is the previous grown by its return, as long as no equity before
      the last is zero. */
  lemma ReturnsRebuildCurve(equity: seq<real>, i: nat)
    requires i + 1 < |equity| && equity[i] != 0.0
    ensures equity[i + 1] == equity[i] * (1.0 + CalculateReturns(equity)[i] / 100.0)
  {
    GrowBy(equity[i], equity[i + 1]);
  }

  lemma GrowBy(prev: real, next: real)
    requires prev != 0.0
    ensures next == prev * (1.0 + StepReturn(prev, next) / 100.0)
  {
    var r := StepReturn(prev, next);
    assert r == (next - prev) / prev * 100.0;
    assert r / 100.0 == (next - prev) / prev;
    assert prev * ((next - prev) / prev) == next - prev;
  }

  // ---------------------------------------------------------------------------
  // calculate_drawdown
  // ---------------------------------------------------------------------------

  /** `np.maximum.accumulate`: the highest equity seen so far. Each peak
      is an earlier equity (`PeakOf`). */
  function RunningMax(e: seq<real>): (m: seq<real>)
    ensures |m| == |e|
    ensures |e| > 0 ==> m[0] == e[0]
    ensures forall i, j :: 0 <= j <= i < |e| ==> e[j] <= m[i]
    ensures forall i, j :: 0 <= j <= i < |e| ==> m[j] <= m[i]
    decreases |e|
  {
    if |e| == 0 then []
    else if |e| == 1 then [e[0]]
    else
      var prior := RunningMax(e[..|e| - 1]);
      prior + [Max(prior[|e| - 2], e[|e| - 1])]
  }

  /** numpy's `(e - m) / m * 100`: finite for a non-zero peak, `nan` for
      `0 / 0`, and an infinity of the numerator's sign otherwise. */
  function DrawdownEntry(e: real, m: real): (r: ExtReal)
    ensures m != 0.0 ==> r.Finite? && r.v * m == (e - m) * 100.0
    ensures m == 0.0 ==> !r.Finite?
  {
    if m != 0.0 then Finite((e - m) / m * 100.0)
    else if e == 0.0 then NaN
    else if e < 0.0 then NegInf
    else PosInf
  }

  /** The drawdown series against the running maximum. */
  function DrawdownSeries(e: seq<real>): (r: seq<ExtReal>)
    ensures |r| == |e|
    ensures forall i :: 0 <= i < |e| ==> r[i] == DrawdownEntry(e[i], RunningMax(e)[i])
  {
    var m := RunningMax(e);
    seq(|e|, i requires 0 <= i < |e| => DrawdownEntry(e[i], m[i]))
  }

  lemma DrawdownEntryNonPositive(e: real, m: real)
    requires 0.0 < m && e <= m
    ensures DrawdownEntry(e, m).Finite? && DrawdownEntry(e, m).v <= 0.0
  {
    var d := DrawdownEntry(e, m).v;
    if d > 0.0 {
      assert d * m > 0.0;
    }
  }

  /** With a positive first equity every peak is positive, so every entry
      is finite and at most 0. */
  lemma DrawdownNonPositive(e: seq<real>)
    requires |e| > 0 && e[0] > 0.0
    ensures forall i :: 0 <= i < |e| ==> DrawdownSeries(e)[i].Finite? && DrawdownSeries(e)[i].v <= 0.0
  {
    var m := RunningMax(e);
    forall i | 0 <= i < |e|
      ensures DrawdownSeries(e)[i].Finite? && DrawdownSeries(e)[i].v <= 0.0
    {
      assert e[0] <= m[i] && e[i] <= m[i];
      DrawdownEntryNonPositive(e[i], m[i]);
    }
  }

  /** Python's `a > b` on floats: false whenever `nan` is involved. */
  predicate Greater(a: ExtReal, b: ExtReal)
  {
    match (a, b)
    case (NaN, _) => false
    case (_, NaN) => false
    case (PosInf, _) => !b.PosInf?
    case (_, NegInf) => !a.NegInf?
    case (Finite(x), Finite(y)) => x > y
    case _ => false
  }

  /** `abs` of a float. */
  function ExtAbs(x: ExtReal): (r: ExtReal)
    ensures x.Finite? ==> r == Finite(Abs(x.v))
    ensures x.PosInf? || x.NegInf? ==> r == PosInf
    ensures x.NaN? ==> r == NaN
  {
    match x
    case Finite(v) => Finite(Abs(v))
    case NaN => NaN
    case _ => PosInf
  }

  /** The builtin `max` over an iterable: keep the first item and replace it
      by each later item that compares greater. */
  function PyMax(xs: seq<ExtReal>): (r: ExtReal)
    requires |xs| > 0
    ensures r in xs
    decreases |xs|
  {
    if |xs| == 1 then xs[0]
    else
      var c := PyMax(xs[..|xs| - 1]);
      if Greater(xs[|xs| - 1], c) then xs[|xs| - 1] else c
  }

  /** The fold of `np.min` for values without `nan`. */
  function MinFold(xs: seq<ExtReal>): (r: ExtReal)
    requires |xs| > 0
    ensures r in xs
    decreases |xs|
  {
    if |xs| == 1 then xs[0]
    else
      var c := MinFold(xs[..|xs| - 1]);
      if Greater(c, xs[|xs| - 1]) then xs[|xs| - 1] else c
  }

  /** `np.min`: `nan` as soon as one value is `nan`. */
  function NpMin(xs: seq<ExtReal>): (r: ExtReal)
    requires |xs| > 0
    ensures NaN in xs ==> r == NaN
    ensures NaN !in xs ==> r == MinFold(xs)
  {
    if NaN in xs then NaN else MinFold(xs)
  }

  function AbsAll(xs: seq<ExtReal>): (r: seq<ExtReal>)
    ensures |r| == |xs| && forall i :: 0 <= i < |xs| ==> r[i] == ExtAbs(xs[i])
  {
    seq(|xs|, i requires 0 <= i < |xs| => ExtAbs(xs[i]))
  }

  /** The first position holding `v`. */
  function FirstIndexOf<T(==)>(xs: seq<T>, v: T): (i: nat)
    requires v in xs
    ensures i < |xs| && xs[i] == v
  {
    if xs[0] == v then 0
    else
      assert v in xs[1..];
      FirstIndexOf(xs[1..], v) + 1
  }

  lemma {:induction false} FirstIndexOfIsFirst<T>(xs: seq<T>, v: T)
    requires v in xs
    ensures forall k :: 0 <= k < FirstIndexOf(xs, v) ==> xs[k] != v
  {
    if xs[0] != v {
      assert v in xs[1..];
      FirstIndexOfIsFirst(xs[1..], v);
      forall k | 1 <= k < FirstIndexOf(xs, v)
        ensures xs[k] != v
      {
        assert xs[k] == xs[1..][k - 1];
      }
    }
  }

  /** `np.argmin`: the first `nan`, or else the first occurrence of the
      minimum. */
  function NpArgMin(xs: seq<ExtReal>): (i: nat)
    requires |xs| > 0
    ensures i < |xs| && xs[i] == NpMin(xs)
  {
    FirstIndexOf(xs, NpMin(xs))
  }

  /** `np.argmax` of a non-empty float array: the first occurrence of the
      maximum. */
  function NpArgMax(xs: seq<real>): (i: nat)
    requires |xs| > 0
    ensures i < |xs| && xs[i] == MaxOf(xs)
  {
    FirstIndexOf(xs, MaxOf(xs))
  }

  /** The index of the deepest drawdown. */
  function Trough(e: seq<real>): (t: nat)
    requires |e| > 0
    ensures t < |e| && DrawdownSeries(e)[t] == NpMin(DrawdownSeries(e))
  {
    NpArgMin(DrawdownSeries(e))
  }

  /** Where the running peak before the trough was first reached: the
      duration's start, for a trough after the first point. */
  function PeakStart(e: seq<real>, t: nat): (s: nat)
    requires 0 < t < |e|
    ensures s < t && RunningMax(e)[s] == RunningMax(e)[t - 1]
  {
    var m := RunningMax(e);
    var prefix := m[..t];
    var s := NpArgMax(prefix);
    assert m[s] <= m[t - 1] && prefix[t - 1] <= prefix[s];
    s
  }

  /** Before its start the peak had not yet been reached: the start is
      where the running maximum first took the value it holds at the
      trough's predecessor. */
  lemma PeakStartIsFirst(e: seq<real>, t: nat)
    requires 0 < t < |e|
    ensures forall k :: 0 <= k < PeakStart(e, t) ==> RunningMax(e)[k] < RunningMax(e)[t - 1]
  {
    var m := RunningMax(e);
    var prefix := m[..t];
    FirstIndexOfIsFirst(prefix, MaxOf(prefix));
    forall k | 0 <= k < PeakStart(e, t)
      ensures m[k] < m[t - 1]
    {
      assert prefix[k] <= MaxOf(prefix) && prefix[k] != MaxOf(prefix);
    }
  }

  /** `calculate_drawdown` as written: the largest absolute drawdown
      percentage, the absolute minimum drawdown percentage and the
      duration from the peak to the trough. numpy's `min` of an empty
      curve is a `ValueError`, and so is `argmax` of the empty slice taken
      when the trough is the first point. */
  function CalculateDrawdownAsWritten(e: seq<real>): (r: Result<(ExtReal, ExtReal, int)>)
    ensures r.Err? <==> |e| == 0 || DrawdownSeries(e)[0] == NpMin(DrawdownSeries(e))
    ensures r.Ok? ==> r.value.1 == ExtAbs(NpMin(DrawdownSeries(e)))
    ensures r.Ok? ==> r.value.0 == PyMax(AbsAll(DrawdownSeries(e)))
    ensures r.Ok? ==> 0 < Trough(e) && r.value.2 == Trough(e) - PeakStart(e, Trough(e)) > 0
  {
    if |e| == 0 then Err(ValueError("zero-size array to reduction operation minimum which has no identity"))
    else
      var dd := DrawdownSeries(e);
      var t := Trough(e);
      if t == 0 then Err(ValueError("attempt to get argmax of an empty sequence"))
      else
        Ok((PyMax(AbsAll(dd)), ExtAbs(NpMin(dd)), t - PeakStart(e, t)))
  }

  lemma {:induction false} MaxAbsIsAbsMin(xs: seq<ExtReal>)
    requires |xs| > 0 && forall i :: 0 <= i < |xs| ==> xs[i].Finite? && xs[i].v <= 0.0
    ensures MinFold(xs).Finite? && PyMax(AbsAll(xs)) == ExtAbs(MinFold(xs))
    decreases |xs|
  {
    if |xs| > 1 {
      var init := xs[..|xs| - 1];
      MaxAbsIsAbsMin(init);
      assert AbsAll(xs)[..|xs| - 1] == AbsAll(init);
      assert MinFold(init) in init;
    }
  }

  /** On finite values the fold is the least of them. */
  lemma {:induction false} MinFoldLeast(xs: seq<ExtReal>)
    requires |xs| > 0 && forall i :: 0 <= i < |xs| ==> xs[i].Finite?
    ensures MinFold(xs).Finite? && forall i :: 0 <= i < |xs| ==> MinFold(xs).v <= xs[i].v
    decreases |xs|
  {
    if |xs| > 1 {
      var init := xs[..|xs| - 1];
      MinFoldLeast(init);
      forall i | 0 <= i < |xs| - 1
        ensures MinFold(init).v <= xs[i].v
      {
        assert xs[i] == init[i];
      }
    }
  }

  /** A curve starting positive makes the code as written raise exactly
      when it never falls below its running peak, a flat or rising curve
      such as 100, 110 among them. */
  lemma NeverFallingCurveRaises(e: seq<real>)
    requires |e| > 0 && e[0] > 0.0
    ensures CalculateDrawdownAsWritten(e).Err? <==> forall i :: 0 <= i < |e| ==> e[i] == RunningMax(e)[i]
  {
    FirstDrawdownZero(e);
    if forall i :: 0 <= i < |e| ==> e[i] == RunningMax(e)[i] {
      FlatCurveMinZero(e);
    }
    if DrawdownSeries(e)[0] == NpMin(DrawdownSeries(e)) {
      ZeroMinMeansFlat(e);
    }
  }

  lemma FirstDrawdownZero(e: seq<real>)
    requires |e| > 0 && e[0] > 0.0
    ensures DrawdownSeries(e)[0] == Finite(0.0)
  {
    assert RunningMax(e)[0] == e[0];
  }

  lemma FlatCurveMinZero(e: seq<real>)
    requires |e| > 0 && e[0] > 0.0
    requires forall i :: 0 <= i < |e| ==> e[i] == RunningMax(e)[i]
    ensures NpMin(DrawdownSeries(e)) == Finite(0.0)
  {
    var m := RunningMax(e);
    var dd := DrawdownSeries(e);
    forall i | 0 <= i < |e|
      ensures dd[i] == Finite(0.0)
    {
      assert e[0] <= m[i];
    }
    assert NpMin(dd) in dd;
  }

  lemma ZeroMinMeansFlat(e: seq<real>)
    requires |e| > 0 && e[0] > 0.0
    requires DrawdownSeries(e)[0] == NpMin(DrawdownSeries(e))
    ensures forall i :: 0 <= i < |e| ==> e[i] == RunningMax(e)[i]
  {
    var m := RunningMax(e);
    var dd := DrawdownSeries(e);
    FirstDrawdownZero(e);
    DrawdownNonPositive(e);
    ZeroMinAllZero(dd);
    forall i | 0 <= i < |e|
      ensures e[i] == m[i]
    {
      assert e[0] <= m[i];
      ZeroEntryAtPeak(e[i], m[i]);
    }
  }

  /** Values at most 0 whose minimum is 0 are all 0. */
  lemma ZeroMinAllZero(xs: seq<ExtReal>)
    requires |xs| > 0 && forall i :: 0 <= i < |xs| ==> xs[i].Finite? && xs[i].v <= 0.0
    requires NpMin(xs) == Finite(0.0)
    ensures forall i :: 0 <= i < |xs| ==> xs[i] == Finite(0.0)
  {
    assert NaN !in xs;
    MinFoldLeast(xs);
  }

  lemma ZeroEntryAtPeak(e: real, m: real)
    requires 0.0 < m && DrawdownEntry(e, m) == Finite(0.0)
    ensures e == m
  {
  }

  /** As written, the first component is not an amount: on a curve
      starting positive that falls somewhere both components are the same
      percentage. The curve 200, 100 reports 50 twice, while the equity
      fell by 100. */
  lemma DrawdownAmountIsPercent(e: seq<real>, i: nat)
    requires i < |e| && e[0] > 0.0 && e[i] < RunningMax(e)[i]
    ensures var r := CalculateDrawdownAsWritten(e);
      r.Ok? && r.value.0 == r.value.1 && r.value.1.Finite?
  {
    FallingCurveAnswers(e, i);
    DrawdownNonPositive(e);
    AbsMaxIsAbsMin(DrawdownSeries(e));
  }

  lemma FallingCurveAnswers(e: seq<real>, i: nat)
    requires i < |e| && e[0] > 0.0 && e[i] < RunningMax(e)[i]
    ensures CalculateDrawdownAsWritten(e).Ok?
  {
    NeverFallingCurveRaises(e);
  }

  lemma AbsMaxIsAbsMin(xs: seq<ExtReal>)
    requires |xs| > 0 && forall i :: 0 <= i < |xs| ==> xs[i].Finite? && xs[i].v <= 0.0
    ensures NpMin(xs).Finite? && PyMax(AbsAll(xs)) == ExtAbs(NpMin(xs))
  {
    assert NaN !in xs;
    MaxAbsIsAbsMin(xs);
  }

  /** A curve falling from `a` to `b` in one step: as written both
      components are the percentage fall, once corrected the first is the
      amount `a - b`; the duration is one step either way. */
  lemma TwoPointFall(a: real, b: real)
    requires 0.0 < a && b < a
    ensures var p := (a - b) / a * 100.0;
      && CalculateDrawdownAsWritten([a, b]) == Ok((Finite(p), Finite(p), 1))
      && CalculateDrawdown([a, b]) == Ok((a - b, Finite(p), 1))
  {
    TwoPointAsWritten(a, b, (a - b) / a * 100.0);
    TwoPointCorrected(a, b, (a - b) / a * 100.0);
  }

  lemma TwoPointTrough(a: real, b: real)
    requires 0.0 < a && b < a
    ensures Trough([a, b]) == 1
    ensures NpMin(DrawdownSeries([a, b])) == Finite(-((a - b) / a * 100.0))
  {
    TwoPointSeries(a, b);
    TwoPointReductions((a - b) / a * 100.0);
  }

  lemma TwoPointAsWritten(a: real, b: real, p: real)
    requires 0.0 < a && b < a && p == (a - b) / a * 100.0
    ensures CalculateDrawdownAsWritten([a, b]) == Ok((Finite(p), Finite(p), 1))
  {
    TwoPointSeries(a, b);
    TwoPointReductions(p);
    TwoPointTrough(a, b);
    var w := CalculateDrawdownAsWritten([a, b]);
    assert w.Ok?;
    assert w.value.0 == Finite(p);
    assert w.value.1 == ExtAbs(Finite(-p)) == Finite(p);
    assert w.value == (Finite(p), Finite(p), 1);
    assert w == Ok((Finite(p), Finite(p), 1));
  }

  lemma TwoPointCorrected(a: real, b: real, p: real)
    requires 0.0 < a && b < a && p == (a - b) / a * 100.0
    ensures CalculateDrawdown([a, b]) == Ok((a - b, Finite(p), 1))
  {
    TwoPointTrough(a, b);
    TwoPointDrops(a, b);
    var r := CalculateDrawdown([a, b]);
    assert r.Ok?;
    assert r.value.0 == a - b;
    assert r.value.1 == ExtAbs(Finite(-p)) == Finite(p);
    assert DrawdownDuration([a, b]) == 1;
    assert r.value == (a - b, Finite(p), 1);
    assert r == Ok((a - b, Finite(p), 1));
  }

  lemma TwoPointSeries(a: real, b: real)
    requires 0.0 < a && b < a
    ensures (a - b) / a * 100.0 > 0.0
    ensures RunningMax([a, b]) == [a, a]
    ensures DrawdownSeries([a, b]) == [Finite(0.0), Finite(-((a - b) / a * 100.0))]
  {
    var e := [a, b];
    var m := RunningMax(e);
    var j := PeakOf(e, 1);
    assert m == [a, a];
    var dd := DrawdownSeries(e);
    assert dd[0] == DrawdownEntry(a, a) == Finite(0.0);
    assert (b - a) / a * 100.0 == -((a - b) / a * 100.0);
    assert dd[1] == DrawdownEntry(b, a);
  }

  lemma TwoPointReductions(p: real)
    requires p > 0.0
    ensures NpMin([Finite(0.0), Finite(-p)]) == Finite(-p)
    ensures PyMax(AbsAll([Finite(0.0), Finite(-p)])) == Finite(p)
  {
    var dd := [Finite(0.0), Finite(-p)];
    assert dd[..1] == [Finite(0.0)];
    assert MinFold(dd) == Finite(-p);
    var abs := AbsAll(dd);
    assert abs == [Finite(0.0), Finite(p)];
    assert abs[..1] == [Finite(0.0)];
  }

  lemma TwoPointDrops(a: real, b: real)
    requires 0.0 < a && b < a
    ensures MaxOf(Drops([a, b])) == a - b
  {
    TwoPointSeries(a, b);
    var drops := Drops([a, b]);
    assert drops[0] == 0.0 && drops[1] == a - b;
    assert drops == [0.0, a - b];
    assert drops[1..] == [a - b];
  }

  /** A curve that never falls below its running peak has, once
      corrected, no drawdown: amount 0, percentage 0, duration 0. */
  lemma NeverFallingCorrected(e: seq<real>)
    requires |e| > 0 && e[0] > 0.0
    requires forall i :: 0 <= i < |e| ==> e[i] == RunningMax(e)[i]
    ensures CalculateDrawdown(e) == Ok((0.0, Finite(0.0), 0))
  {
    FirstDrawdownZero(e);
    FlatCurveMinZero(e);
    var drops := Drops(e);
    assert drops[FirstIndexOf(drops, MaxOf(drops))] == 0.0;
    assert Trough(e) == 0;
  }

  /** The curve 200, 100: a drawdown of 50 % reported twice as written,
      and a drop of 100 next to the 50 % once corrected. */
  lemma DrawdownExample()
    ensures CalculateDrawdownAsWritten([200.0, 100.0]) == Ok((Finite(50.0), Finite(50.0), 1))
    ensures CalculateDrawdown([200.0, 100.0]) == Ok((100.0, Finite(50.0), 1))
  {
    TwoPointFall(200.0, 100.0);
  }

  /** The rising curve 100, 110: `ValueError` as written, no drawdown
      once corrected. */
  lemma RisingCurveExample()
    ensures CalculateDrawdownAsWritten([100.0, 110.0]).Err?
    ensures CalculateDrawdown([100.0, 110.0]) == Ok((0.0, Finite(0.0), 0))
  {
    var e := [100.0, 110.0];
    var m := RunningMax(e);
    var j := PeakOf(e, 1);
    assert m == e;
    NeverFallingCurveRaises(e);
    NeverFallingCorrected(e);
  }

  /** The drop below the running peak at each point. */
  function Drops(e: seq<real>): (r: seq<real>)
    ensures |r| == |e| && forall i :: 0 <= i < |e| ==> r[i] == RunningMax(e)[i] - e[i] && r[i] >= 0.0
  {
    var m := RunningMax(e);
    seq(|e|, i requires 0 <= i < |e| => m[i] - e[i])
  }

  /** `calculate_drawdown` as its documentation describes it: the largest
      drop in equity below an earlier peak as an amount, next to the
      percentage and the duration; a curve whose trough is its first
      point has no drawdown to time and reports a duration of 0 instead of
      raising. */
  function CalculateDrawdown(e: seq<real>): (r: Result<(real, ExtReal, int)>)
    ensures r.Err? <==> |e| == 0
    ensures r.Ok? ==> r.value.1 == ExtAbs(NpMin(DrawdownSeries(e)))
    ensures r.Ok? ==> r.value.2 == DrawdownDuration(e)
    ensures r.Ok? ==> r.value.0 == MaxOf(Drops(e)) >= 0.0
  {
    if |e| == 0 then Err(ValueError("zero-size array to reduction operation minimum which has no identity"))
    else
      MaxDropFacts(e);
      Ok((MaxOf(Drops(e)), ExtAbs(NpMin(DrawdownSeries(e))), DrawdownDuration(e)))
  }

  /** The corrected amount is the largest fall from an earlier (or the
      same) point of the curve to a later one, and some pair attains it. */
  lemma CorrectedDrawdownIsLargestFall(e: seq<real>)
    requires |e| > 0
    ensures var amount := CalculateDrawdown(e).value.0;
      && (forall i, j :: 0 <= j <= i < |e| ==> e[j] - e[i] <= amount)
      && (exists i, j :: 0 <= j <= i < |e| && e[j] - e[i] == amount)
  {
    MaxDropFacts(e);
  }

  /** The steps from the peak before the deepest drawdown to it; 0 when
      the deepest point is the first. */
  function DrawdownDuration(e: seq<real>): (d: nat)
    requires |e| > 0
    ensures Trough(e) == 0 ==> d == 0
    ensures Trough(e) > 0 ==> 0 < d <= Trough(e) && d == Trough(e) - PeakStart(e, Trough(e))
  {
    var t := Trough(e);
    if t == 0 then 0 else t - PeakStart(e, t)
  }

  /** The correction changes nothing where the code as written answers,
      and reports no duration where it raises. */
  lemma CorrectedDrawdownAgrees(e: seq<real>)
    requires |e| > 0
    ensures var (w, r) := (CalculateDrawdownAsWritten(e), CalculateDrawdown(e));
      && r.Ok?
      && (w.Ok? ==> r.value.1 == w.value.1 && r.value.2 == w.value.2)
      && (w.Err? ==> r.value.2 == 0 && r.value.1 == ExtAbs(DrawdownSeries(e)[0]))
  {
  }

  /** Every peak is an earlier equity. */
  lemma {:induction false} PeakOf(e: seq<real>, i: nat) returns (j: nat)
    requires i < |e|
    ensures j <= i && e[j] == RunningMax(e)[i]
    decreases |e|
  {
    if |e| == 1 {
      j := 0;
    } else {
      var init := e[..|e| - 1];
      var prior := RunningMax(init);
      assert RunningMax(e) == prior + [Max(prior[|e| - 2], e[|e| - 1])];
      if i < |e| - 1 {
        j := PeakOf(init, i);
      } else if e[|e| - 1] >= prior[|e| - 2] {
        j := |e| - 1;
      } else {
        j := PeakOf(init, |e| - 2);
      }
    }
  }

  /** The largest drop below the running peak is the largest fall from an
      earlier equity to a later one. */
  lemma MaxDropFacts(e: seq<real>)
    requires |e| > 0
    ensures forall i, j :: 0 <= j <= i < |e| ==> e[j] - e[i] <= MaxOf(Drops(e))
    ensures exists i, j :: 0 <= j <= i < |e| && e[j] - e[i] == MaxOf(Drops(e))
  {
    forall i, j | 0 <= j <= i < |e|
      ensures e[j] - e[i] <= MaxOf(Drops(e))
    {
      DropBelowMax(e, i, j);
    }
    var i, j := MaxDropWitness(e);
  }

  lemma DropBelowMax(e: seq<real>, i: nat, j: nat)
    requires j <= i < |e|
    ensures e[j] - e[i] <= MaxOf(Drops(e))
  {
    var drops := Drops(e);
    assert e[j] <= RunningMax(e)[i];
    assert drops[i] <= MaxOf(drops);
  }

  lemma MaxDropWitness(e: seq<real>) returns (i: nat, j: nat)
    requires |e| > 0
    ensures j <= i < |e| && e[j] - e[i] == MaxOf(Drops(e))
  {
    var drops := Drops(e);
    var k :| 0 <= k < |drops| && drops[k] == MaxOf(drops);
    i := k;
    j := PeakOf(e, i);
  }

  // ---------------------------------------------------------------------------
  // Ratios
  // ---------------------------------------------------------------------------

  /** `np.std`: the square root of the population (`ddof = 0`) variance, so
      a constant sample has the square root of 0. */
  function Std(xs: seq<real>, sqrt: real -> real): (r: real)
    requires |xs| > 0
    ensures r == sqrt(Variance(xs))
    ensures (forall i :: 0 <= i < |xs| ==> xs[i] == xs[0]) ==> r == sqrt(0.0)
  {
    if forall i :: 0 <= i < |xs| ==> xs[i] == xs[0] then
      ConstantVarianceZero(xs);
      sqrt(Variance(xs))
    else sqrt(Variance(xs))
  }

  function Shift(xs: seq<real>, d: real): (r: seq<real>)
    ensures |r| == |xs| && forall i :: 0 <= i < |xs| ==> r[i] == xs[i] - d
  {
    seq(|xs|, i requires 0 <= i < |xs| => xs[i] - d)
  }

  /** A per-period mean over its spread, scaled by the square root of the
      number of periods in a year. */
  function Annualised(mean: real, spread: real, periodsPerYear: int, sqrt: real -> real): real
    requires spread != 0.0
  {
    mean / spread * sqrt(periodsPerYear as real)
  }

  /** `calculate_sharpe_ratio`: 0 with fewer than two returns or no spread,
      else the mean excess return over its spread, annualised; the
      per-period risk-free rate divides by the period count. */
  function SharpeRatio(rets: seq<real>, riskFree: real, periodsPerYear: int, sqrt: real -> real): (r: Result<real>)
    ensures |rets| < 2 ==> r == Ok(0.0)
    ensures r.Err? <==> |rets| >= 2 && periodsPerYear == 0
    ensures r.Ok? && |rets| >= 2 ==>
      var excess := Shift(rets, riskFree / periodsPerYear as real);
      && (Std(excess, sqrt) == 0.0 ==> r.value == 0.0)
      && (Std(excess, sqrt) != 0.0 ==>
            r.value == Annualised(Mean(excess), Std(excess, sqrt), periodsPerYear, sqrt))
  {
    if |rets| < 2 then Ok(0.0)
    else if periodsPerYear == 0 then Err(ZeroDivision)
    else
      var excess := Shift(rets, riskFree / periodsPerYear as real);
      var sd := Std(excess, sqrt);
      if sd == 0.0 then Ok(0.0) else Ok(Annualised(Mean(excess), sd, periodsPerYear, sqrt))
  }

  /** Identical returns have no spread: with a square root of 0 at 0 the
      Sharpe ratio is 0. */
  lemma FlatReturnsSharpeZero(rets: seq<real>, riskFree: real, periodsPerYear: int, sqrt: real -> real)
    requires |rets| >= 2 && periodsPerYear != 0 && sqrt(0.0) == 0.0
    requires forall i :: 0 <= i < |rets| ==> rets[i] == rets[0]
    ensures SharpeRatio(rets, riskFree, periodsPerYear, sqrt) == Ok(0.0)
  {
    var excess := Shift(rets, riskFree / periodsPerYear as real);
    ConstantVarianceZero(excess);
  }

  function Below(xs: seq<real>): (r: seq<real>)
    ensures forall i :: 0 <= i < |r| ==> r[i] < 0.0 && r[i] in xs
    ensures (forall i :: 0 <= i < |xs| ==> xs[i] >= 0.0) ==> r == []
    ensures (exists i :: 0 <= i < |xs| && xs[i] < 0.0) ==> |r| > 0
    decreases |xs|
  {
    if |xs| == 0 then []
    else
      var rest := Below(xs[1..]);
      assert forall i :: 1 <= i < |xs| ==> xs[i] == xs[1..][i - 1];
      if xs[0] < 0.0 then [xs[0]] + rest else rest
  }

  /** The excess returns below the target, in order. */
  function Downside(rets: seq<real>, target: real): (r: seq<real>)
    ensures r == Below(Shift(rets, target))
    ensures |r| == 0 <==> forall i :: 0 <= i < |rets| ==> rets[i] >= target
  {
    var excess := Shift(rets, target);
    if exists i :: 0 <= i < |rets| && rets[i] < target then
      var i :| 0 <= i < |rets| && rets[i] < target;
      assert excess[i] < 0.0;
      Below(excess)
    else
      assert forall i :: 0 <= i < |excess| ==> excess[i] >= 0.0;
      Below(excess)
  }

  /** `calculate_sortino_ratio`: 0 with fewer than two returns or a zero
      downside spread; without any return below the target numpy's standard
      deviation of nothing is `nan`, and so is the ratio. */
  function SortinoRatio(rets: seq<real>, target: real, periodsPerYear: int, sqrt: real -> real): (r: ExtReal)
    ensures |rets| < 2 ==> r == Finite(0.0)
    ensures |rets| >= 2 && (forall i :: 0 <= i < |rets| ==> rets[i] >= target) ==> r == NaN
    ensures |rets| >= 2 && (exists i :: 0 <= i < |rets| && rets[i] < target) ==>
      var excess := Shift(rets, target);
      var down := Below(excess);
      && |down| > 0
      && (Std(down, sqrt) == 0.0 ==> r == Finite(0.0))
      && (Std(down, sqrt) != 0.0 ==> r == Finite(Annualised(Mean(excess), Std(down, sqrt), periodsPerYear, sqrt)))
  {
    if |rets| < 2 then Finite(0.0)
    else
      var excess := Shift(rets, target);
      var down := Downside(rets, target);
      if |down| == 0 then NaN
      else
        var sd := Std(down, sqrt);
        if sd == 0.0 then Finite(0.0) else Finite(Annualised(Mean(excess), sd, periodsPerYear, sqrt))
  }

  /** `calculate_calmar_ratio`: 0 for a zero drawdown; a finite return
      over an infinite drawdown is 0, over `nan` it is `nan`. */
  function CalmarRatio(annualReturn: real, maxDrawdownPercent: ExtReal): (r: ExtReal)
    ensures maxDrawdownPercent == Finite(0.0) ==> r == Finite(0.0)
    ensures maxDrawdownPercent.Finite? && maxDrawdownPercent.v != 0.0 ==>
      r.Finite? && r.v * maxDrawdownPercent.v == annualReturn
    ensures maxDrawdownPercent.NaN? <==> r.NaN?
    ensures maxDrawdownPercent.PosInf? || maxDrawdownPercent.NegInf? ==> r == Finite(0.0)
  {
    match maxDrawdownPercent
    case Finite(d) => if d == 0.0 then Finite(0.0) else Finite(annualReturn / d)
    case NaN => NaN
    case _ => Finite(0.0)
  }

  /** `calculate_recovery_factor`: 0 for a zero drawdown. */
  function RecoveryFactor(netProfit: real, maxDrawdown: real): (r: real)
    ensures maxDrawdown == 0.0 ==> r == 0.0
    ensures maxDrawdown != 0.0 ==> r * maxDrawdown == netProfit
  {
    if maxDrawdown == 0.0 then 0.0 else netProfit / maxDrawdown
  }

  // ---------------------------------------------------------------------------
  // Trade statistics
  // ---------------------------------------------------------------------------

  /** The profits of the winning trades (`profit_loss > 0`), in order. */
  function Profits(ts: seq<TradeMetrics>): (r: seq<real>)
    ensures |r| <= |ts|
    ensures forall i :: 0 <= i < |r| ==> r[i] > 0.0
    decreases |ts|
  {
    if |ts| == 0 then []
    else if ts[0].profitLoss > 0.0 then [ts[0].profitLoss] + Profits(ts[1..])
    else Profits(ts[1..])
  }

  /** The sizes of the losses of the losing trades (`profit_loss < 0`);
      break-even trades are in neither list. */
  function Losses(ts: seq<TradeMetrics>): (r: seq<real>)
    ensures |r| + |Profits(ts)| <= |ts|
    ensures forall i :: 0 <= i < |r| ==> r[i] > 0.0
    decreases |ts|
  {
    if |ts| == 0 then []
    else if ts[0].profitLoss < 0.0 then [-ts[0].profitLoss] + Losses(ts[1..])
    else Losses(ts[1..])
  }

  /** `calculate_win_rate`: the share of winning trades in percent, 0 for
      no trades. */
  function WinRate(ts: seq<TradeMetrics>): (r: real)
    ensures |ts| == 0 ==> r == 0.0
    ensures |ts| > 0 ==> r * (|ts| as real) == (|Profits(ts)| as real) * 100.0
  {
    if |ts| == 0 then 0.0 else (|Profits(ts)| as real) / (|ts| as real) * 100.0
  }

  /** The win rate is a percentage, and 100 exactly when every trade wins. */
  lemma WinRateBounds(ts: seq<TradeMetrics>)
    ensures 0.0 <= WinRate(ts) <= 100.0
    ensures |ts| > 0 ==> (WinRate(ts) == 100.0 <==> |Profits(ts)| == |ts|)
  {
    if |ts| > 0 {
      var n := |ts| as real;
      var w := |Profits(ts)| as real;
      var r := WinRate(ts);
      assert r * n == w * 100.0;
      if r == 100.0 {
        assert w * 100.0 == n * 100.0;
      }
    }
  }

  lemma {:induction false} PositiveSum(xs: seq<real>)
    requires forall i :: 0 <= i < |xs| ==> xs[i] > 0.0
    ensures |xs| > 0 ==> Sum(xs) > 0.0
    ensures Sum(xs) >= 0.0
    decreases |xs|
  {
    if |xs| > 0 {
      PositiveSum(xs[..|xs| - 1]);
    }
  }

  /** The summed profits of the winners: positive exactly when some trade
      won. */
  function GrossProfit(ts: seq<TradeMetrics>): (g: real)
    ensures g >= 0.0 && (g > 0.0 <==> |Profits(ts)| > 0)
  {
    PositiveSum(Profits(ts));
    Sum(Profits(ts))
  }

  /** The summed loss sizes of the losers: positive exactly when some trade
      lost. */
  function GrossLoss(ts: seq<TradeMetrics>): (g: real)
    ensures g >= 0.0 && (g > 0.0 <==> |Losses(ts)| > 0)
  {
    PositiveSum(Losses(ts));
    Sum(Losses(ts))
  }

  /** `calculate_profit_factor`: gross profit over gross loss; without
      losses `inf` if anything was won and 0 otherwise. */
  function ProfitFactor(ts: seq<TradeMetrics>): (r: ExtReal)
    ensures GrossLoss(ts) == 0.0 && GrossProfit(ts) > 0.0 ==> r == PosInf
    ensures GrossLoss(ts) == 0.0 && GrossProfit(ts) <= 0.0 ==> r == Finite(0.0)
    ensures GrossLoss(ts) != 0.0 ==> r.Finite? && r.v * GrossLoss(ts) == GrossProfit(ts)
  {
    var gp := GrossProfit(ts);
    var gl := GrossLoss(ts);
    if gl == 0.0 then (if gp > 0.0 then PosInf else Finite(0.0))
    else Finite(Quotient(gp, gl))
  }

  lemma QuotientNonNegative(a: real, b: real)
    requires a >= 0.0 && b > 0.0
    ensures Quotient(a, b) >= 0.0
  {
  }

  /** The profit factor is infinite exactly when some trade won and none
      lost, and never negative. */
  lemma ProfitFactorInfinite(ts: seq<TradeMetrics>)
    ensures ProfitFactor(ts) == PosInf <==> |Profits(ts)| > 0 && |Losses(ts)| == 0
    ensures ProfitFactor(ts).Finite? ==> ProfitFactor(ts).v >= 0.0
  {
    if GrossLoss(ts) != 0.0 {
      QuotientNonNegative(GrossProfit(ts), GrossLoss(ts));
    }
  }

  /** The trade half of the summary dictionary. */
  datatype TradeStats = TradeStats(
    totalTrades: nat,
    winningTrades: nat,
    losingTrades: nat,
    winRate: real,
    avgWinningTrade: real,
    avgLosingTrade: real,
    profitFactor: ExtReal,
    grossProfit: real,
    grossLoss: real,
    netProfit: real)

  /** The dictionary `calculate_metrics_summary` returns. */
  datatype Summary = Summary(
    trades: TradeStats,
    totalReturnPercent: real,
    annualReturnPercent: real,
    maxDrawdown: real,
    maxDrawdownPercent: ExtReal,
    maxDrawdownDuration: int,
    sharpeRatio: real,
    sortinoRatio: ExtReal,
    calmarRatio: ExtReal,
    recoveryFactor: real)

  /** The trade part of the summary. */
  function TradeSummary(ts: seq<TradeMetrics>): (s: TradeStats)
    ensures s.totalTrades == |ts| && s.winningTrades == |Profits(ts)|
    ensures s.winningTrades + s.losingTrades == s.totalTrades
    ensures s.netProfit == s.grossProfit - s.grossLoss
    ensures s.grossProfit == GrossProfit(ts) && s.grossLoss == GrossLoss(ts)
    ensures s.avgWinningTrade == Average(s.grossProfit, s.winningTrades)
    ensures s.avgLosingTrade == Average(s.grossLoss, s.losingTrades)
    ensures s.winRate == WinRate(ts) && s.profitFactor == ProfitFactor(ts)
  {
    var gp := GrossProfit(ts);
    var gl := GrossLoss(ts);
    var wins := |Profits(ts)|;
    TradeStats(|ts|, wins, |ts| - wins, WinRate(ts), Average(gp, wins), Average(gl, |ts| - wins),
               ProfitFactor(ts), gp, gl, gp - gl)
  }

  function ReturnPercent(initialBalance: real, finalEquity: real): (r: Result<real>)
    ensures r.Err? <==> initialBalance == 0.0
    ensures r.Ok? ==> r.value * initialBalance == (finalEquity - initialBalance) * 100.0
  {
    if initialBalance == 0.0 then Err(ZeroDivision)
    else Ok((finalEquity - initialBalance) / initialBalance * 100.0)
  }

  /** `calculate_metrics_summary`, with the drawdown corrected: an empty
      curve gives the empty dictionary (`None`); a zero initial balance,
      or a zero period count with two or more returns, divides by zero.
      The annual return is the total return. */
  function CalculateMetricsSummary(ts: seq<TradeMetrics>, equity: seq<real>, initialBalance: real,
                                   periodsPerYear: int, sqrt: real -> real): (r: Result<Option<Summary>>)
    ensures |equity| == 0 ==> r == Ok(None)
    ensures |equity| > 0 ==> (r.Err? <==> initialBalance == 0.0 || (|equity| >= 3 && periodsPerYear == 0))
    ensures r.Ok? && r.value.Some? ==> |equity| > 0 && r.value.value.trades == TradeSummary(ts)
  {
    if |equity| == 0 then Ok(None)
    else
      var base := TradeSummary(ts);
      match ReturnPercent(initialBalance, equity[|equity| - 1])
      case Err(e) => Err(e)
      case Ok(ret) =>
        var dd := CalculateDrawdown(equity).value;
        var rets := CalculateReturns(equity);
        match SharpeRatio(rets, 0.0, periodsPerYear, sqrt)
        case Err(e) => Err(e)
        case Ok(sharpe) =>
          Ok(Some(Summary(base, ret, ret, dd.0, dd.1, dd.2, sharpe,
                          SortinoRatio(rets, 0.0, periodsPerYear, sqrt),
                          CalmarRatio(ret, dd.1), RecoveryFactor(base.netProfit, dd.0))))
  }

  /** The return fields of the summary: the total return against the
      initial balance, reported again as the annual return. */
  lemma SummaryReturns(ts: seq<TradeMetrics>, equity: seq<real>, initialBalance: real,
                       periodsPerYear: int, sqrt: real -> real)
    requires CalculateMetricsSummary(ts, equity, initialBalance, periodsPerYear, sqrt).Ok?
    requires CalculateMetricsSummary(ts, equity, initialBalance, periodsPerYear, sqrt).value.Some?
    ensures var s := CalculateMetricsSummary(ts, equity, initialBalance, periodsPerYear, sqrt).value.value;
      && ReturnPercent(initialBalance, equity[|equity| - 1]) == Ok(s.totalReturnPercent)
      && s.annualReturnPercent == s.totalReturnPercent
  {
  }

  /** The drawdown fields of the summary are the corrected drawdown of the
      equity curve, and the Calmar and recovery ratios are taken against
      them. */
  lemma SummaryDrawdown(ts: seq<TradeMetrics>, equity: seq<real>, initialBalance: real,
                        periodsPerYear: int, sqrt: real -> real)
    requires CalculateMetricsSummary(ts, equity, initialBalance, periodsPerYear, sqrt).Ok?
    requires CalculateMetricsSummary(ts, equity, initialBalance, periodsPerYear, sqrt).value.Some?
    ensures var s := CalculateMetricsSummary(ts, equity, initialBalance, periodsPerYear, sqrt).value.value;
      && CalculateDrawdown(equity) == Ok((s.maxDrawdown, s.maxDrawdownPercent, s.maxDrawdownDuration))
      && s.calmarRatio == CalmarRatio(s.annualReturnPercent, s.maxDrawdownPercent)
      && s.recoveryFactor == RecoveryFactor(s.trades.netProfit, s.maxDrawdown)
  {
  }

  /** The Sharpe and Sortino fields are taken over the period returns of
      the equity curve, with no risk-free rate. */
  lemma SummaryRatios(ts: seq<TradeMetrics>, equity: seq<real>, initialBalance: real,
                      periodsPerYear: int, sqrt: real -> real)
    requires CalculateMetricsSummary(ts, equity, initialBalance, periodsPerYear, sqrt).Ok?
    requires CalculateMetricsSummary(ts, equity, initialBalance, periodsPerYear, sqrt).value.Some?
    ensures var s := CalculateMetricsSummary(ts, equity, initialBalance, periodsPerYear, sqrt).value.value;
      && SharpeRatio(CalculateReturns(equity), 0.0, periodsPerYear, sqrt) == Ok(s.sharpeRatio)
      && s.sortinoRatio == SortinoRatio(CalculateReturns(equity), 0.0, periodsPerYear, sqrt)
  {
  }
}
