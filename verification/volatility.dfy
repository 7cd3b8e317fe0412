/** The real-time volatility calculator of `src/volatility.py`: four bounded
    price buffers and the Bollinger, Garman-Klass, ATR and EWMA measures.
    The square root, the natural logarithm and the numpy kernel of the
    Bollinger bandwidth are parameters; the Garman-Klass sum, its divisions
    and every guard branch are modelled. */
module Volatility {
  import opened Common

  datatype VolatilityMeasures = VolatilityMeasures(
    bollingerBandwidth: real,
    garmanKlass: real,
    atr: real,
    ewma: real,
    composite: real)

  /** The numeric kernels the model does not define: the square root, the
      natural logarithm, and the Bollinger bandwidth of a window of closes
      with a std-dev multiplier. */
  datatype Numerics = Numerics(
    sqrt: real -> real,
    log: real -> real,
    bandwidth: (seq<real>, real) -> real)

  datatype Calculator = Calculator(
    bbPeriod: int,
    bbStdDev: real,
    atrPeriod: int,
    ewmaAlpha: real,
    closes: seq<real>,
    highs: seq<real>,
    lows: seq<real>,
    opens: seq<real>,
    previousEwma: Option<real>)

  /** A fresh calculator: empty buffers and no EWMA state. */
  function NewCalculator(bbPeriod: int, bbStdDev: real, atrPeriod: int, ewmaAlpha: real): (c: Calculator)
    ensures c.closes == c.highs == c.lows == c.opens == [] && c.previousEwma.None?
  {
    Calculator(bbPeriod, bbStdDev, atrPeriod, ewmaAlpha, [], [], [], [], None)
  }

  /** The constructor defaults: Bollinger 20 periods at 2 deviations, ATR 14
      periods, EWMA alpha 0.33. */
  function DefaultCalculator(): (c: Calculator)
    ensures c.bbPeriod == 20 && c.bbStdDev == 2.0 && c.atrPeriod == 14 && c.ewmaAlpha == 0.33
  {
    NewCalculator(20, 2.0, 14, 0.33)
  }

  predicate BuffersAligned(c: Calculator)
  {
    |c.closes| == |c.highs| == |c.lows| == |c.opens|
  }

  /** How many candles `update` keeps: five more than the longer lookback. */
  function MaxHistory(c: Calculator): int
  {
    (if c.bbPeriod >= c.atrPeriod then c.bbPeriod else c.atrPeriod) + 5
  }

  /** Append one value and drop the oldest when the buffer is over `limit`. */
  function Push(s: seq<real>, x: real, limit: int): (r: seq<real>)
    ensures |s| + 1 > limit ==> r == (s + [x])[1..]
    ensures |s| + 1 <= limit ==> r == s + [x]
  {
    if |s| + 1 > limit then (s + [x])[1..] else s + [x]
  }

  /** The buffer half of `update`. The eviction test reads the closes only. */
  function Record(c: Calculator, high: real, low: real, close: real, open: real): (r: Calculator)
    ensures BuffersAligned(c) ==> BuffersAligned(r)
    ensures r.previousEwma == c.previousEwma && MaxHistory(r) == MaxHistory(c)
    ensures r.closes == Push(c.closes, close, MaxHistory(c))
    ensures MaxHistory(c) >= 1 ==> |r.closes| > 0 && r.closes[|r.closes| - 1] == close
    ensures BuffersAligned(c) && MaxHistory(c) >= 1 ==>
      r.highs[|r.highs| - 1] == high && r.lows[|r.lows| - 1] == low && r.opens[|r.opens| - 1] == open
    ensures |c.closes| <= MaxHistory(c) ==> |r.closes| <= MaxHistory(c)
  {
    c.(closes := Push(c.closes, close, MaxHistory(c)),
       highs := if |c.closes| + 1 > MaxHistory(c) then (c.highs + [high])[1..] else c.highs + [high],
       lows := if |c.closes| + 1 > MaxHistory(c) then (c.lows + [low])[1..] else c.lows + [low],
       opens := if |c.closes| + 1 > MaxHistory(c) then (c.opens + [open])[1..] else c.opens + [open])
  }

  /** Bollinger bandwidth: 0 until `bb_period` closes are buffered. */
  function BollingerBandwidth(c: Calculator, num: Numerics): (r: real)
    ensures |c.closes| < c.bbPeriod ==> r == 0.0
    ensures |c.closes| >= c.bbPeriod ==> r == num.bandwidth(TailSlice(c.closes, c.bbPeriod), c.bbStdDev)
  {
    if |c.closes| < c.bbPeriod then 0.0 else num.bandwidth(TailSlice(c.closes, c.bbPeriod), c.bbStdDev)
  }

  /** Some bar of the window has a zero low or a zero open, one of the two
      divisors of its Garman-Klass term. */
  predicate ZeroDivisorIn(lows: seq<real>, opens: seq<real>)
  {
    exists i :: 0 <= i < |lows| && i < |opens| && (lows[i] == 0.0 || opens[i] == 0.0)
  }

  /** One bar's Garman-Klass term: half the squared log of high over low,
      less `2 ln 2 - 1` times the squared log of close over open. */
  function GkTerm(log: real -> real, h: real, l: real, c: real, o: real): real
    requires l != 0.0 && o != 0.0
  {
    var hl := log(h / l);
    var co := log(c / o);
    0.5 * (hl * hl) - (2.0 * log(2.0) - 1.0) * (co * co)
  }

  function GkTerms(log: real -> real, hs: seq<real>, ls: seq<real>, cs: seq<real>, os: seq<real>): (r: seq<real>)
    requires |hs| == |ls| == |cs| == |os| && !ZeroDivisorIn(ls, os)
    ensures |r| == |hs|
    ensures forall i :: 0 <= i < |r| ==> ls[i] != 0.0 && os[i] != 0.0 && r[i] == GkTerm(log, hs[i], ls[i], cs[i], os[i])
  {
    seq(|hs|, i requires 0 <= i < |hs| && ls[i] != 0.0 && os[i] != 0.0 => GkTerm(log, hs[i], ls[i], cs[i], os[i]))
  }

  /** Garman-Klass: 0 until `atr_period` closes are buffered; then the
      Python float divisions `high / low` and `close / open` over the last
      `atr_period` bars raise `ZeroDivisionError` on a zero low or open, and
      so does the division by an empty window; otherwise
      `sqrt(|mean of the terms|) * 100`. */
  function GarmanKlass(c: Calculator, num: Numerics): (r: Result<real>)
    requires BuffersAligned(c)
    ensures |c.closes| < c.atrPeriod ==> r == Ok(0.0)
    ensures r.Err? ==> r.error == ZeroDivision
    ensures r.Err? <==>
      var (ls, os) := (TailSlice(c.lows, c.atrPeriod), TailSlice(c.opens, c.atrPeriod));
      |c.closes| >= c.atrPeriod && (|ls| == 0 || ZeroDivisorIn(ls, os))
    ensures r.Ok? && |c.closes| >= c.atrPeriod ==>
      var (hs, ls, cs, os) := (TailSlice(c.highs, c.atrPeriod), TailSlice(c.lows, c.atrPeriod),
                               TailSlice(c.closes, c.atrPeriod), TailSlice(c.opens, c.atrPeriod));
      && |hs| == |ls| == |cs| == |os| > 0 && !ZeroDivisorIn(ls, os)
      && r.value == num.sqrt(Abs(Mean(GkTerms(num.log, hs, ls, cs, os)))) * 100.0
  {
    if |c.closes| < c.atrPeriod then Ok(0.0)
    else
      var k := c.atrPeriod;
      var (hs, ls, cs, os) := (TailSlice(c.highs, k), TailSlice(c.lows, k), TailSlice(c.closes, k), TailSlice(c.opens, k));
      if |ls| == 0 || ZeroDivisorIn(ls, os) then Err(ZeroDivision)
      else Ok(num.sqrt(Abs(Mean(GkTerms(num.log, hs, ls, cs, os)))) * 100.0)
  }

  /** Bars that neither range nor move (high = low, close = open, all
      non-zero) contribute nothing: with `ln 1 = 0` the measure is
      `sqrt(0) * 100`. */
  lemma GarmanKlassFlatBars(c: Calculator, num: Numerics)
    requires BuffersAligned(c) && c.atrPeriod >= 1 && |c.closes| >= c.atrPeriod
    requires num.log(1.0) == 0.0
    requires forall i :: 0 <= i < |c.lows| ==> c.lows[i] != 0.0 && c.highs[i] == c.lows[i]
    requires forall i :: 0 <= i < |c.opens| ==> c.opens[i] != 0.0 && c.closes[i] == c.opens[i]
    ensures var r := GarmanKlass(c, num); r.Ok? && r.value == num.sqrt(0.0) * 100.0
  {
    var k := c.atrPeriod;
    var (hs, ls, cs, os) := (TailSlice(c.highs, k), TailSlice(c.lows, k), TailSlice(c.closes, k), TailSlice(c.opens, k));
    FlatWindow(c.highs, c.lows, k);
    FlatWindow(c.closes, c.opens, k);
    assert |hs| == |ls| == |cs| == |os| == k;
    assert !ZeroDivisorIn(ls, os);
    FlatTermsZero(num.log, hs, ls, cs, os);
    assert Abs(Mean(GkTerms(num.log, hs, ls, cs, os))) == 0.0;
  }

  /** The window of two aligned buffers keeps their bar-wise relation. */
  lemma FlatWindow(xs: seq<real>, ys: seq<real>, k: int)
    requires |xs| == |ys| && k >= 1
    requires forall i :: 0 <= i < |ys| ==> ys[i] != 0.0 && xs[i] == ys[i]
    ensures |TailSlice(xs, k)| == |TailSlice(ys, k)|
    ensures forall i :: 0 <= i < |TailSlice(ys, k)| ==>
      TailSlice(ys, k)[i] != 0.0 && TailSlice(xs, k)[i] == TailSlice(ys, k)[i]
  {
    var a := TailSlice(xs, k);
    var b := TailSlice(ys, k);
    forall i | 0 <= i < |b| ensures b[i] != 0.0 && a[i] == b[i] {
      assert b[i] == ys[|ys| - |b| + i];
      assert a[i] == xs[|xs| - |a| + i];
    }
  }

  /** Flat bars have zero Garman-Klass terms, hence a zero mean. */
  lemma FlatTermsZero(log: real -> real, hs: seq<real>, ls: seq<real>, cs: seq<real>, os: seq<real>)
    requires |hs| == |ls| == |cs| == |os| > 0 && log(1.0) == 0.0
    requires forall i :: 0 <= i < |ls| ==> ls[i] != 0.0 && hs[i] == ls[i]
    requires forall i :: 0 <= i < |os| ==> os[i] != 0.0 && cs[i] == os[i]
    ensures !ZeroDivisorIn(ls, os)
    ensures Mean(GkTerms(log, hs, ls, cs, os)) == 0.0
  {
    var terms := GkTerms(log, hs, ls, cs, os);
    forall i | 0 <= i < |terms| ensures terms[i] == 0.0 {
      assert hs[i] / ls[i] == 1.0 && cs[i] / os[i] == 1.0;
    }
    assert terms == seq(|terms|, _ => 0.0);
    SumConstant(|terms|, 0.0);
  }

  /** A zero low in the window raises: one bar of (open 1, high 1, low 0,
      close 1) with `atr_period` 1 makes `update` fail. */
  lemma ZeroLowRaises(num: Numerics)
    ensures var c := NewCalculator(20, 2.0, 1, 0.33);
      var r := Update(c, num, 1.0, 0.0, 1.0, 1.0);
      r.1 == Err(ZeroDivision) && r.0.closes == [1.0] && r.0.previousEwma.None?
  {
    var c := NewCalculator(20, 2.0, 1, 0.33);
    var c1 := Record(c, 1.0, 0.0, 1.0, 1.0);
    assert c1.lows == [0.0] && c1.opens == [1.0];
    assert ZeroDivisorIn(TailSlice(c1.lows, 1), TailSlice(c1.opens, 1));
  }

  /** The true range of a bar given the previous close. */
  function TrueRange(high: real, low: real, prevClose: real): (r: real)
    ensures r >= high - low && r >= 0.0
    ensures r == high - low || r == Abs(high - prevClose) || r == Abs(low - prevClose)
  {
    Max(Max(high - low, Abs(high - prevClose)), Abs(low - prevClose))
  }

  /** The true ranges of bars 1 .. n-1. */
  function TrueRanges(c: Calculator): (r: seq<real>)
    requires BuffersAligned(c)
    ensures |r| == if |c.closes| == 0 then 0 else |c.closes| - 1
    ensures forall i :: 0 <= i < |r| ==> r[i] >= 0.0 && r[i] >= c.highs[i + 1] - c.lows[i + 1]
  {
    if |c.closes| == 0 then []
    else seq(|c.closes| - 1, i requires 0 <= i < |c.closes| - 1 =>
               TrueRange(c.highs[i + 1], c.lows[i + 1], c.closes[i]))
  }

  /** Average true range: 0 until `atr_period + 1` closes are buffered, then
      the mean of the last `atr_period` true ranges, never negative. */
  function Atr(c: Calculator): (r: real)
    requires BuffersAligned(c) && c.atrPeriod >= 1
    ensures |c.closes| < c.atrPeriod + 1 ==> r == 0.0
    ensures r >= 0.0
    ensures |c.closes| >= c.atrPeriod + 1 ==>
      r * (c.atrPeriod as real) == Sum(TailSlice(TrueRanges(c), c.atrPeriod))
  {
    if |c.closes| < c.atrPeriod + 1 then 0.0
    else
      var recent := TailSlice(TrueRanges(c), c.atrPeriod);
      assert |recent| == c.atrPeriod;
      assert forall i :: 0 <= i < |recent| ==> recent[i] >= 0.0 by {
        var all := TrueRanges(c);
        forall i | 0 <= i < |recent| ensures recent[i] >= 0.0 {
          assert recent[i] == all[|all| - |recent| + i];
        }
      }
      SumNonNegative(recent);
      MeanTimesLength(recent);
      Mean(recent)
  }

  /** The EWMA variance recursion: seeded from the variance of the returns,
      then `alpha * r^2 + (1 - alpha) * previous` with the latest return. */
  function NextEwmaState(previous: Option<real>, alpha: real, rets: seq<real>): (v: real)
    requires |rets| > 0
    ensures previous.None? ==> v == Variance(rets)
    ensures previous.Some? ==>
      var x := rets[|rets| - 1];
      v - previous.value == alpha * (x * x - previous.value)
  {
    match previous
    case None => Variance(rets)
    case Some(p) => alpha * (rets[|rets| - 1] * rets[|rets| - 1]) + (1.0 - alpha) * p
  }

  /** For `alpha` in [0, 1] the EWMA state never goes negative. */
  lemma EwmaStateNonNegative(previous: Option<real>, alpha: real, rets: seq<real>)
    requires |rets| > 0 && 0.0 <= alpha <= 1.0
    requires previous.Some? ==> previous.value >= 0.0
    ensures NextEwmaState(previous, alpha, rets) >= 0.0
  {
    if previous.Some? {
      var x := rets[|rets| - 1];
      SquareNonNegative(x);
      assert alpha * (x * x) >= 0.0;
      assert (1.0 - alpha) * previous.value >= 0.0;
    }
  }

  /** With `alpha` in [0, 1] the next state lies between the previous one
      and the latest squared return: `alpha = 1` forgets the past, `alpha = 0`
      ignores the new return. */
  lemma EwmaStateBetween(p: real, alpha: real, rets: seq<real>)
    requires |rets| > 0 && 0.0 <= alpha <= 1.0
    ensures var x := rets[|rets| - 1];
      var v := NextEwmaState(Some(p), alpha, rets);
      && Min(p, x * x) <= v <= Max(p, x * x)
      && (alpha == 1.0 ==> v == x * x)
      && (alpha == 0.0 ==> v == p)
  {
    var x := rets[|rets| - 1];
    StepBetween(p, x * x, NextEwmaState(Some(p), alpha, rets), alpha);
  }

  /** A step of `alpha` in [0, 1] from `p` toward `q` stays between them. */
  lemma StepBetween(p: real, q: real, v: real, alpha: real)
    requires 0.0 <= alpha <= 1.0 && v - p == alpha * (q - p)
    ensures Min(p, q) <= v <= Max(p, q)
    ensures alpha == 1.0 ==> v == q
    ensures alpha == 0.0 ==> v == p
  {
    FractionBetween(alpha, q - p, v - p);
  }

  /** `_calculate_ewma`: 0 (state untouched) below two closes; otherwise
      the returns (a zero close raises), the next state, and
      `sqrt(|state|) * 100`. Yields the volatility and the new state: the
      variance of the returns the first time, then `alpha * r^2 + (1 - alpha)
      * previous` with `r` the latest return. */
  function Ewma(c: Calculator, num: Numerics): (r: Result<(real, Option<real>)>)
    ensures |c.closes| < 2 ==> r == Ok((0.0, c.previousEwma))
    ensures r.Err? <==> |c.closes| >= 2 && exists i :: 0 <= i < |c.closes| - 1 && c.closes[i] == 0.0
    ensures r.Err? ==> r.error == ZeroDivision
    ensures r.Ok? && |c.closes| >= 2 ==> r.value.1.Some? && r.value.0 == num.sqrt(Abs(r.value.1.value)) * 100.0
    ensures r.Ok? && |c.closes| >= 2 && c.previousEwma.None? ==>
      Returns(c.closes).Ok? && r.value.1 == Some(Variance(Returns(c.closes).value))
    ensures r.Ok? && |c.closes| >= 2 && c.previousEwma.Some? ==>
      var n := |c.closes|;
      var x := Growth(c.closes[n - 2], c.closes[n - 1]);
      r.value.1.value - c.previousEwma.value == c.ewmaAlpha * (x * x - c.previousEwma.value)
  {
    if |c.closes| < 2 then Ok((0.0, c.previousEwma))
    else
      var rets :- Returns(c.closes);
      var state := NextEwmaState(c.previousEwma, c.ewmaAlpha, rets);
      Ok((num.sqrt(Abs(state)) * 100.0, Some(state)))
  }

  /** `update`: record the bar, then compute the four measures. The composite
      field is always 0.0. A zero close among the buffered ones makes the EWMA
      raise after the buffers have already grown, so the recorded calculator
      is returned alongside the error; so does a zero low or open in the
      Garman-Klass window, before the EWMA state is touched. */
  function Update(c: Calculator, num: Numerics, high: real, low: real, close: real, open: real)
    : (r: (Calculator, Result<VolatilityMeasures>))
    requires BuffersAligned(c) && c.atrPeriod >= 1
    ensures BuffersAligned(r.0)
    ensures r.0.closes == Record(c, high, low, close, open).closes
    ensures r.1.Ok? ==> r.1.value.composite == 0.0 && r.1.value.atr >= 0.0
    ensures r.1.Err? <==>
      GarmanKlass(Record(c, high, low, close, open), num).Err? || Ewma(Record(c, high, low, close, open), num).Err?
    ensures r.1.Err? ==> r.0 == Record(c, high, low, close, open) && r.1.error == ZeroDivision
    ensures r.1.Ok? ==>
      var c1 := Record(c, high, low, close, open);
      && r.1.value.bollingerBandwidth == BollingerBandwidth(c1, num)
      && GarmanKlass(c1, num) == Ok(r.1.value.garmanKlass)
      && r.1.value.atr == Atr(c1)
      && Ewma(c1, num) == Ok((r.1.value.ewma, r.0.previousEwma))
    ensures r.1.Ok? && |r.0.closes| >= 2 ==> r.0.previousEwma.Some?
    ensures r.1.Ok? && |r.0.closes| < 2 ==> r.0.previousEwma == c.previousEwma && r.1.value.ewma == 0.0
  {
    var c1 := Record(c, high, low, close, open);
    var bb := BollingerBandwidth(c1, num);
    match GarmanKlass(c1, num)
    case Err(e) => (c1, Err(e))
    case Ok(gk) =>
      var atr := Atr(c1);
      match Ewma(c1, num)
      case Err(e) => (c1, Err(e))
      case Ok((v, state)) => (c1.(previousEwma := state), Ok(VolatilityMeasures(bb, gk, atr, v, 0.0)))
  }

  /** Starting from a non-negative EWMA state, `update` keeps it non-negative
      when alpha lies in [0, 1]. */
  lemma UpdateKeepsEwmaNonNegative(c: Calculator, num: Numerics, high: real, low: real, close: real, open: real)
    requires BuffersAligned(c) && c.atrPeriod >= 1 && 0.0 <= c.ewmaAlpha <= 1.0
    requires c.previousEwma.Some? ==> c.previousEwma.value >= 0.0
    ensures var r := Update(c, num, high, low, close, open);
      r.0.previousEwma.Some? ==> r.0.previousEwma.value >= 0.0
  {
    var c1 := Record(c, high, low, close, open);
    if |c1.closes| >= 2 {
      var rets := Returns(c1.closes);
      if rets.Ok? {
        EwmaStateNonNegative(c1.previousEwma, c1.ewmaAlpha, rets.value);
      }
    }
  }

  /** `get_composite_volatility`: 0 when all four measures are 0, otherwise
      the equal-weight mean with ATR scaled by 100 (a non-positive ATR
      counts as 0). */
  function CompositeVolatility(m: VolatilityMeasures): (r: real)
    ensures m.bollingerBandwidth == 0.0 && m.garmanKlass == 0.0 && m.atr == 0.0 && m.ewma == 0.0 ==> r == 0.0
    ensures m.bollingerBandwidth >= 0.0 && m.garmanKlass >= 0.0 && m.ewma >= 0.0 ==>
      r >= 0.0 && 4.0 * r >= m.bollingerBandwidth && 4.0 * r >= m.garmanKlass && 4.0 * r >= m.ewma
    ensures m.atr > 0.0 && m.bollingerBandwidth >= 0.0 && m.garmanKlass >= 0.0 && m.ewma >= 0.0 ==>
      4.0 * r >= 100.0 * m.atr
  {
    if m.bollingerBandwidth == 0.0 && m.garmanKlass == 0.0 && m.atr == 0.0 && m.ewma == 0.0 then 0.0
    else
      var normalizedAtr := if m.atr > 0.0 then m.atr * 100.0 else 0.0;
      m.bollingerBandwidth * 0.25 + m.garmanKlass * 0.25 + normalizedAtr * 0.25 + m.ewma * 0.25
  }

  /** The all-zero shortcut agrees with the weighted formula: the composite is
      always the quarter-weighted sum. */
  lemma CompositeIsWeightedSum(m: VolatilityMeasures)
    ensures CompositeVolatility(m) ==
      0.25 * (m.bollingerBandwidth + m.garmanKlass + (if m.atr > 0.0 then 100.0 * m.atr else 0.0) + m.ewma)
  {
  }

  // ---------------------------------------------------------------------------
  // The buffers over a stream of bars
  // ---------------------------------------------------------------------------

  datatype Bar = Bar(high: real, low: real, close: real, open: real)

  function RecordAll(c: Calculator, bars: seq<Bar>): (r: Calculator)
    decreases |bars|
  {
    if |bars| == 0 then c
    else
      var b := bars[|bars| - 1];
      Record(RecordAll(c, bars[..|bars| - 1]), b.high, b.low, b.close, b.open)
  }

  function ClosesOf(bars: seq<Bar>): (r: seq<real>)
    ensures |r| == |bars| && forall i :: 0 <= i < |bars| ==> r[i] == bars[i].close
  {
    seq(|bars|, i requires 0 <= i < |bars| => bars[i].close)
  }

  /** Pushing onto a window of the stream gives the window of the longer
      stream. */
  lemma PushWindow(s: seq<real>, x: real, k: int)
    requires k >= 1
    ensures Push(TailSlice(s, k), x, k) == TailSlice(s + [x], k)
  {
    var w := TailSlice(s, k);
    if |s| + 1 > k {
      assert TailSlice(s + [x], k) == (s + [x])[|s| + 1 - k..];
      assert w == s[|s| - k..];
      assert (w + [x])[1..] == (s + [x])[|s| + 1 - k..];
    }
  }

  /** From empty buffers the calculator holds exactly the last
      `max(bb_period, atr_period) + 5` closes of the stream, in order. */
  lemma {:induction false} RecordAllKeepsWindow(c: Calculator, bars: seq<Bar>)
    requires c.closes == [] && MaxHistory(c) >= 1
    ensures RecordAll(c, bars).closes == TailSlice(ClosesOf(bars), MaxHistory(c))
    ensures MaxHistory(RecordAll(c, bars)) == MaxHistory(c)
    decreases |bars|
  {
    if |bars| > 0 {
      var init := bars[..|bars| - 1];
      var b := bars[|bars| - 1];
      RecordAllKeepsWindow(c, init);
      var prev := RecordAll(c, init);
      var k := MaxHistory(c);
      assert RecordAll(c, bars) == Record(prev, b.high, b.low, b.close, b.open);
      ClosesOfSnoc(bars);
      PushWindow(ClosesOf(init), b.close, k);
    }
  }

  lemma ClosesOfSnoc(bars: seq<Bar>)
    requires |bars| > 0
    ensures ClosesOf(bars) == ClosesOf(bars[..|bars| - 1]) + [bars[|bars| - 1].close]
  {
    var init := bars[..|bars| - 1];
    var lhs := ClosesOf(bars);
    var rhs := ClosesOf(init) + [bars[|bars| - 1].close];
    assert |lhs| == |rhs|;
    forall i | 0 <= i < |lhs|
      ensures lhs[i] == rhs[i]
    {
      if i < |init| {
        assert init[i] == bars[i];
      }
    }
  }
}
