/** The adaptive parameter engine of `src/adaptive_parameters.py`: a weighted
    composite volatility, its classification, a clamped scaling factor and
    direct or inverse scaling of the four grid parameters, with a history of
    every scaling. */
module Adaptive {
  import opened Common
  import opened Volatility

  datatype VolatilityLevel = LowVol | NormalVol | HighVol | ExtremeVol

  datatype ScaledParameters = ScaledParameters(
    gridSpacingPercent: real,
    orderVolume: real,
    takeProfitPercent: real,
    maxDrawdownPercent: real,
    volatilityLevel: VolatilityLevel,
    scalingFactor: real,
    timestamp: real)

  datatype AdaptiveParameterConfig = AdaptiveParameterConfig(
    baseGridSpacingPercent: real,
    baseOrderVolume: real,
    baseTakeProfitPercent: real,
    baseMaxDrawdownPercent: real,
    lowVolatilityThreshold: real,
    highVolatilityThreshold: real,
    minScalingFactor: real,
    maxScalingFactor: real,
    bbWeight: real,
    gkWeight: real,
    atrWeight: real,
    ewmaWeight: real,
    scalingModes: seq<(string, string)>)

  /** The dataclass defaults: order volume scales inversely, the other three
      parameters directly, and the factor is kept within [0.4, 2.5]. */
  function DefaultConfig(): (c: AdaptiveParameterConfig)
    ensures c.minScalingFactor == 0.4 && c.maxScalingFactor == 2.5
    ensures c.lowVolatilityThreshold == 1.0 && c.highVolatilityThreshold == 5.0
    ensures c.bbWeight == c.gkWeight == c.atrWeight == c.ewmaWeight == 0.25
  {
    AdaptiveParameterConfig(0.5, 0.02, 5.0, 8.0, 1.0, 5.0, 0.4, 2.5, 0.25, 0.25, 0.25, 0.25,
      [("grid_spacing_percent", "direct"), ("order_volume", "inverse"),
       ("take_profit_percent", "direct"), ("max_drawdown_percent", "direct")])
  }

  /** The default scaling modes: the order volume scales inversely, the
      grid spacing, take profit and drawdown limit directly. */
  lemma DefaultModes()
    ensures IsDirect(DefaultConfig(), "grid_spacing_percent") && !IsDirect(DefaultConfig(), "order_volume")
    ensures IsDirect(DefaultConfig(), "take_profit_percent") && IsDirect(DefaultConfig(), "max_drawdown_percent")
  {
    DefaultSpacingMode();
    DefaultVolumeMode();
    DefaultExitModes();
  }

  lemma DefaultSpacingMode()
    ensures IsDirect(DefaultConfig(), "grid_spacing_percent")
  {
  }

  lemma DefaultVolumeMode()
    ensures !IsDirect(DefaultConfig(), "order_volume")
  {
  }

  lemma DefaultExitModes()
    ensures IsDirect(DefaultConfig(), "take_profit_percent") && IsDirect(DefaultConfig(), "max_drawdown_percent")
  {
    DefaultTakeProfitMode();
    DefaultDrawdownMode();
  }

  lemma DefaultTakeProfitMode()
    ensures IsDirect(DefaultConfig(), "take_profit_percent")
  {
  }

  lemma DefaultDrawdownMode()
    ensures IsDirect(DefaultConfig(), "max_drawdown_percent")
  {
  }

  /** The mode lookup with its `'direct'` default: any mode string other than
      `'direct'` scales inversely. */
  predicate IsDirect(c: AdaptiveParameterConfig, name: string)
  {
    Lookup(c.scalingModes, name).GetOr("direct") == "direct"
  }

  /** The weighted sum of the four measures, ATR scaled by 100 (0 when
      not positive). */
  function WeightedSum(c: AdaptiveParameterConfig, m: VolatilityMeasures): real
  {
    var normalizedAtr := if m.atr > 0.0 then m.atr * 100.0 else 0.0;
    m.bollingerBandwidth * c.bbWeight + m.garmanKlass * c.gkWeight
      + normalizedAtr * c.atrWeight + m.ewma * c.ewmaWeight
  }

  /** `_calculate_composite_volatility`: the weighted sum floored at 0. */
  function CompositeOf(c: AdaptiveParameterConfig, m: VolatilityMeasures): (r: real)
    ensures r >= 0.0
    ensures WeightedSum(c, m) >= 0.0 ==> r == WeightedSum(c, m)
    ensures WeightedSum(c, m) < 0.0 ==> r == 0.0
  {
    var w := WeightedSum(c, m);
    if w >= 0.0 then w else 0.0
  }

  /** With the default equal weights the engine's composite agrees with the
      calculator's `get_composite_volatility` on non-negative measures. */
  lemma DefaultCompositeAgrees(m: VolatilityMeasures)
    requires m.bollingerBandwidth >= 0.0 && m.garmanKlass >= 0.0 && m.ewma >= 0.0
    ensures CompositeOf(DefaultConfig(), m) == CompositeVolatility(m)
  {
    CompositeIsWeightedSum(m);
  }

  /** `_classify_volatility` as written: the HIGH test runs before the
      EXTREME test, whose threshold is the higher one. */
  function ClassifyAsWritten(c: AdaptiveParameterConfig, v: real): (r: VolatilityLevel)
    ensures r == LowVol <==> v < c.lowVolatilityThreshold
    ensures r == HighVol <==> c.lowVolatilityThreshold <= v && v > c.highVolatilityThreshold
    ensures r == ExtremeVol <==>
      c.lowVolatilityThreshold <= v <= c.highVolatilityThreshold && v > c.highVolatilityThreshold * 1.5
    ensures r == NormalVol <==>
      c.lowVolatilityThreshold <= v <= c.highVolatilityThreshold && v <= c.highVolatilityThreshold * 1.5
  {
    if v < c.lowVolatilityThreshold then LowVol
    else if v > c.highVolatilityThreshold then HighVol
    else if v > c.highVolatilityThreshold * 1.5 then ExtremeVol
    else NormalVol
  }

  /** For any non-negative high threshold the EXTREME level is never produced,
      and a volatility of twice the threshold is classified HIGH. */
  lemma ExtremeUnreachable(c: AdaptiveParameterConfig, v: real)
    requires c.highVolatilityThreshold >= 0.0
    ensures ClassifyAsWritten(c, v) != ExtremeVol
    ensures c.highVolatilityThreshold > 0.0 && c.lowVolatilityThreshold <= 2.0 * c.highVolatilityThreshold ==>
      ClassifyAsWritten(c, 2.0 * c.highVolatilityThreshold) == HighVol
  {
  }

  /** The evidently intended classification: EXTREME above one and a half
      times the high threshold, HIGH above the threshold, LOW below the low
      one, NORMAL in between (both thresholds inclusive). */
  function Classify(c: AdaptiveParameterConfig, v: real): (r: VolatilityLevel)
    ensures v < c.lowVolatilityThreshold <==> r == LowVol
    ensures r == ExtremeVol <==> v >= c.lowVolatilityThreshold && v > c.highVolatilityThreshold * 1.5
    ensures r == HighVol <==>
      v >= c.lowVolatilityThreshold && c.highVolatilityThreshold < v <= c.highVolatilityThreshold * 1.5
    ensures r == NormalVol <==>
      c.lowVolatilityThreshold <= v && v <= c.highVolatilityThreshold && v <= c.highVolatilityThreshold * 1.5
  {
    if v < c.lowVolatilityThreshold then LowVol
    else if v > c.highVolatilityThreshold * 1.5 then ExtremeVol
    else if v > c.highVolatilityThreshold then HighVol
    else NormalVol
  }

  /** The corrected classification differs from the written one exactly on
      the EXTREME band, and is non-decreasing in volatility for positive
      thresholds with low <= high. */
  lemma ClassifyAgreesOutsideExtreme(c: AdaptiveParameterConfig, v: real)
    requires c.highVolatilityThreshold >= 0.0
    ensures Classify(c, v) != ExtremeVol ==> Classify(c, v) == ClassifyAsWritten(c, v)
    ensures Classify(c, v) == ExtremeVol ==> ClassifyAsWritten(c, v) == HighVol
  {
  }

  function LevelRank(l: VolatilityLevel): nat
  {
    match l
    case LowVol => 0
    case NormalVol => 1
    case HighVol => 2
    case ExtremeVol => 3
  }

  lemma ClassifyMonotone(c: AdaptiveParameterConfig, a: real, b: real)
    requires 0.0 <= c.lowVolatilityThreshold <= c.highVolatilityThreshold && a <= b
    ensures LevelRank(Classify(c, a)) <= LevelRank(Classify(c, b))
  {
  }

  /** The written classification is non-decreasing in volatility as well
      (it just stops at HIGH). */
  lemma ClassifyAsWrittenMonotone(c: AdaptiveParameterConfig, a: real, b: real)
    requires 0.0 <= c.lowVolatilityThreshold <= c.highVolatilityThreshold && a <= b
    ensures LevelRank(ClassifyAsWritten(c, a)) <= LevelRank(ClassifyAsWritten(c, b))
    ensures LevelRank(ClassifyAsWritten(c, b)) <= LevelRank(HighVol)
  {
  }

  /** The reference volatility: the mean of the thresholds, 1.0 when that is 0. */
  function ReferenceVolatility(c: AdaptiveParameterConfig): (r: real)
    ensures r != 0.0
    ensures c.lowVolatilityThreshold + c.highVolatilityThreshold != 0.0 ==>
      2.0 * r == c.lowVolatilityThreshold + c.highVolatilityThreshold
  {
    var mean := (c.lowVolatilityThreshold + c.highVolatilityThreshold) / 2.0;
    if mean == 0.0 then 1.0 else mean
  }

  /** `_calculate_scaling_factor`: volatility over the reference, clamped
      with `max(min_scaling, min(max_scaling, ...))`. */
  function ScalingFactor(c: AdaptiveParameterConfig, v: real): (f: real)
    ensures f >= c.minScalingFactor
    ensures c.minScalingFactor <= c.maxScalingFactor ==> f <= c.maxScalingFactor
    ensures c.minScalingFactor <= v / ReferenceVolatility(c) <= c.maxScalingFactor ==>
      f * ReferenceVolatility(c) == v
    ensures v / ReferenceVolatility(c) < c.minScalingFactor ==> f == c.minScalingFactor
    ensures c.minScalingFactor <= c.maxScalingFactor < v / ReferenceVolatility(c) ==> f == c.maxScalingFactor
    ensures c.minScalingFactor > c.maxScalingFactor ==> f == c.minScalingFactor
  {
    Max(c.minScalingFactor, Min(c.maxScalingFactor, v / ReferenceVolatility(c)))
  }

  /** With a positive reference the factor never decreases as volatility
      grows. */
  lemma ScalingFactorMonotone(c: AdaptiveParameterConfig, a: real, b: real)
    requires c.lowVolatilityThreshold + c.highVolatilityThreshold >= 0.0 && a <= b
    ensures ScalingFactor(c, a) <= ScalingFactor(c, b)
  {
    var r := ReferenceVolatility(c);
    assert r > 0.0;
    assert a / r <= b / r;
  }

  /** `_scale_parameter`: `base * f` in direct mode, `base / f` otherwise,
      floored at 0; inverse scaling by a zero factor raises. */
  function ScaleParameter(c: AdaptiveParameterConfig, base: real, f: real, name: string): (r: Result<real>)
    ensures r.Err? <==> !IsDirect(c, name) && f == 0.0
    ensures r.Ok? ==> r.value >= 0.0
    ensures r.Ok? && IsDirect(c, name) ==> r.value == Max(0.0, base * f)
    ensures r.Ok? && !IsDirect(c, name) ==> r.value == Max(0.0, base / f)
  {
    if IsDirect(c, name) then Ok(Max(0.0, base * f))
    else if f == 0.0 then Err(ZeroDivision)
    else Ok(Max(0.0, base / f))
  }

  /** Direct and inverse scaling undo each other for a positive factor and a
      non-negative base. */
  lemma DirectInverseRoundTrip(c: AdaptiveParameterConfig, base: real, f: real, d: string, i: string)
    requires IsDirect(c, d) && !IsDirect(c, i) && f > 0.0 && base >= 0.0
    ensures ScaleParameter(c, base, f, d).Ok?
    ensures ScaleParameter(c, ScaleParameter(c, base, f, d).value, f, i) == Ok(base)
  {
    assert base * f >= 0.0;
    assert base * f / f == base;
  }

  datatype AdaptiveEngine = AdaptiveEngine(
    config: AdaptiveParameterConfig,
    volatilityHistory: seq<real>,
    scalingHistory: seq<ScaledParameters>)

  /** A fresh engine: the given configuration (defaults when absent) and empty
      histories. */
  function NewEngine(config: Option<AdaptiveParameterConfig>): (e: AdaptiveEngine)
    ensures e.volatilityHistory == [] && e.scalingHistory == []
    ensures config.None? ==> e.config == DefaultConfig()
    ensures config.Some? ==> e.config == config.value
  {
    AdaptiveEngine(config.GetOr(DefaultConfig()), [], [])
  }

  /** Each scaled field is its base scaled by the record's factor. */
  predicate ScaledFrom(c: AdaptiveParameterConfig, s: ScaledParameters)
  {
    && ScaleParameter(c, c.baseGridSpacingPercent, s.scalingFactor, "grid_spacing_percent") == Ok(s.gridSpacingPercent)
    && ScaleParameter(c, c.baseOrderVolume, s.scalingFactor, "order_volume") == Ok(s.orderVolume)
    && ScaleParameter(c, c.baseTakeProfitPercent, s.scalingFactor, "take_profit_percent") == Ok(s.takeProfitPercent)
    && ScaleParameter(c, c.baseMaxDrawdownPercent, s.scalingFactor, "max_drawdown_percent") == Ok(s.maxDrawdownPercent)
  }

  /** `scale_parameters`: composite, level, factor, the four scaled values,
      and one new entry on each history. The level is the classification as
      written, which never reports EXTREME. A zero factor under inverse
      scaling raises before any history is touched. */
  function ScaleParameters(e: AdaptiveEngine, m: VolatilityMeasures): (r: Result<(AdaptiveEngine, ScaledParameters)>)
    ensures r.Ok? ==>
      var (e', s) := r.value;
      && e'.config == e.config
      && e'.volatilityHistory == e.volatilityHistory + [CompositeOf(e.config, m)]
      && e'.scalingHistory == e.scalingHistory + [s]
      && s.scalingFactor == ScalingFactor(e.config, CompositeOf(e.config, m))
      && s.volatilityLevel == ClassifyAsWritten(e.config, CompositeOf(e.config, m))
      && s.gridSpacingPercent >= 0.0 && s.orderVolume >= 0.0
      && s.takeProfitPercent >= 0.0 && s.maxDrawdownPercent >= 0.0
      && s.timestamp == 0.0
    ensures r.Ok? ==> ScaledFrom(e.config, r.value.1)
    ensures r.Ok? && e.config.highVolatilityThreshold >= 0.0 ==> r.value.1.volatilityLevel != ExtremeVol
    ensures e.config.minScalingFactor > 0.0 ==> r.Ok?
  {
    var c := e.config;
    var v := CompositeOf(c, m);
    var f := ScalingFactor(c, v);
    var spacing :- ScaleParameter(c, c.baseGridSpacingPercent, f, "grid_spacing_percent");
    var volume :- ScaleParameter(c, c.baseOrderVolume, f, "order_volume");
    var tp :- ScaleParameter(c, c.baseTakeProfitPercent, f, "take_profit_percent");
    var dd :- ScaleParameter(c, c.baseMaxDrawdownPercent, f, "max_drawdown_percent");
    var s := ScaledParameters(spacing, volume, tp, dd, ClassifyAsWritten(c, v), f, 0.0);
    Ok((e.(volatilityHistory := e.volatilityHistory + [v], scalingHistory := e.scalingHistory + [s]), s))
  }

  lemma MulMonotone(base: real, f1: real, f2: real)
    requires base >= 0.0 && 0.0 < f1 <= f2
    ensures 0.0 <= base * f1 <= base * f2
  {
  }

  /** Dividing a non-negative amount by a larger positive factor never gives
      more. */
  lemma DivAntitone(base: real, f1: real, f2: real)
    requires base >= 0.0 && 0.0 < f1 <= f2
    ensures base / f1 >= base / f2 >= 0.0
  {
    assert base / f1 == base * (1.0 / f1);
    assert base / f2 == base * (1.0 / f2);
    assert 1.0 / f1 >= 1.0 / f2 > 0.0;
  }

  /** Direct scaling of a non-negative base never decreases as the factor
      grows; inverse scaling by a positive factor never increases. */
  lemma ScaleParameterMonotone(c: AdaptiveParameterConfig, base: real, f1: real, f2: real, name: string)
    requires base >= 0.0 && 0.0 < f1 <= f2
    ensures ScaleParameter(c, base, f1, name).Ok? && ScaleParameter(c, base, f2, name).Ok?
    ensures IsDirect(c, name) ==> ScaleParameter(c, base, f1, name).value <= ScaleParameter(c, base, f2, name).value
    ensures !IsDirect(c, name) ==> ScaleParameter(c, base, f1, name).value >= ScaleParameter(c, base, f2, name).value
  {
    if IsDirect(c, name) {
      var x1, x2 := base * f1, base * f2;
      MulMonotone(base, f1, f2);
      MaxOfNonNegative(x1);
      MaxOfNonNegative(x2);
    } else {
      var x1, x2 := base / f1, base / f2;
      DivAntitone(base, f1, f2);
      MaxOfNonNegative(x1);
      MaxOfNonNegative(x2);
    }
  }

  lemma MaxOfNonNegative(x: real)
    requires x >= 0.0
    ensures Max(0.0, x) == x
  {
  }

  /** When grid spacing scales directly and order volume inversely, from
      non-negative bases with a positive minimum factor and a positive
      reference: higher volatility widens the grid and shrinks the volume. */
  lemma ScalingDirections(e: AdaptiveEngine, m1: VolatilityMeasures, m2: VolatilityMeasures)
    requires IsDirect(e.config, "grid_spacing_percent") && !IsDirect(e.config, "order_volume")
    requires e.config.minScalingFactor > 0.0
    requires e.config.baseGridSpacingPercent >= 0.0 && e.config.baseOrderVolume >= 0.0
    requires e.config.lowVolatilityThreshold + e.config.highVolatilityThreshold >= 0.0
    requires CompositeOf(e.config, m1) <= CompositeOf(e.config, m2)
    ensures ScaleParameters(e, m1).Ok? && ScaleParameters(e, m2).Ok?
    ensures var s1 := ScaleParameters(e, m1).value.1;
      var s2 := ScaleParameters(e, m2).value.1;
      s1.gridSpacingPercent <= s2.gridSpacingPercent && s1.orderVolume >= s2.orderVolume
  {
    var c := e.config;
    var s1 := ScaleParameters(e, m1).value.1;
    var s2 := ScaleParameters(e, m2).value.1;
    var f1 := s1.scalingFactor;
    var f2 := s2.scalingFactor;
    ScalingFactorMonotone(c, CompositeOf(c, m1), CompositeOf(c, m2));
    assert 0.0 < f1 <= f2;
    assert ScaledFrom(c, s1) && ScaledFrom(c, s2);
    ScaleParameterMonotone(c, c.baseGridSpacingPercent, f1, f2, "grid_spacing_percent");
    ScaleParameterMonotone(c, c.baseOrderVolume, f1, f2, "order_volume");
  }

  /** Under the default configuration, higher volatility widens the grid and
      shrinks the order volume. */
  lemma DefaultScalingDirections(m1: VolatilityMeasures, m2: VolatilityMeasures)
    requires CompositeOf(DefaultConfig(), m1) <= CompositeOf(DefaultConfig(), m2)
    ensures var e := NewEngine(None);
      var s1 := ScaleParameters(e, m1).value.1;
      var s2 := ScaleParameters(e, m2).value.1;
      s1.gridSpacingPercent <= s2.gridSpacingPercent && s1.orderVolume >= s2.orderVolume
  {
    DefaultModes();
    ScalingDirections(NewEngine(None), m1, m2);
  }

  /** Scaling a run of measures, oldest first, stopping at the first error. */
  function ScaleAll(e: AdaptiveEngine, ms: seq<VolatilityMeasures>): Result<AdaptiveEngine>
    decreases |ms|
  {
    if |ms| == 0 then Ok(e)
    else
      var e1 :- ScaleAll(e, ms[..|ms| - 1]);
      var (e2, _) :- ScaleParameters(e1, ms[|ms| - 1]);
      Ok(e2)
  }

  /** Each successful scaling adds one entry to each history, so the two
      histories stay the same length and grow by the number of calls. */
  lemma {:induction false} ScaleAllHistories(e: AdaptiveEngine, ms: seq<VolatilityMeasures>)
    requires |e.volatilityHistory| == |e.scalingHistory|
    ensures ScaleAll(e, ms).Ok? ==>
      var e' := ScaleAll(e, ms).value;
      && |e'.volatilityHistory| == |e'.scalingHistory| == |e.volatilityHistory| + |ms|
      && e'.volatilityHistory[..|e.volatilityHistory|] == e.volatilityHistory
      && e'.config == e.config
    decreases |ms|
  {
    if |ms| > 0 {
      ScaleAllHistories(e, ms[..|ms| - 1]);
      var r := ScaleAll(e, ms[..|ms| - 1]);
      if r.Ok? {
        var e1 := r.value;
        var s := ScaleParameters(e1, ms[|ms| - 1]);
        if s.Ok? {
          var e2 := s.value.0;
          assert e2.volatilityHistory[..|e.volatilityHistory|] == e1.volatilityHistory[..|e.volatilityHistory|];
        }
      }
    }
  }
}
