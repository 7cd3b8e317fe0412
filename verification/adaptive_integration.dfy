/** The adaptive mixin of `src/adaptive_integration.py`: a volatility
    calculator and a parameter engine chained per candle, with the latest
    measures and scaled parameters held as optional state. */
module AdaptiveIntegration {
  import opened Common
  import opened Volatility
  import opened Adaptive

  datatype AdaptiveState = AdaptiveState(
    calculator: Calculator,
    engine: AdaptiveEngine,
    currentMeasures: Option<VolatilityMeasures>,
    currentScaled: Option<ScaledParameters>)

  /** What every reachable state satisfies: the calculator's four buffers
      stay aligned and its ATR lookback is positive. */
  predicate Ready(st: AdaptiveState)
  {
    BuffersAligned(st.calculator) && st.calculator.atrPeriod >= 1
  }

  /** `initialize_adaptive`: a default calculator, an engine on the given
      configuration, and nothing measured or scaled yet. */
  function InitializeAdaptive(config: Option<AdaptiveParameterConfig>): (st: AdaptiveState)
    ensures Ready(st)
    ensures st.currentMeasures.None? && st.currentScaled.None?
    ensures st.calculator == DefaultCalculator() && st.engine == NewEngine(config)
  {
    AdaptiveState(DefaultCalculator(), NewEngine(config), None, None)
  }

  /** `update_adaptive_parameters`: feed the bar to the calculator, store the
      measures, scale them, store and return the scaled parameters. An error
      in either stage propagates; whatever was assigned before it stays. */
  function UpdateAdaptiveParameters(st: AdaptiveState, num: Numerics, high: real, low: real, close: real, open: real)
    : (r: (AdaptiveState, Result<ScaledParameters>))
    requires Ready(st)
    ensures Ready(r.0)
    ensures r.0.calculator == Update(st.calculator, num, high, low, close, open).0
    ensures var measured := Update(st.calculator, num, high, low, close, open).1;
      && (measured.Ok? ==> r.0.currentMeasures == Some(measured.value))
      && (measured.Err? ==> r.0.currentMeasures == st.currentMeasures && r.1.Err?)
    ensures r.1.Ok? ==>
      && r.0.currentScaled == Some(r.1.value)
      && Ok((r.0.engine, r.1.value)) == ScaleParameters(st.engine, r.0.currentMeasures.value)
    ensures r.1.Err? ==> r.0.currentScaled == st.currentScaled && r.0.engine == st.engine
  {
    var (updated, measured) := Update(st.calculator, num, high, low, close, open);
    match measured
    case Err(e) => (st.(calculator := updated), Err(e))
    case Ok(m) =>
      var st1 := st.(calculator := updated, currentMeasures := Some(m));
      match ScaleParameters(st.engine, m)
      case Err(e) => (st1, Err(e))
      case Ok((engine, s)) => (st1.(engine := engine, currentScaled := Some(s)), Ok(s))
  }

  function GetCurrentGridSpacing(st: AdaptiveState): (r: Option<real>)
    ensures r.None? <==> st.currentScaled.None?
    ensures r.Some? ==> r.value == st.currentScaled.value.gridSpacingPercent
  {
    if st.currentScaled.None? then None else Some(st.currentScaled.value.gridSpacingPercent)
  }

  function GetCurrentOrderVolume(st: AdaptiveState): (r: Option<real>)
    ensures r.None? <==> st.currentScaled.None?
    ensures r.Some? ==> r.value == st.currentScaled.value.orderVolume
  {
    if st.currentScaled.None? then None else Some(st.currentScaled.value.orderVolume)
  }

  function GetCurrentTakeProfit(st: AdaptiveState): (r: Option<real>)
    ensures r.None? <==> st.currentScaled.None?
    ensures r.Some? ==> r.value == st.currentScaled.value.takeProfitPercent
  {
    if st.currentScaled.None? then None else Some(st.currentScaled.value.takeProfitPercent)
  }

  function GetCurrentMaxDrawdown(st: AdaptiveState): (r: Option<real>)
    ensures r.None? <==> st.currentScaled.None?
    ensures r.Some? ==> r.value == st.currentScaled.value.maxDrawdownPercent
  {
    if st.currentScaled.None? then None else Some(st.currentScaled.value.maxDrawdownPercent)
  }

  function GetVolatilityLevel(st: AdaptiveState): (r: Option<VolatilityLevel>)
    ensures r.None? <==> st.currentScaled.None?
    ensures r.Some? ==> r.value == st.currentScaled.value.volatilityLevel
  {
    if st.currentScaled.None? then None else Some(st.currentScaled.value.volatilityLevel)
  }

  function GetScalingFactor(st: AdaptiveState): (r: Option<real>)
    ensures r.None? <==> st.currentScaled.None?
    ensures r.Some? ==> r.value == st.currentScaled.value.scalingFactor
  {
    if st.currentScaled.None? then None else Some(st.currentScaled.value.scalingFactor)
  }

  /** Straight after initialisation every getter answers None; after a
      successful update each answers the matching field of what the update
      returned. */
  lemma GettersFollowUpdates(config: Option<AdaptiveParameterConfig>, st: AdaptiveState, num: Numerics,
                             high: real, low: real, close: real, open: real)
    requires Ready(st)
    ensures var s0 := InitializeAdaptive(config);
      && GetCurrentGridSpacing(s0).None? && GetCurrentOrderVolume(s0).None?
      && GetCurrentTakeProfit(s0).None? && GetCurrentMaxDrawdown(s0).None?
      && GetVolatilityLevel(s0).None? && GetScalingFactor(s0).None?
    ensures var (s1, r) := UpdateAdaptiveParameters(st, num, high, low, close, open);
      r.Ok? ==>
        && GetCurrentGridSpacing(s1) == Some(r.value.gridSpacingPercent)
        && GetCurrentOrderVolume(s1) == Some(r.value.orderVolume)
        && GetCurrentTakeProfit(s1) == Some(r.value.takeProfitPercent)
        && GetCurrentMaxDrawdown(s1) == Some(r.value.maxDrawdownPercent)
        && GetVolatilityLevel(s1) == Some(r.value.volatilityLevel)
        && GetScalingFactor(s1) == Some(r.value.scalingFactor)
  {
  }

  /** `get_adaptive_config`: the engine's configuration. */
  function GetAdaptiveConfig(st: AdaptiveState): (r: AdaptiveParameterConfig)
    ensures r == st.engine.config
  {
    st.engine.config
  }

  /** Setting the configuration that is already there changes nothing. */
  lemma SetCurrentConfigNoOp(st: AdaptiveState)
    ensures SetAdaptiveConfig(st, GetAdaptiveConfig(st)) == st
  {
  }

  /** `set_adaptive_config`: swap the engine's configuration and nothing else. */
  function SetAdaptiveConfig(st: AdaptiveState, config: AdaptiveParameterConfig): (r: AdaptiveState)
    ensures GetAdaptiveConfig(r) == config
    ensures r.engine.volatilityHistory == st.engine.volatilityHistory
    ensures r.engine.scalingHistory == st.engine.scalingHistory
    ensures r.(engine := st.engine) == st
    ensures Ready(st) ==> Ready(r)
  {
    st.(engine := st.engine.(config := config))
  }

  datatype GridApplication = GridApplication(
    gridSpacingPercent: real,
    orderVolume: real,
    takeProfitPercent: real,
    maxDrawdownPercent: real,
    scalingApplied: real,
    volatilityLevel: VolatilityLevel)

  /** `apply_scaled_parameters_to_grid`: the scaled fields, copied. */
  function ApplyScaledParametersToGrid(baseGridSpacing: real, baseOrderVolume: real, scaled: ScaledParameters)
    : (r: GridApplication)
    ensures r.gridSpacingPercent == scaled.gridSpacingPercent && r.orderVolume == scaled.orderVolume
    ensures r.takeProfitPercent == scaled.takeProfitPercent && r.maxDrawdownPercent == scaled.maxDrawdownPercent
    ensures r.scalingApplied == scaled.scalingFactor && r.volatilityLevel == scaled.volatilityLevel
  {
    GridApplication(scaled.gridSpacingPercent, scaled.orderVolume, scaled.takeProfitPercent,
                    scaled.maxDrawdownPercent, scaled.scalingFactor, scaled.volatilityLevel)
  }

  /** The base arguments have no influence on the result. */
  lemma ApplyIgnoresBase(s1: real, v1: real, s2: real, v2: real, scaled: ScaledParameters)
    ensures ApplyScaledParametersToGrid(s1, v1, scaled) == ApplyScaledParametersToGrid(s2, v2, scaled)
  {
  }
}
