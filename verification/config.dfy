/** The validated configuration records of `src/config_models.py`: each
    pydantic model is a datatype plus a smart constructor that returns the
    record or the `ValueError` pydantic would raise. */
module Config {
  import opened Common
  import opened Enums

  // ---------------------------------------------------------------------------
  // BinanceConfig
  // ---------------------------------------------------------------------------

  datatype BinanceConfig = BinanceConfig(
    apiKey: string,
    apiSecret: string,
    testnet: bool,
    requestTimeout: int,
    maxRetries: int)

  /** `validate_credentials`: both present, then the key, then the secret at
      least ten characters long. */
  function ValidateCredentials(c: BinanceConfig): (r: Result<bool>)
    ensures r.Ok? <==> |c.apiKey| >= 10 && |c.apiSecret| >= 10
    ensures r.Ok? ==> r.value
    ensures (|c.apiKey| == 0 || |c.apiSecret| == 0) ==>
      r == Err(ValueError("Binance API key and secret must be provided"))
    ensures 0 < |c.apiKey| < 10 && |c.apiSecret| > 0 ==> r == Err(ValueError("Invalid API key format"))
  {
    if |c.apiKey| == 0 || |c.apiSecret| == 0 then Err(ValueError("Binance API key and secret must be provided"))
    else if |c.apiKey| < 10 then Err(ValueError("Invalid API key format"))
    else if |c.apiSecret| < 10 then Err(ValueError("Invalid API secret format"))
    else Ok(true)
  }

  // ---------------------------------------------------------------------------
  // GridTradingParams
  // ---------------------------------------------------------------------------

  datatype GridTradingParams = GridTradingParams(
    initialPositionSize: real,
    gridSpacingPercent: real,
    gridLevels: int,
    takeProfitPercent: real,
    maxDrawdownPercent: real,
    maxPositionSizePercent: real,
    orderType: string,
    limitOrderTimeoutSeconds: int)

  const DefaultMaxPositionSizePercent: real := 20.0
  const DefaultLimitOrderTimeoutSeconds: int := 300

  /** The `Field(...)` bounds of the model, field by field. */
  predicate GridFieldBounds(p: GridTradingParams)
  {
    && p.initialPositionSize > 0.0
    && 0.0 < p.gridSpacingPercent <= 10.0
    && 1 <= p.gridLevels <= 20
    && 0.0 < p.takeProfitPercent <= 100.0
    && 0.0 < p.maxDrawdownPercent <= 100.0
    && 0.0 < p.maxPositionSizePercent <= 100.0
    && p.limitOrderTimeoutSeconds >= 10
  }

  /** The two `field_validator`s, run after the field bounds. */
  function GridValidators(p: GridTradingParams): Result<GridTradingParams>
  {
    if p.gridSpacingPercent < 0.1 then Err(ValueError("Grid spacing must be at least 0.1%"))
    else if p.gridLevels > 50 then Err(ValueError("Grid levels should not exceed 50 to avoid over-trading"))
    else Ok(p)
  }

  /** The consolidated rule a valid parameter set satisfies. */
  predicate ValidGridParams(p: GridTradingParams)
  {
    && p.initialPositionSize > 0.0
    && 0.1 <= p.gridSpacingPercent <= 10.0
    && 1 <= p.gridLevels <= 20
    && 0.0 < p.takeProfitPercent <= 100.0
    && 0.0 < p.maxDrawdownPercent <= 100.0
    && 0.0 < p.maxPositionSizePercent <= 100.0
    && p.limitOrderTimeoutSeconds >= 10
  }

  /** Constructing `GridTradingParams`: the field bounds, then the validators.
      The spacing validator tightens the lower bound to 0.1 and the levels
      validator can never fire once the bound of 20 holds. */
  function MakeGridParams(p: GridTradingParams): (r: Result<GridTradingParams>)
    ensures r.Ok? <==> ValidGridParams(p)
    ensures r.Ok? ==> r.value == p
  {
    if !GridFieldBounds(p) then Err(ValueError("GridTradingParams field out of range"))
    else GridValidators(p)
  }

  /** The defaults of the optional fields. */
  function GridParamsWithDefaults(size: real, spacing: real, levels: int, tp: real, dd: real): (p: GridTradingParams)
    ensures p.maxPositionSizePercent == 20.0 && p.orderType == "limit" && p.limitOrderTimeoutSeconds == 300
    ensures MakeGridParams(p).Ok? <==>
      size > 0.0 && 0.1 <= spacing <= 10.0 && 1 <= levels <= 20 && 0.0 < tp <= 100.0 && 0.0 < dd <= 100.0
  {
    GridTradingParams(size, spacing, levels, tp, dd, DefaultMaxPositionSizePercent, "limit", DefaultLimitOrderTimeoutSeconds)
  }

  // ---------------------------------------------------------------------------
  // StrategyConfig
  // ---------------------------------------------------------------------------

  datatype StrategyConfig = StrategyConfig(
    symbol: string,
    longParams: GridTradingParams,
    shortParams: GridTradingParams,
    enableLong: bool,
    enableShort: bool,
    minVolatilityThreshold: real)

  const DefaultMinVolatilityThreshold: real := 0.5

  /** Constructing `StrategyConfig`: nested parameter sets must be valid, the
      threshold positive, and at least one direction enabled. */
  function MakeStrategyConfig(c: StrategyConfig): (r: Result<StrategyConfig>)
    ensures r.Ok? <==>
      ValidGridParams(c.longParams) && ValidGridParams(c.shortParams)
      && c.minVolatilityThreshold > 0.0 && (c.enableLong || c.enableShort)
    ensures (ValidGridParams(c.longParams) && ValidGridParams(c.shortParams)
             && c.minVolatilityThreshold > 0.0 && !c.enableLong && !c.enableShort) ==>
      r == Err(ValueError("Either enable_long or enable_short must be True"))
  {
    var _ :- MakeGridParams(c.longParams);
    var _ :- MakeGridParams(c.shortParams);
    if c.minVolatilityThreshold <= 0.0 then Err(ValueError("min_volatility_threshold must be > 0"))
    else if !c.enableLong && !c.enableShort then Err(ValueError("Either enable_long or enable_short must be True"))
    else Ok(c)
  }

  // ---------------------------------------------------------------------------
  // BacktestConfig
  // ---------------------------------------------------------------------------

  datatype BacktestConfig = BacktestConfig(
    startDate: string,
    endDate: string,
    initialBalance: real,
    makerFeePercent: real,
    takerFeePercent: real,
    slippagePercent: real,
    useMultiprocessing: bool,
    numWorkers: int)

  predicate ValidBacktestConfig(c: BacktestConfig)
  {
    && c.initialBalance > 0.0
    && 0.0 <= c.makerFeePercent <= 1.0
    && 0.0 <= c.takerFeePercent <= 1.0
    && 0.0 <= c.slippagePercent <= 5.0
    && 1 <= c.numWorkers <= 16
  }

  function MakeBacktestConfig(c: BacktestConfig): (r: Result<BacktestConfig>)
    ensures r.Ok? <==> ValidBacktestConfig(c)
    ensures r.Ok? ==> r.value == c
  {
    if c.initialBalance <= 0.0 then Err(ValueError("initial_balance must be > 0"))
    else if !(0.0 <= c.makerFeePercent <= 1.0) then Err(ValueError("maker_fee_percent out of range"))
    else if !(0.0 <= c.takerFeePercent <= 1.0) then Err(ValueError("taker_fee_percent out of range"))
    else if !(0.0 <= c.slippagePercent <= 5.0) then Err(ValueError("slippage_percent out of range"))
    else if !(1 <= c.numWorkers <= 16) then Err(ValueError("num_workers out of range"))
    else Ok(c)
  }

  /** The defaults: 0.1% maker and taker fees and 0.05% slippage. */
  function BacktestConfigWithDefaults(startDate: string, endDate: string, balance: real): (c: BacktestConfig)
    ensures c.makerFeePercent == 0.1 && c.takerFeePercent == 0.1 && c.slippagePercent == 0.05
    ensures MakeBacktestConfig(c).Ok? <==> balance > 0.0
  {
    BacktestConfig(startDate, endDate, balance, 0.1, 0.1, 0.05, false, 4)
  }

  // ---------------------------------------------------------------------------
  // PlatformConfig
  // ---------------------------------------------------------------------------

  datatype LiveTradingConfig = LiveTradingConfig(binance: BinanceConfig, totalEquity: real, maxLeverage: real)

  datatype PlatformConfig = PlatformConfig(
    mode: ExecutionMode,
    binance: BinanceConfig,
    strategies: seq<StrategyConfig>,
    backtest: Option<BacktestConfig>,
    liveTrading: Option<LiveTradingConfig>)

  /** `validate_mode_configs` as written: its body reads `self` inside a
      method whose parameters are `cls` and `values`, so the name lookup
      fails before any check runs. */
  function ValidateModeConfigsAsWritten(p: PlatformConfig): (r: Result<PlatformConfig>)
    ensures r.Err? && r.error.NameError?
  {
    Err(NameError("self"))
  }

  /** The intended rule: BACKTEST needs a backtest config and LIVE a live
      trading config; PAPER needs neither. */
  predicate ModeConfigsPresent(p: PlatformConfig)
  {
    && (p.mode == Backtest ==> p.backtest.Some?)
    && (p.mode == Live ==> p.liveTrading.Some?)
  }

  function ValidateModeConfigs(p: PlatformConfig): (r: Result<PlatformConfig>)
    ensures r.Ok? <==> ModeConfigsPresent(p)
    ensures r.Ok? ==> r.value == p
    ensures p.mode == Backtest && p.backtest.None? ==>
      r == Err(ValueError("BacktestConfig required when mode is BACKTEST"))
  {
    if p.mode == Backtest && p.backtest.None? then Err(ValueError("BacktestConfig required when mode is BACKTEST"))
    else if p.mode == Live && p.liveTrading.None? then Err(ValueError("LiveTradingConfig required when mode is LIVE"))
    else Ok(p)
  }

  /** A backtest configuration that satisfies the intended rule is still
      rejected by the validator as written. */
  lemma ModeValidatorRejectsValidConfig(b: BinanceConfig, bt: BacktestConfig)
    ensures var p := PlatformConfig(Backtest, b, [], Some(bt), None);
      ModeConfigsPresent(p) && ValidateModeConfigs(p).Ok? && ValidateModeConfigsAsWritten(p).Err?
  {
  }
}
