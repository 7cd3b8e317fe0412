/** The grid trading strategy of `src/strategies/grid_strategy.py`: a
    one-shot volatility entry signal, a ladder of limit orders spaced below
    (long) or above (short) the entry, and take-profit / stop-loss exits whose
    thresholds come from the adaptive engine once it has produced scaled
    parameters. The strategy object is a record; each method returns the
    updated record next to its Python return value. */
module GridStrategy {
  import opened Common
  import opened Enums
  import opened Config
  import opened DataModels
  import opened Adaptive
  import opened AdaptiveIntegration

  datatype Strategy = Strategy(
    symbol: string,
    tradeType: TradeType,
    state: StrategyState,
    position: Option<Position>,
    entryOrders: seq<Order>,
    exitOrders: seq<Order>,
    params: GridTradingParams,
    gridPrices: seq<real>,
    entrySignalGenerated: bool,
    currentMaxPrice: real,
    currentMinPrice: ExtReal,
    adaptive: AdaptiveState)

  /** The entry threshold: `GridTradingParams` has no
      `min_volatility_threshold` field, so the fallback always applies. */
  const MinVolatilityThreshold: real := 0.1

  /** The lookback `analyze` passes to `calculate_volatility`. */
  const AnalyzePeriod: int := 20

  /** The constructor: idle, flat, no grid, the price extremes at 0 and
      infinity, and the adaptive state freshly initialised. */
  function NewStrategy(symbol: string, tradeType: TradeType, params: GridTradingParams): (s: Strategy)
    ensures s.state == Idle && s.position.None? && !s.entrySignalGenerated
    ensures s.entryOrders == [] && s.exitOrders == [] && s.gridPrices == []
    ensures s.currentMaxPrice == 0.0 && s.currentMinPrice == PosInf
    ensures s.adaptive == InitializeAdaptive(None) && Ready(s.adaptive)
  {
    Strategy(symbol, tradeType, Idle, None, [], [], params, [], false, 0.0, PosInf, InitializeAdaptive(None))
  }

  /** `reset`: back to idle with no position, no orders and the entry latch
      open. The grid prices, the price extremes and the adaptive state are
      not touched. */
  function Reset(s: Strategy): (r: Strategy)
    ensures r.state == Idle && r.position.None? && !r.entrySignalGenerated
    ensures r.entryOrders == [] && r.exitOrders == []
    ensures r.gridPrices == s.gridPrices && r.adaptive == s.adaptive
    ensures r.currentMaxPrice == s.currentMaxPrice && r.currentMinPrice == s.currentMinPrice
    ensures r.symbol == s.symbol && r.tradeType == s.tradeType && r.params == s.params
  {
    s.(state := Idle, position := None, entrySignalGenerated := false, entryOrders := [], exitOrders := [])
  }

  lemma ResetIdempotent(s: Strategy)
    ensures Reset(Reset(s)) == Reset(s)
  {
  }

  // ---------------------------------------------------------------------------
  // analyze
  // ---------------------------------------------------------------------------

  /** Whether `analyze` looks at the market at all. */
  predicate MayEnter(s: Strategy)
  {
    s.state == Idle && !s.entrySignalGenerated
  }

  /** `analyze`: while idle and not yet signalled, a volatility (in percent)
      of at least the threshold yields one BUY (long) or SELL (otherwise)
      signal of strength `min(vol / 10, 1)` and closes the entry latch. An
      error from the volatility calculation propagates. */
  function Analyze(s: Strategy, md: MarketData, sqrt: real -> real): (r: (Strategy, Result<seq<Signal>>))
    ensures !MayEnter(s) ==> r == (s, Ok([]))
    ensures r.0 == s.(entrySignalGenerated := r.0.entrySignalGenerated)
    ensures var vol := CalculateVolatility(md, AnalyzePeriod, sqrt);
      && (r.1.Err? <==> MayEnter(s) && vol.Err?)
      && (r.1.Ok? ==> |r.1.value| <= 1)
      && (r.1.Ok? && |r.1.value| == 1 <==> MayEnter(s) && vol.Ok? && vol.value >= MinVolatilityThreshold)
    ensures r.0.entrySignalGenerated <==> s.entrySignalGenerated || (r.1.Ok? && |r.1.value| == 1)
    ensures r.1.Ok? && |r.1.value| == 1 ==>
      var sig := r.1.value[0];
      && sig.signalType == (if s.tradeType == Long then BuySignal else SellSignal)
      && sig.symbol == s.symbol
      && 0.0 < sig.strength <= 1.0
      && sig.strength == Min(CalculateVolatility(md, AnalyzePeriod, sqrt).value / 10.0, 1.0)
  {
    if !MayEnter(s) then (s, Ok([]))
    else
      match CalculateVolatility(md, AnalyzePeriod, sqrt)
      case Err(e) => (s, Err(e))
      case Ok(vol) =>
        if vol < MinVolatilityThreshold then (s, Ok([]))
        else
          var kind := if s.tradeType == Long then BuySignal else SellSignal;
          match MakeSignal(kind, s.symbol, Min(vol / 10.0, 1.0), "Volatility meets threshold")
          case Err(e) => (s, Err(e))
          case Ok(sig) => (s.(entrySignalGenerated := true), Ok([sig]))
  }

  /** The entry latch: once `analyze` has signalled, no later call signals
      again, whatever the market, until `reset`; after `reset` the next call
      looks at the market again. */
  lemma AnalyzeSignalsOnce(s: Strategy, md1: MarketData, md2: MarketData, sqrt: real -> real)
    requires var r := Analyze(s, md1, sqrt); r.1.Ok? && |r.1.value| == 1
    ensures Analyze(Analyze(s, md1, sqrt).0, md2, sqrt) == (Analyze(s, md1, sqrt).0, Ok([]))
    ensures MayEnter(Reset(Analyze(s, md1, sqrt).0))
  {
  }

  // ---------------------------------------------------------------------------
  // generate_grid_orders
  // ---------------------------------------------------------------------------

  /** The spacing in use: the adaptive one once scaled parameters exist. */
  function GridSpacing(s: Strategy): (r: real)
    ensures s.adaptive.currentScaled.Some? ==> r == GetCurrentGridSpacing(s.adaptive).value
    ensures s.adaptive.currentScaled.None? ==> r == s.params.gridSpacingPercent
  {
    if s.adaptive.currentScaled.Some? then s.adaptive.currentScaled.value.gridSpacingPercent
    else s.params.gridSpacingPercent
  }

  /** The price of grid level `level`: `spacing` percent per level below the
      entry for a long grid, above it otherwise. */
  function GridPrice(t: TradeType, entry: real, spacingPercent: real, level: nat): (p: real)
    ensures level == 0 ==> p == entry
    ensures t == Long ==> p == entry - entry * (spacingPercent / 100.0) * (level as real)
    ensures t != Long ==> p == entry + entry * (spacingPercent / 100.0) * (level as real)
  {
    var g := spacingPercent / 100.0;
    if t == Long then entry * (1.0 - g * level as real) else entry * (1.0 + g * level as real)
  }

  /** The identifier of grid level `level`, `{symbol}_{type}_grid_{level}`. */
  function GridOrderId(symbol: string, t: TradeType, level: nat): string
  {
    symbol + "_" + TradeTypeValue(t) + "_grid_" + NatToString(level)
  }

  lemma GridOrderIdsDistinct(symbol: string, t: TradeType, i: nat, j: nat)
    requires i != j
    ensures GridOrderId(symbol, t, i) != GridOrderId(symbol, t, j)
  {
    var prefix := symbol + "_" + TradeTypeValue(t) + "_grid_";
    if GridOrderId(symbol, t, i) == GridOrderId(symbol, t, j) {
      assert GridOrderId(symbol, t, i)[|prefix|..] == NatToString(i);
      assert GridOrderId(symbol, t, j)[|prefix|..] == NatToString(j);
      NatToStringInjective(i, j);
    }
  }

  /** The number of levels `range(grid_levels)` walks. */
  function LevelCount(levels: int): (n: nat)
    ensures levels >= 0 ==> n == levels
    ensures levels < 0 ==> n == 0
  {
    if levels < 0 then 0 else levels
  }

  /** The ladder: `n` limit orders of equal size; a long strategy buys, any
      other trade type (BOTH included) sells. */
  function GridLadder(s: Strategy, entry: real, sizePerOrder: real, now: real): (os: seq<Order>)
    ensures |os| == LevelCount(s.params.gridLevels)
    ensures forall i :: 0 <= i < |os| ==>
      && os[i].price == GridPrice(s.tradeType, entry, GridSpacing(s), i)
      && os[i].quantity == sizePerOrder
      && os[i].orderType == Limit
      && os[i].status == Pending
      && os[i].tradeType == (if s.tradeType == Long then Long else Short)
      && os[i].orderId == GridOrderId(s.symbol, s.tradeType, i)
  {
    var side := if s.tradeType == Long then Long else Short;
    seq(LevelCount(s.params.gridLevels), i requires 0 <= i =>
      NewOrder(GridOrderId(s.symbol, s.tradeType, i), s.symbol, side, Limit, sizePerOrder,
               GridPrice(s.tradeType, entry, GridSpacing(s), i), now))
  }

  function Prices(os: seq<Order>): (ps: seq<real>)
    ensures |ps| == |os| && forall i :: 0 <= i < |os| ==> ps[i] == os[i].price
  {
    seq(|os|, i requires 0 <= i < |os| => os[i].price)
  }

  function Quantities(os: seq<Order>): (qs: seq<real>)
    ensures |qs| == |os| && forall i :: 0 <= i < |os| ==> qs[i] == os[i].quantity
  {
    seq(|os|, i requires 0 <= i < |os| => os[i].quantity)
  }

  /** `generate_grid_orders`: split the position size evenly over the levels
      and lay the ladder out from the entry price; every price is also
      appended to the strategy's grid prices. Zero levels divide by zero.
      The current price is accepted and not used; `now` stands for the
      orders' creation clock. */
  function GenerateGridOrders(s: Strategy, entry: real, size: real, currentPrice: real, now: real)
    : (r: (Strategy, Result<seq<Order>>))
    ensures r.1.Err? <==> s.params.gridLevels == 0
    ensures r.1.Err? ==> r.0 == s && r.1.error == ZeroDivision
    ensures r.1.Ok? ==>
      && r.1.value == GridLadder(s, entry, size / (s.params.gridLevels as real), now)
      && r.0 == s.(gridPrices := s.gridPrices + Prices(r.1.value))
  {
    if s.params.gridLevels == 0 then (s, Err(ZeroDivision))
    else
      var os := GridLadder(s, entry, size / (s.params.gridLevels as real), now);
      (s.(gridPrices := s.gridPrices + Prices(os)), Ok(os))
  }

  /** With at least one level the order sizes add up to the requested
      position size, and there is one order per level. */
  lemma GridQuantitiesSumToSize(s: Strategy, entry: real, size: real, currentPrice: real, now: real)
    requires s.params.gridLevels >= 1
    ensures var r := GenerateGridOrders(s, entry, size, currentPrice, now);
      && r.1.Ok? && |r.1.value| == s.params.gridLevels
      && Sum(Quantities(r.1.value)) == size
  {
    var n := s.params.gridLevels;
    var per := size / (n as real);
    var os := GenerateGridOrders(s, entry, size, currentPrice, now).1.value;
    assert os == GridLadder(s, entry, per, now);
    var qs := Quantities(os);
    assert |qs| == n;
    assert forall i :: 0 <= i < n ==> qs[i] == per;
    SumOfEqualParts(qs, size);
  }

  /** Order identifiers of one ladder never collide. */
  lemma GridIdsUnique(s: Strategy, entry: real, size: real, currentPrice: real, now: real)
    ensures var r := GenerateGridOrders(s, entry, size, currentPrice, now);
      r.1.Ok? ==> forall i, j :: 0 <= i < j < |r.1.value| ==> r.1.value[i].orderId != r.1.value[j].orderId
  {
    var r := GenerateGridOrders(s, entry, size, currentPrice, now);
    if r.1.Ok? {
      forall i, j | 0 <= i < j < |r.1.value|
        ensures r.1.value[i].orderId != r.1.value[j].orderId
      {
        GridOrderIdsDistinct(s.symbol, s.tradeType, i, j);
      }
    }
  }

  lemma ScaleStrictlyIncreasing(entry: real, g: real, i: nat, j: nat)
    requires entry > 0.0 && g > 0.0 && i < j
    ensures entry * g * (i as real) < entry * g * (j as real)
  {
    var eg := entry * g;
    assert eg > 0.0;
    assert eg * (j as real) - eg * (i as real) == eg * ((j - i) as real);
  }

  /** For a positive entry and spacing the ladder walks strictly away from
      the entry: down for a long grid, up for any other. */
  lemma GridPricesMonotone(t: TradeType, entry: real, spacingPercent: real, i: nat, j: nat)
    requires entry > 0.0 && spacingPercent > 0.0 && i < j
    ensures t == Long ==> GridPrice(t, entry, spacingPercent, j) < GridPrice(t, entry, spacingPercent, i)
    ensures t != Long ==> GridPrice(t, entry, spacingPercent, i) < GridPrice(t, entry, spacingPercent, j)
  {
    ScaleStrictlyIncreasing(entry, spacingPercent / 100.0, i, j);
  }

  /** A long level stays above zero exactly while `spacing * level` is under
      100 percent. */
  lemma LongGridPricePositive(entry: real, spacingPercent: real, level: nat)
    requires entry > 0.0
    ensures GridPrice(Long, entry, spacingPercent, level) > 0.0 <==> spacingPercent * (level as real) < 100.0
  {
    var g := spacingPercent / 100.0;
    var gl := g * level as real;
    var k := 1.0 - gl;
    assert GridPrice(Long, entry, spacingPercent, level) == entry * k;
    assert gl * 100.0 == spacingPercent * (level as real);
    if k > 0.0 {
      assert entry * k > 0.0;
    } else {
      assert entry * k <= 0.0 by { assert entry * (-k) >= 0.0; }
    }
  }

  /** The parameter bounds admit ladders that reach a zero price: a 10 %
      spacing over 20 levels puts level 10 at 0 and the levels after it
      below zero. */
  lemma ValidParamsReachZeroPrice()
    ensures ValidGridParams(GridParamsWithDefaults(1.0, 10.0, 20, 5.0, 5.0))
    ensures GridPrice(Long, 100.0, 10.0, 10) == 0.0
    ensures GridPrice(Long, 100.0, 10.0, 19) < 0.0
  {
  }

  // ---------------------------------------------------------------------------
  // check_exit_conditions
  // ---------------------------------------------------------------------------

  /** The take-profit and drawdown percentages in use: the adaptive ones
      once scaled parameters exist. */
  function ExitThresholds(s: Strategy): (r: (real, real))
    ensures s.adaptive.currentScaled.Some? ==>
      r == (GetCurrentTakeProfit(s.adaptive).value, GetCurrentMaxDrawdown(s.adaptive).value)
    ensures s.adaptive.currentScaled.None? ==> r == (s.params.takeProfitPercent, s.params.maxDrawdownPercent)
  {
    match s.adaptive.currentScaled
    case Some(sc) => (sc.takeProfitPercent, sc.maxDrawdownPercent)
    case None => (s.params.takeProfitPercent, s.params.maxDrawdownPercent)
  }

  /** Before any adaptive update the static parameters govern spacing and
      exits; after a successful update the scaled ones do. */
  lemma ThresholdsFollowAdaptive(s: Strategy, num: Volatility.Numerics, high: real, low: real, close: real, open: real)
    requires Ready(s.adaptive)
    ensures var s0 := NewStrategy(s.symbol, s.tradeType, s.params);
      && GridSpacing(s0) == s.params.gridSpacingPercent
      && ExitThresholds(s0) == (s.params.takeProfitPercent, s.params.maxDrawdownPercent)
    ensures var (a, res) := UpdateAdaptiveParameters(s.adaptive, num, high, low, close, open);
      res.Ok? ==>
        && GridSpacing(s.(adaptive := a)) == res.value.gridSpacingPercent
        && ExitThresholds(s.(adaptive := a)) == (res.value.takeProfitPercent, res.value.maxDrawdownPercent)
  {
  }

  /** Python's `min(m, price)` with `m` possibly infinite. */
  function LowerTo(m: ExtReal, price: real): (r: ExtReal)
    ensures m.Finite? ==> r == Finite(Min(m.v, price))
    ensures m.PosInf? ==> r == Finite(price)
    ensures m.NaN? || m.NegInf? ==> r == m
  {
    match m
    case Finite(v) => Finite(Min(v, price))
    case PosInf => Finite(price)
    case NegInf => NegInf
    case NaN => NaN
  }

  /** The position an exit check looks at: the argument if given, the
      strategy's own otherwise (a `Position` object is always truthy). */
  function ExitTarget(s: Strategy, position: Option<Position>): Option<Position>
  {
    if position.Some? then position else s.position
  }

  predicate HasOpenTarget(s: Strategy, position: Option<Position>)
  {
    ExitTarget(s, position).Some? && HoldsQuantity(ExitTarget(s, position).value)
  }

  /** The price extremes after seeing `price`. */
  function TrackExtremes(s: Strategy, price: real): (r: Strategy)
    ensures r.currentMaxPrice >= s.currentMaxPrice && r.currentMaxPrice >= price
    ensures r.currentMaxPrice == s.currentMaxPrice || r.currentMaxPrice == price
    ensures s.currentMinPrice.Finite? ==> r.currentMinPrice.Finite? && r.currentMinPrice.v <= s.currentMinPrice.v
    ensures r.currentMinPrice.Finite? ==> r.currentMinPrice.v <= price
    ensures r == s.(currentMaxPrice := r.currentMaxPrice, currentMinPrice := r.currentMinPrice)
  {
    s.(currentMaxPrice := Max(s.currentMaxPrice, price), currentMinPrice := LowerTo(s.currentMinPrice, price))
  }

  /** The exit signal: EXIT at full strength. */
  function ExitSignal(s: Strategy, rationale: string): (sig: Signal)
    ensures sig.signalType == Exit && sig.strength == 1.0 && sig.symbol == s.symbol
    ensures MakeSignal(Exit, s.symbol, 1.0, rationale) == Ok(sig)
  {
    Signal(Exit, s.symbol, 1.0, rationale)
  }

  /** The stop-loss test as written: the ABSOLUTE unrealised P&L against
      `equity * dd / 100`, so a large enough profit counts as a loss. */
  predicate StopLossHitAsWritten(p: Position, price: real, equity: real, ddPercent: real)
  {
    Abs(UnrealizedPnl(p, price)) >= equity * (ddPercent / 100.0)
  }

  /** The stop-loss test as intended: the loss, i.e. the negated P&L when it
      is negative and nothing otherwise, against the same limit. */
  predicate StopLossHit(p: Position, price: real, equity: real, ddPercent: real)
  {
    Max(0.0, -UnrealizedPnl(p, price)) >= equity * (ddPercent / 100.0)
  }

  /** The shared skeleton of `check_exit_conditions`, with the stop-loss test
      as a parameter: nothing without an open position; otherwise track the
      extremes, then exit on take profit, then, only once the position holds
      entry orders, on the stop-loss test. The drawdown from the extremes is
      computed by the source and never used. */
  function CheckExitWith(s: Strategy, price: real, equity: real, position: Option<Position>,
                         stopLoss: (Position, real, real, real) -> bool): (r: (Strategy, Option<Signal>))
    ensures !HasOpenTarget(s, position) ==> r == (s, None)
    ensures HasOpenTarget(s, position) ==> r.0 == TrackExtremes(s, price)
    ensures r.1.Some? ==> r.1.value.signalType == Exit && r.1.value.strength == 1.0
    ensures r.1.Some? <==> (HasOpenTarget(s, position) &&
      var p := ExitTarget(s, position).value;
      var (tp, dd) := ExitThresholds(s);
      || UnrealizedPnlPercent(p, price) >= tp
      || (|p.entryOrders| > 0 && stopLoss(p, price, equity, dd)))
  {
    if !HasOpenTarget(s, position) then (s, None)
    else
      var p := ExitTarget(s, position).value;
      var s1 := TrackExtremes(s, price);
      var (tp, dd) := ExitThresholds(s);
      if UnrealizedPnlPercent(p, price) >= tp then (s1, Some(ExitSignal(s, "Take profit triggered")))
      else if |p.entryOrders| > 0 && stopLoss(p, price, equity, dd) then (s1, Some(ExitSignal(s, "Stop loss triggered")))
      else (s1, None)
  }

  /** `check_exit_conditions` as written, with the absolute-P&L stop-loss. */
  function CheckExitConditionsAsWritten(s: Strategy, price: real, equity: real, position: Option<Position>)
    : (r: (Strategy, Option<Signal>))
    ensures !HasOpenTarget(s, position) ==> r == (s, None)
    ensures HasOpenTarget(s, position) ==> r.0 == TrackExtremes(s, price)
    ensures r.1.Some? ==> r.1.value.signalType == Exit && r.1.value.strength == 1.0
    ensures r.1.Some? <==> (HasOpenTarget(s, position) &&
      var p := ExitTarget(s, position).value;
      var (tp, dd) := ExitThresholds(s);
      || UnrealizedPnlPercent(p, price) >= tp
      || (|p.entryOrders| > 0 && Abs(UnrealizedPnl(p, price)) >= equity * (dd / 100.0)))
  {
    CheckExitWith(s, price, equity, position, StopLossHitAsWritten)
  }

  /** `check_exit_conditions` with the stop-loss measured on the loss only. */
  function CheckExitConditions(s: Strategy, price: real, equity: real, position: Option<Position>)
    : (r: (Strategy, Option<Signal>))
    ensures !HasOpenTarget(s, position) ==> r == (s, None)
    ensures HasOpenTarget(s, position) ==> r.0 == TrackExtremes(s, price)
    ensures r.1.Some? ==> r.1.value.signalType == Exit && r.1.value.strength == 1.0
    ensures r.1.Some? <==> (HasOpenTarget(s, position) &&
      var p := ExitTarget(s, position).value;
      var (tp, dd) := ExitThresholds(s);
      || UnrealizedPnlPercent(p, price) >= tp
      || (|p.entryOrders| > 0 && Max(0.0, -UnrealizedPnl(p, price)) >= equity * (dd / 100.0)))
  {
    CheckExitWith(s, price, equity, position, StopLossHit)
  }

  /** A long position of 100 at 100 with one entry order, a 5 % take profit
      and a 3 % drawdown limit on an equity of 10000: at 104 it is 400 in
      profit, short of the take profit, and the as-written test still calls
      for a "stop loss" exit; the corrected one holds. */
  lemma ProfitTriggersStopLoss(o: Order)
    ensures var p := Position("p", "BTCUSDT", Long, 100.0, 100.0, None, [o]);
      var s := NewStrategy("BTCUSDT", Long, GridParamsWithDefaults(1.0, 1.0, 5, 5.0, 3.0));
      && UnrealizedPnl(p, 104.0) == 400.0
      && UnrealizedPnlPercent(p, 104.0) < 5.0
      && CheckExitConditionsAsWritten(s, 104.0, 10000.0, Some(p)).1.Some?
      && CheckExitConditions(s, 104.0, 10000.0, Some(p)).1.None?
  {
    var p := Position("p", "BTCUSDT", Long, 100.0, 100.0, None, [o]);
    assert UnrealizedPnlPercent(p, 104.0) * 100.0 == 400.0;
  }

  /** The two versions disagree only on profitable positions: at a loss or
      break-even they take the same decision. */
  lemma StopLossAgreesOnLosses(s: Strategy, price: real, equity: real, position: Option<Position>)
    requires HasOpenTarget(s, position) ==> UnrealizedPnl(ExitTarget(s, position).value, price) <= 0.0
    ensures CheckExitConditions(s, price, equity, position) == CheckExitConditionsAsWritten(s, price, equity, position)
  {
  }

  /** Until the position holds an entry order the stop-loss branch is
      skipped, so the two versions take the same decision. */
  lemma ChecksAgreeWithoutEntryOrders(s: Strategy, price: real, equity: real, position: Option<Position>)
    requires HasOpenTarget(s, position) ==> ExitTarget(s, position).value.entryOrders == []
    ensures CheckExitConditions(s, price, equity, position) == CheckExitConditionsAsWritten(s, price, equity, position)
  {
  }

  /** With a positive limit, an exit that is not a take profit is taken at a
      loss of at least the limit. */
  lemma StopLossMeansLoss(s: Strategy, price: real, equity: real, position: Option<Position>)
    requires equity * (ExitThresholds(s).1 / 100.0) > 0.0
    requires CheckExitConditions(s, price, equity, position).1.Some?
    requires UnrealizedPnlPercent(ExitTarget(s, position).value, price) < ExitThresholds(s).0
    ensures UnrealizedPnl(ExitTarget(s, position).value, price) <= -(equity * (ExitThresholds(s).1 / 100.0))
  {
  }

  /** A long take profit fires exactly when the price has risen by at least
      the take-profit percentage above the entry. */
  lemma LongTakeProfitIsPriceRise(p: Position, price: real, tp: real)
    requires p.tradeType == Long && p.entryPrice > 0.0
    ensures UnrealizedPnlPercent(p, price) >= tp <==> price >= p.entryPrice * (1.0 + tp / 100.0)
  {
    var r := UnrealizedPnlPercent(p, price);
    assert r * p.entryPrice == (price - p.entryPrice) * 100.0;
    if r >= tp {
      assert r * p.entryPrice >= tp * p.entryPrice;
    } else {
      assert r * p.entryPrice < tp * p.entryPrice;
    }
  }
}
