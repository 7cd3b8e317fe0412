/** The repaired backtest loop of `simple_backtest_test.py`
    (`fully_fixed_run_backtest`): one hard-coded symbol, long side only,
    fills at the touch price without slippage, filled orders recorded on
    the position, entry only while flat, exits only for positions with
    recorded entry orders, and a strategy reset after every exit. */
module FixedBacktest {
  import opened Common
  import opened Enums
  import opened Config
  import opened DataModels
  import opened GridStrategy
  import opened Engine

  /** The symbol the loop is written for. */
  const FixedSymbol: string := "BTCUSDC"

  datatype FixedState = FixedState(
    portfolio: Portfolio,
    strat: Option<Strategy>,
    pending: seq<Order>,
    allTrades: seq<Trade>,
    entries: nat,
    exits: nat)

  // ---------------------------------------------------------------------------
  // Step 1: every touched order fills completely at the touch price
  // ---------------------------------------------------------------------------

  function TouchedFn(c: Candle): Order -> bool
  {
    (o: Order) => Triggered(o, c)
  }

  function UntouchedFn(c: Candle): Order -> bool
  {
    (o: Order) => !Triggered(o, c)
  }

  function TouchFill(o: Order, c: Candle): Fill
  {
    Fill(o, o.quantity, TouchPrice(o, c))
  }

  /** The fill pass of the loop: touched orders fill at the lower of limit
      and close (long) or the higher (short), for their whole quantity;
      the others stay pending in their order. */
  function TouchFills(pending: seq<Order>, c: Candle): (r: (seq<Fill>, seq<Order>))
    ensures OrdersOf(r.0) == Filter(pending, TouchedFn(c))
    ensures r.1 == Filter(pending, UntouchedFn(c))
    ensures forall i :: 0 <= i < |r.0| ==> r.0[i] == TouchFill(r.0[i].order, c)
  {
    if |pending| == 0 then ([], [])
    else
      var rest := TouchFills(pending[1..], c);
      if Triggered(pending[0], c) then
        assert OrdersOf([TouchFill(pending[0], c)] + rest.0) == [pending[0]] + OrdersOf(rest.0);
        ([TouchFill(pending[0], c)] + rest.0, rest.1)
      else (rest.0, [pending[0]] + rest.1)
  }

  /** No pending order is lost or duplicated by the fill pass. */
  lemma TouchFillsPartition(pending: seq<Order>, c: Candle)
    ensures var (filled, remaining) := TouchFills(pending, c);
      multiset(OrdersOf(filled)) + multiset(remaining) == multiset(pending)
  {
    FilterPartition(pending, TouchedFn(c), UntouchedFn(c));
  }

  /** Without slippage and for positive quantities, the loop's fill pass is
      the executor's. */
  lemma {:induction false} TouchFillsMatchExecutor(ex: Executor, pending: seq<Order>, c: Candle)
    requires ex.slippage == 0.0
    requires forall i :: 0 <= i < |pending| ==> pending[i].quantity > 0.0
    ensures TouchFills(pending, c) == FillPass(ex, pending, c)
    decreases |pending|
  {
    if |pending| > 0 {
      TouchFillsMatchExecutor(ex, pending[1..], c);
      var o := pending[0];
      if Triggered(o, c) {
        assert ExecuteLimitOrder(ex, o, c) == (o.quantity, TouchPrice(o, c));
      } else {
        assert ExecuteLimitOrder(ex, o, c) == (0.0, 0.0);
      }
    }
  }

  // ---------------------------------------------------------------------------
  // Steps 2-4
  // ---------------------------------------------------------------------------

  /** Every position the loop opens is named `{symbol}_L_{idx}`, whatever
      the side of the order. */
  function FixedPositionId(idx: nat): Order -> string
  {
    (o: Order) => FixedSymbol + "_L_" + NatToString(idx)
  }

  /** What the loop's positions look like: timed, and with at least one
      entry order, because each fill is recorded on its position. */
  predicate FixedHeld(pf: Portfolio)
  {
    forall x :: x in pf.positions ==> x.1.entryTime.Some? && |x.1.entryOrders| > 0
  }

  lemma {:induction false} FillsKeepFixedHeld(ex: Executor, pf: Portfolio, fs: seq<Fill>, ts: real, idx: nat)
    requires FixedHeld(pf)
    requires ApplyFills(ex, pf, FixedSymbol, fs, ts, FixedPositionId(idx), true).Ok?
    ensures FixedHeld(ApplyFills(ex, pf, FixedSymbol, fs, ts, FixedPositionId(idx), true).value)
    decreases |fs|
  {
    if |fs| > 0 {
      var newId := FixedPositionId(idx)(fs[0].order);
      var pf1 := ApplyFill(ex, pf, FixedSymbol, fs[0], ts, newId, true).value;
      var held := Lookup(pf.positions, FixedSymbol);
      var p := AfterFill(held, FixedSymbol, fs[0], ts, newId, true).value;
      if held.Some? {
        LookupMember(pf.positions, FixedSymbol);
      }
      PutMembers(pf.positions, FixedSymbol, p);
      FillsKeepFixedHeld(ex, pf1, fs[1..], ts, idx);
    }
  }

  /** Step 3: a long strategy with no position, on a flat book, analyses
      the market data and on a signal lays its grid; the entry counter
      counts the signals. */
  function FixedEnter(balance: real, pf: Portfolio, strat: Option<Strategy>, md: MarketData, c: Candle,
                      sqrt: real -> real, now: real): (r: Result<(Option<Strategy>, seq<Order>, nat)>)
    ensures HasKey(pf.positions, FixedSymbol) ==> r == Ok((strat, [], 0))
    ensures r.Ok? ==> SideStep(strat, r.value.0) && r.value.2 <= 1
    ensures r.Ok? ==> (r.value.2 == 1 <==> !Flag(strat) && Flag(r.value.0))
    ensures r.Ok? && |r.value.1| > 0 ==> r.value.2 == 1
  {
    if HasKey(pf.positions, FixedSymbol) || strat.None? || strat.value.position.Some? then Ok((strat, [], 0))
    else
      match EnterSide(balance, strat, md, c, sqrt, now)
      case Err(e) => Err(e)
      case Ok((s1, orders)) => Ok((s1, orders, if !Flag(strat) && Flag(s1) then 1 else 0))
  }

  /** Step 4: a held long position with recorded entry orders is offered to
      the long strategy; on an exit signal it is closed at the close, and
      the strategy is reset with its entry latch reopened. */
  function FixedExit(ex: Executor, pf: Portfolio, strat: Option<Strategy>, c: Candle, idx: nat)
    : (r: Result<(Portfolio, Option<Strategy>, Option<Trade>)>)
    requires Timed(pf)
    ensures r.Ok? && r.value.2.None? ==> r.value.0 == pf
    ensures r.Ok? ==> r.value.1.Some? == strat.Some?
    ensures r.Ok? && r.value.2.Some? ==>
      Lookup(pf.positions, FixedSymbol).Some? &&
      var pos := Lookup(pf.positions, FixedSymbol).value;
      && |pos.entryOrders| > 0 && pos.tradeType == Long && strat.Some?
      && CheckExitConditionsAsWritten(strat.value, c.close, TotalEquity(pf), Some(pos)).1.Some?
      && CloseOut(ex, pf, FixedSymbol, pos, c.close, c.timestamp, FixedSymbol + "_L_" + NatToString(idx))
         == Ok((r.value.0, r.value.2.value))
      && r.value.1.value.state == Idle && !r.value.1.value.entrySignalGenerated
      && r.value.1.value.adaptive == strat.value.adaptive
    ensures r.Ok? && r.value.2.None? ==> Flag(r.value.1) == Flag(strat)
    ensures r.Ok? && r.value.2.None? && strat.Some? ==> r.value.1.value.adaptive == strat.value.adaptive
    ensures r.Ok? ==> forall x :: x in r.value.0.positions ==> x in pf.positions
    ensures r.Ok? ==> r.value.0.closedTrades == pf.closedTrades + (if r.value.2.Some? then [r.value.2.value] else [])
  {
    match Lookup(pf.positions, FixedSymbol)
    case None => Ok((pf, strat, None))
    case Some(pos) =>
      LookupMember(pf.positions, FixedSymbol);
      if |pos.entryOrders| == 0 || pos.tradeType != Long || strat.None? then Ok((pf, strat, None))
      else
        var checked := CheckExitConditionsAsWritten(strat.value, c.close, TotalEquity(pf), Some(pos));
        if checked.1.None? then Ok((pf, Some(checked.0), None))
        else
          match CloseOut(ex, pf, FixedSymbol, pos, c.close, c.timestamp, FixedSymbol + "_L_" + NatToString(idx))
          case Err(e) => Err(e)
          case Ok(closed) => Ok((closed.0, Some(Reset(checked.0).(entrySignalGenerated := false)), Some(closed.1)))
  }

  /** What holds of every state of the loop. */
  predicate FixedInv(st: FixedState)
  {
    FixedHeld(st.portfolio)
  }

  /** One candle of the loop: fills, position updates, entry, exit. */
  function FixedStep(ex: Executor, balance: real, st: FixedState, md: MarketData, c: Candle, idx: nat,
                     sqrt: real -> real, now: real): (r: Result<FixedState>)
    requires FixedInv(st)
    ensures r.Ok? ==> FixedInv(r.value)
    ensures r.Ok? ==> r.value.strat.Some? == st.strat.Some?
    ensures r.Ok? ==> st.allTrades <= r.value.allTrades && st.portfolio.closedTrades <= r.value.portfolio.closedTrades
    ensures r.Ok? ==> r.value.exits - st.exits == |r.value.allTrades| - |st.allTrades| <= 1
    ensures r.Ok? ==> st.entries <= r.value.entries <= st.entries + 1
    ensures r.Ok? && r.value.exits > st.exits ==> r.value.strat.Some? && MayEnter(r.value.strat.value)
  {
    var (filled, remaining) := TouchFills(st.pending, c);
    match ApplyFills(ex, st.portfolio, FixedSymbol, filled, c.timestamp, FixedPositionId(idx), true)
    case Err(e) => Err(e)
    case Ok(pf1) =>
      FillsKeepFixedHeld(ex, st.portfolio, filled, c.timestamp, idx);
      match FixedEnter(balance, pf1, st.strat, md, c, sqrt, now)
      case Err(e) => Err(e)
      case Ok((strat1, orders, entered)) =>
        match FixedExit(ex, pf1, strat1, c, idx)
        case Err(e) => Err(e)
        case Ok((pf2, strat2, closed)) =>
          var trades := if closed.Some? then st.allTrades + [closed.value] else st.allTrades;
          Ok(FixedState(pf2, strat2, remaining + orders, trades, st.entries + entered,
                        st.exits + (if closed.Some? then 1 else 0)))
  }

  /** The candle loop from `idx` up to `n`. */
  function FixedLoop(ex: Executor, balance: real, st: FixedState, md: MarketData, idx: nat, n: nat,
                     sqrt: real -> real, now: real): (r: Result<FixedState>)
    requires FixedInv(st) && n <= |md.candles|
    ensures r.Ok? ==> FixedInv(r.value) && r.value.strat.Some? == st.strat.Some?
    ensures r.Ok? ==> st.allTrades <= r.value.allTrades
    ensures r.Ok? ==> r.value.exits - st.exits == |r.value.allTrades| - |st.allTrades|
    ensures r.Ok? ==> st.entries <= r.value.entries && st.exits <= r.value.exits
    ensures r.Ok? && idx <= n ==> r.value.entries <= st.entries + (n - idx) && r.value.exits <= st.exits + (n - idx)
    decreases n - idx
  {
    if idx >= n then Ok(st)
    else
      match FixedStep(ex, balance, st, md, md.candles[idx], idx, sqrt, now)
      case Err(e) => Err(e)
      case Ok(st1) => FixedLoop(ex, balance, st1, md, idx + 1, n, sqrt, now)
  }

  /** The loop's strategy table: a long strategy per configuration when
      enabled, a later configuration of a symbol replacing an earlier one. */
  function FixedStrategies(configs: seq<StrategyConfig>): (r: seq<(string, Option<Strategy>)>)
    ensures forall c :: c in configs ==> HasKey(r, c.symbol)
    ensures forall x :: x in r ==> x.1.Some? ==> x.1.value.tradeType == Long && MayEnter(x.1.value)
    decreases |configs|
  {
    if |configs| == 0 then []
    else
      var last := configs[|configs| - 1];
      var prior := FixedStrategies(configs[..|configs| - 1]);
      var v := if last.enableLong then Some(NewStrategy(last.symbol, Long, last.longParams)) else None;
      PutMembers(prior, last.symbol, v);
      forall c | c in configs
        ensures HasKey(Put(prior, last.symbol, v), c.symbol)
      {
        PutKeys(prior, last.symbol, v, c.symbol);
        if c != last {
          assert c in configs[..|configs| - 1];
        }
      }
      Put(prior, last.symbol, v)
  }

  /** `fully_fixed_run_backtest`: a missing market-data entry for the
      symbol is a `KeyError` before the loop, a missing strategy one at the
      first candle. The result carries the metrics and the entry and exit
      counters the loop reports. */
  function FixedRunBacktest(eng: BacktestEngine, mds: seq<(string, MarketData)>, configs: seq<StrategyConfig>,
                            sqrt: real -> real, now: real): (r: Result<(BacktestEngine, BacktestMetrics, nat, nat)>)
    ensures Lookup(mds, FixedSymbol).None? ==> r.Err? && r.error.KeyError?
    ensures (Lookup(mds, FixedSymbol).Some? && |Lookup(mds, FixedSymbol).value.candles| > 0
             && Lookup(FixedStrategies(configs), FixedSymbol).None?) ==> r.Err? && r.error.KeyError?
    ensures r.Ok? ==>
      var (eng1, metrics, entries, exits) := r.value;
      var n := |Lookup(mds, FixedSymbol).value.candles|;
      && eng1.config == eng.config
      && eng.allTrades <= eng1.allTrades && |eng1.allTrades| == |eng.allTrades| + exits
      && |eng1.history| == |eng.history| + n && eng.history <= eng1.history
      && entries <= n && exits <= n
      && (n > 0 ==> CalculateMetrics(eng.config.initialBalance, TotalEquity(eng1.history[|eng1.history| - 1]),
                                     eng1.allTrades) == Ok(metrics))
  {
    match Lookup(mds, FixedSymbol)
    case None => Err(KeyError(FixedSymbol))
    case Some(md) =>
      var n := |md.candles|;
      var strat := Lookup(FixedStrategies(configs), FixedSymbol);
      if n > 0 && strat.None? then Err(KeyError(FixedSymbol))
      else
        var balance := eng.config.initialBalance;
        var st0 := FixedState(NewPortfolio(balance), strat.GetOr(None), [], eng.allTrades, 0, 0);
        match FixedLoop(ExecutorOf(eng.config), balance, st0, md, 0, n, sqrt, now)
        case Err(e) => Err(e)
        case Ok(final) =>
          var eng1 := eng.(history := eng.history + seq(n, _ => final.portfolio), allTrades := final.allTrades);
          match CalculateMetrics(balance, TotalEquity(final.portfolio), final.allTrades)
          case Err(e) => Err(e)
          case Ok(metrics) => Ok((eng1, metrics, final.entries, final.exits))
  }

  // ---------------------------------------------------------------------------
  // What the repair buys
  // ---------------------------------------------------------------------------

  /** In the loop's states the stop-loss is live: an open position whose
      unrealised P&L reaches the drawdown share of equity in absolute value,
      a loss or (with the absolute test the loop calls) a gain, makes the
      strategy exit. */
  lemma FixedStopLossLive(st: FixedState, s: Strategy, x: (string, Position), price: real, equity: real)
    requires FixedInv(st) && x in st.portfolio.positions && HoldsQuantity(x.1)
    requires Abs(UnrealizedPnl(x.1, price)) >= equity * (ExitThresholds(s).1 / 100.0)
    ensures CheckExitConditionsAsWritten(s, price, equity, Some(x.1)).1.Some?
  {
  }

  /** After an exit the strategy is idle and unlatched, so `analyze` looks
      at the market again: a volatile enough market yields a new signal. */
  lemma ExitReopensEntry(ex: Executor, balance: real, st: FixedState, md: MarketData, c: Candle, idx: nat,
                         sqrt: real -> real, now: real)
    requires FixedInv(st)
    requires FixedStep(ex, balance, st, md, c, idx, sqrt, now).Ok?
    requires FixedStep(ex, balance, st, md, c, idx, sqrt, now).value.exits > st.exits
    requires CalculateVolatility(md, AnalyzePeriod, sqrt).Ok?
    requires CalculateVolatility(md, AnalyzePeriod, sqrt).value >= MinVolatilityThreshold
    ensures var s := FixedStep(ex, balance, st, md, c, idx, sqrt, now).value.strat.value;
      var (s1, signals) := Analyze(s, md, sqrt);
      signals.Ok? && |signals.value| == 1 && s1.entrySignalGenerated
  {
  }
}
