/** The backtest engine of `src/core/backtest_engine.py`: the order
    executor, the portfolio, the per-candle step of `run_backtest` and
    `_calculate_metrics`. Every mutation of the Python objects is a new value
    here; an exception is an `Err` that ends the run. */
module Engine {
  import opened Common
  import opened Enums
  import opened Config
  import opened DataModels
  import opened GridStrategy
  import AdaptiveIntegration

  // ---------------------------------------------------------------------------
  // OrderExecutor
  // ---------------------------------------------------------------------------

  /** Fees and slippage as fractions; the constructor takes percentages. */
  datatype Executor = Executor(makerFee: real, takerFee: real, slippage: real)

  function NewExecutor(makerFeePercent: real, takerFeePercent: real, slippagePercent: real): (ex: Executor)
    ensures ex.makerFee * 100.0 == makerFeePercent && ex.takerFee * 100.0 == takerFeePercent
    ensures ex.slippage * 100.0 == slippagePercent
  {
    Executor(makerFeePercent / 100.0, takerFeePercent / 100.0, slippagePercent / 100.0)
  }

  function ExecutorOf(c: BacktestConfig): Executor
  {
    NewExecutor(c.makerFeePercent, c.takerFeePercent, c.slippagePercent)
  }

  /** A long limit order trades once the low reaches its price; any other
      once the high does. */
  predicate Triggered(o: Order, c: Candle)
  {
    if o.tradeType == Long then c.low <= o.price else c.high >= o.price
  }

  /** The price before slippage: the lower of limit and close for a long,
      the higher for any other. */
  function TouchPrice(o: Order, c: Candle): (p: real)
    ensures o.tradeType == Long ==> p <= o.price && p <= c.close && (p == o.price || p == c.close)
    ensures o.tradeType != Long ==> p >= o.price && p >= c.close && (p == o.price || p == c.close)
  {
    if o.tradeType == Long then Min(o.price, c.close) else Max(o.price, c.close)
  }

  /** `execute_limit_order`: the whole quantity at the touch price moved
      against the trader by the slippage, or `(0, 0)` when untouched. */
  function ExecuteLimitOrder(ex: Executor, o: Order, c: Candle): (r: (real, real))
    ensures !Triggered(o, c) ==> r == (0.0, 0.0)
    ensures Triggered(o, c) ==> r.0 == o.quantity
    ensures Triggered(o, c) && o.tradeType == Long ==> r.1 == TouchPrice(o, c) * (1.0 + ex.slippage)
    ensures Triggered(o, c) && o.tradeType != Long ==> r.1 == TouchPrice(o, c) * (1.0 - ex.slippage)
  {
    if !Triggered(o, c) then (0.0, 0.0)
    else if o.tradeType == Long then (o.quantity, TouchPrice(o, c) * (1.0 + ex.slippage))
    else (o.quantity, TouchPrice(o, c) * (1.0 - ex.slippage))
  }

  lemma ScaleMonotone(a: real, b: real, k: real)
    requires a <= b && k >= 0.0
    ensures a * k <= b * k
  {
    assert b * k - a * k == (b - a) * k;
  }

  /** With slippage between 0 and 100 %, a long fill never costs more than
      its limit or the close plus slippage, and a short fill never brings
      less than its limit or the close less slippage. */
  lemma FillPriceBounds(ex: Executor, o: Order, c: Candle)
    requires 0.0 <= ex.slippage <= 1.0 && Triggered(o, c)
    ensures o.tradeType == Long ==>
      var p := ExecuteLimitOrder(ex, o, c).1;
      p <= o.price * (1.0 + ex.slippage) && p <= c.close * (1.0 + ex.slippage)
    ensures o.tradeType != Long ==>
      var p := ExecuteLimitOrder(ex, o, c).1;
      p >= o.price * (1.0 - ex.slippage) && p >= c.close * (1.0 - ex.slippage)
  {
    var t := TouchPrice(o, c);
    if o.tradeType == Long {
      ScaleMonotone(t, o.price, 1.0 + ex.slippage);
      ScaleMonotone(t, c.close, 1.0 + ex.slippage);
    } else {
      ScaleMonotone(o.price, t, 1.0 - ex.slippage);
      ScaleMonotone(c.close, t, 1.0 - ex.slippage);
    }
  }

  /** `calculate_commission`: the notional times the maker or taker fee. */
  function CalculateCommission(ex: Executor, quantity: real, price: real, isMaker: bool): (r: real)
    ensures r == quantity * price * (if isMaker then ex.makerFee else ex.takerFee)
  {
    quantity * price * (if isMaker then ex.makerFee else ex.takerFee)
  }

  /** Commission is additive in the quantity and never negative on
      non-negative inputs: splitting an order does not change its fees. */
  lemma CommissionAdditive(ex: Executor, q1: real, q2: real, price: real, isMaker: bool)
    ensures CalculateCommission(ex, q1 + q2, price, isMaker)
         == CalculateCommission(ex, q1, price, isMaker) + CalculateCommission(ex, q2, price, isMaker)
    ensures q1 >= 0.0 && price >= 0.0 && ex.makerFee >= 0.0 && ex.takerFee >= 0.0 ==>
      CalculateCommission(ex, q1, price, isMaker) >= 0.0
  {
    var f := if isMaker then ex.makerFee else ex.takerFee;
    assert (q1 + q2) * price * f == q1 * price * f + q2 * price * f;
    if q1 >= 0.0 && price >= 0.0 && f >= 0.0 {
      assert q1 * price >= 0.0;
    }
  }

  // ---------------------------------------------------------------------------
  // Step 1: the fill pass over a symbol's pending orders
  // ---------------------------------------------------------------------------

  datatype Fill = Fill(order: Order, quantity: real, price: real)

  /** Whether the executor reports a positive fill for the order. */
  predicate Fills(ex: Executor, o: Order, c: Candle)
  {
    ExecuteLimitOrder(ex, o, c).0 > 0.0
  }

  function FillsFn(ex: Executor, c: Candle): Order -> bool
  {
    o => Fills(ex, o, c)
  }

  function StaysFn(ex: Executor, c: Candle): Order -> bool
  {
    o => !Fills(ex, o, c)
  }

  function OrdersOf(fs: seq<Fill>): (os: seq<Order>)
    ensures |os| == |fs| && forall i :: 0 <= i < |fs| ==> os[i] == fs[i].order
  {
    seq(|fs|, i requires 0 <= i < |fs| => fs[i].order)
  }

  /** The loop of step 1: each pending order, in turn, either fills (with the
      executor's quantity and price) or stays pending, keeping its place. */
  function FillPass(ex: Executor, pending: seq<Order>, c: Candle): (r: (seq<Fill>, seq<Order>))
    ensures OrdersOf(r.0) == Filter(pending, FillsFn(ex, c))
    ensures r.1 == Filter(pending, StaysFn(ex, c))
    ensures forall i :: 0 <= i < |r.0| ==>
      r.0[i] == Fill(r.0[i].order, ExecuteLimitOrder(ex, r.0[i].order, c).0, ExecuteLimitOrder(ex, r.0[i].order, c).1)
    ensures forall i :: 0 <= i < |r.0| ==> r.0[i].quantity > 0.0
  {
    if |pending| == 0 then ([], [])
    else
      var rest := FillPass(ex, pending[1..], c);
      var (q, p) := ExecuteLimitOrder(ex, pending[0], c);
      if q > 0.0 then
        OrdersOfCons(Fill(pending[0], q, p), rest.0);
        ([Fill(pending[0], q, p)] + rest.0, rest.1)
      else (rest.0, [pending[0]] + rest.1)
  }

  lemma OrdersOfCons(f: Fill, fs: seq<Fill>)
    ensures OrdersOf([f] + fs) == [f.order] + OrdersOf(fs)
  {
    var l, r := OrdersOf([f] + fs), [f.order] + OrdersOf(fs);
    assert forall i :: 1 <= i < |l| ==> l[i] == ([f] + fs)[i].order == fs[i - 1].order;
    assert |l| == |r|;
  }

  /** No order is lost or duplicated by the fill pass. */
  lemma FillPassPartition(ex: Executor, pending: seq<Order>, c: Candle)
    ensures var (filled, remaining) := FillPass(ex, pending, c);
      && |filled| + |remaining| == |pending|
      && multiset(OrdersOf(filled)) + multiset(remaining) == multiset(pending)
  {
    FilterPartition(pending, FillsFn(ex, c), StaysFn(ex, c));
  }

  // ---------------------------------------------------------------------------
  // PortfolioState
  // ---------------------------------------------------------------------------

  datatype Portfolio = Portfolio(
    timestamp: real,
    cash: real,
    positions: seq<(string, Position)>,
    closedTrades: seq<Trade>,
    totalFees: real)

  function NewPortfolio(cash: real): (pf: Portfolio)
    ensures pf.cash == cash && pf.positions == [] && pf.closedTrades == [] && pf.totalFees == 0.0
  {
    Portfolio(0.0, cash, [], [], 0.0)
  }

  /** Each held position's unrealised P&L as the properties compute it: at a
      price of 0. */
  function PnlsAtZero(ps: seq<(string, Position)>): (r: seq<real>)
    ensures |r| == |ps| && forall i :: 0 <= i < |ps| ==> r[i] == UnrealizedPnl(ps[i].1, 0.0)
  {
    seq(|ps|, i requires 0 <= i < |ps| => UnrealizedPnl(ps[i].1, 0.0))
  }

  function TradePnls(ts: seq<Trade>): (r: seq<real>)
    ensures |r| == |ts| && forall i :: 0 <= i < |ts| ==> r[i] == ts[i].pnlAfterCommission
  {
    seq(|ts|, i requires 0 <= i < |ts| => ts[i].pnlAfterCommission)
  }

  /** `unrealized_pnl`: the positions valued at a price of 0, so a book of
      short holdings never shows a loss. */
  function PortfolioUnrealizedPnl(pf: Portfolio): (r: real)
    ensures |pf.positions| == 0 ==> r == 0.0
    ensures (forall i :: 0 <= i < |pf.positions| ==> ShortAtNonNegativeCost(pf.positions[i].1)) ==> r >= 0.0
  {
    var pnls := PnlsAtZero(pf.positions);
    assert (forall i :: 0 <= i < |pf.positions| ==> ShortAtNonNegativeCost(pf.positions[i].1)) ==> Sum(pnls) >= 0.0 by {
      if forall i :: 0 <= i < |pf.positions| ==> ShortAtNonNegativeCost(pf.positions[i].1) {
        forall i | 0 <= i < |pnls| ensures pnls[i] >= 0.0 {
          var p := pf.positions[i].1;
          assert pnls[i] == p.entryPrice * p.quantity;
        }
        SumNonNegative(pnls);
      }
    }
    Sum(pnls)
  }

  /** A short holding with a non-negative entry price and quantity. */
  predicate ShortAtNonNegativeCost(p: Position)
  {
    p.tradeType != Long && p.entryPrice >= 0.0 && p.quantity >= 0.0
  }

  /** `realized_pnl`: the closed trades' net P&L; none gives 0, and trades
      that all broke even or better give a non-negative total. */
  function PortfolioRealizedPnl(pf: Portfolio): (r: real)
    ensures |pf.closedTrades| == 0 ==> r == 0.0
    ensures (forall i :: 0 <= i < |pf.closedTrades| ==> pf.closedTrades[i].pnlAfterCommission >= 0.0) ==> r >= 0.0
  {
    var pnls := TradePnls(pf.closedTrades);
    assert (forall i :: 0 <= i < |pf.closedTrades| ==> pf.closedTrades[i].pnlAfterCommission >= 0.0) ==> Sum(pnls) >= 0.0 by {
      if forall i :: 0 <= i < |pf.closedTrades| ==> pf.closedTrades[i].pnlAfterCommission >= 0.0 {
        SumNonNegative(pnls);
      }
    }
    Sum(pnls)
  }

  /** `total_equity`: cash plus the unrealised P&L at price 0. */
  function TotalEquity(pf: Portfolio): (r: real)
    ensures r == pf.cash + PortfolioUnrealizedPnl(pf)
  {
    pf.cash + Sum(PnlsAtZero(pf.positions))
  }

  /** Because the positions are valued at a price of 0, equity does not
      follow the market: a long holding counts as minus its cost and a short
      one as plus its cost, whatever the last price. */
  lemma EquityIgnoresMarket(pf: Portfolio, symbol: string, p: Position)
    requires pf.positions == [(symbol, p)] && p.quantity != 0.0
    ensures p.tradeType == Long ==> TotalEquity(pf) == pf.cash - p.entryPrice * p.quantity
    ensures p.tradeType != Long ==> TotalEquity(pf) == pf.cash + p.entryPrice * p.quantity
  {
    assert PnlsAtZero(pf.positions) == [UnrealizedPnl(p, 0.0)];
    assert Sum([UnrealizedPnl(p, 0.0)]) == Sum([]) + UnrealizedPnl(p, 0.0);
  }

  /** Closing a trade adds exactly its net P&L to the realised P&L. */
  lemma RealizedPnlGrows(pf: Portfolio, t: Trade)
    ensures PortfolioRealizedPnl(pf.(closedTrades := pf.closedTrades + [t]))
         == PortfolioRealizedPnl(pf) + t.pnlAfterCommission
  {
    assert TradePnls(pf.closedTrades + [t]) == TradePnls(pf.closedTrades) + [t.pnlAfterCommission];
    SumAppend(TradePnls(pf.closedTrades), [t.pnlAfterCommission]);
    assert Sum([t.pnlAfterCommission]) == Sum([]) + t.pnlAfterCommission;
  }

  // ---------------------------------------------------------------------------
  // Step 2: filled orders update the position
  // ---------------------------------------------------------------------------

  /** What the symbol's position has cost so far, 0 when there is none. */
  function HeldCost(pf: Portfolio, symbol: string): real
  {
    match Lookup(pf.positions, symbol)
    case None => 0.0
    case Some(p) => p.entryPrice * p.quantity
  }

  function HeldQuantity(pf: Portfolio, symbol: string): real
  {
    match Lookup(pf.positions, symbol)
    case None => 0.0
    case Some(p) => p.quantity
  }

  /** A fill folded into a held position: quantities add up, the entry
      price becomes the volume-weighted average (so the booked cost adds
      up), and the first entry time is kept. */
  function FoldFill(pos: Position, f: Fill, ts: real, recordOrder: bool): (r: Result<Position>)
    ensures r.Err? <==> pos.quantity + f.quantity == 0.0
    ensures r.Ok? ==>
      && r.value.quantity == pos.quantity + f.quantity
      && r.value.entryPrice * r.value.quantity == pos.entryPrice * pos.quantity + f.price * f.quantity
      && r.value.entryTime.Some?
      && (pos.entryTime.Some? ==> r.value.entryTime == pos.entryTime)
      && r.value.entryOrders == (if recordOrder then pos.entryOrders + [f.order] else pos.entryOrders)
      && r.value.tradeType == pos.tradeType && r.value.positionId == pos.positionId
  {
    var total := pos.quantity + f.quantity;
    if total == 0.0 then Err(ZeroDivision)
    else
      var entry := (pos.entryPrice * pos.quantity + f.price * f.quantity) / total;
      Ok(pos.(entryPrice := entry, quantity := total,
              entryTime := if pos.entryTime.None? then Some(ts) else pos.entryTime,
              entryOrders := if recordOrder then pos.entryOrders + [f.order] else pos.entryOrders))
  }

  /** With both quantities positive, the averaged entry price lies between
      the held entry price and the fill price. */
  lemma FoldFillBetween(pos: Position, f: Fill, ts: real, recordOrder: bool)
    requires pos.quantity > 0.0 && f.quantity > 0.0
    ensures var r := FoldFill(pos, f, ts, recordOrder);
      r.Ok? && Min(pos.entryPrice, f.price) <= r.value.entryPrice <= Max(pos.entryPrice, f.price)
  {
    var r := FoldFill(pos, f, ts, recordOrder).value;
    WeightedBetween(Min(pos.entryPrice, f.price), Max(pos.entryPrice, f.price),
                    pos.entryPrice, pos.quantity, f.price, f.quantity, r.entryPrice, r.quantity);
  }

  /** A fill opening a position: its quantity at its price, from now. */
  function OpenFromFill(symbol: string, f: Fill, ts: real, newId: string, recordOrder: bool): (p: Position)
    ensures p.quantity == f.quantity && p.entryPrice == f.price && p.entryTime == Some(ts)
    ensures p.tradeType == f.order.tradeType && p.positionId == newId
    ensures p.entryOrders == if recordOrder then [f.order] else []
  {
    Position(newId, symbol, f.order.tradeType, f.price, f.quantity, Some(ts), if recordOrder then [f.order] else [])
  }

  /** The position after a fill, from the one held before (if any). */
  function AfterFill(held: Option<Position>, symbol: string, f: Fill, ts: real, newId: string, recordOrder: bool)
    : (r: Result<Position>)
    ensures r.Err? <==> held.Some? && held.value.quantity + f.quantity == 0.0
    ensures r.Ok? ==>
      && r.value.quantity == (if held.Some? then held.value.quantity else 0.0) + f.quantity
      && r.value.entryPrice * r.value.quantity
         == (if held.Some? then held.value.entryPrice * held.value.quantity else 0.0) + f.price * f.quantity
  {
    match held
    case None => Ok(OpenFromFill(symbol, f, ts, newId, recordOrder))
    case Some(pos) => FoldFill(pos, f, ts, recordOrder)
  }

  /** One fill: pay the maker commission and the notional, and open or grow
      the symbol's position. With `recordOrder` the filled order is also
      appended to the position's entry orders. A zero combined quantity
      divides by zero. */
  function ApplyFill(ex: Executor, pf: Portfolio, symbol: string, f: Fill, ts: real, newId: string, recordOrder: bool)
    : (r: Result<Portfolio>)
    ensures r.Err? <==> HasKey(pf.positions, symbol) && HeldQuantity(pf, symbol) + f.quantity == 0.0
    ensures r.Ok? ==>
      var commission := CalculateCommission(ex, f.quantity, f.price, true);
      && r.value.totalFees == pf.totalFees + commission
      && r.value.cash == pf.cash - commission - f.quantity * f.price
      && r.value.closedTrades == pf.closedTrades
      && Lookup(r.value.positions, symbol) == Some(AfterFill(Lookup(pf.positions, symbol), symbol, f, ts, newId, recordOrder).value)
      && (forall k :: k != symbol ==> Lookup(r.value.positions, k) == Lookup(pf.positions, k))
  {
    var commission := CalculateCommission(ex, f.quantity, f.price, true);
    var p :- AfterFill(Lookup(pf.positions, symbol), symbol, f, ts, newId, recordOrder);
    PutLookups(pf.positions, symbol, p);
    Ok(pf.(totalFees := pf.totalFees + commission, cash := pf.cash - commission - f.quantity * f.price,
           positions := Put(pf.positions, symbol, p)))
  }

  lemma PutLookups(m: seq<(string, Position)>, k: string, v: Position)
    ensures Lookup(Put(m, k, v), k) == Some(v)
    ensures forall k' :: k' != k ==> Lookup(Put(m, k, v), k') == Lookup(m, k')
  {
    PutThenLookup(m, k, v, k);
    forall k' | k' != k
      ensures Lookup(Put(m, k, v), k') == Lookup(m, k')
    {
      PutThenLookup(m, k, v, k');
    }
  }

  /** Money is only moved, never made, by a fill: cash plus fees paid plus
      the cost booked in the position stays the same. */
  lemma FillConservesValue(ex: Executor, pf: Portfolio, symbol: string, f: Fill, ts: real, newId: string, recordOrder: bool)
    requires ApplyFill(ex, pf, symbol, f, ts, newId, recordOrder).Ok?
    ensures var r := ApplyFill(ex, pf, symbol, f, ts, newId, recordOrder).value;
      && HeldQuantity(r, symbol) == HeldQuantity(pf, symbol) + f.quantity
      && HeldCost(r, symbol) == HeldCost(pf, symbol) + f.quantity * f.price
      && r.cash + r.totalFees + HeldCost(r, symbol) == pf.cash + pf.totalFees + HeldCost(pf, symbol)
  {
  }

  /** The fills of one candle in order, each into the same position. */
  function ApplyFills(ex: Executor, pf: Portfolio, symbol: string, fs: seq<Fill>, ts: real, newId: Order -> string,
                      recordOrder: bool): (r: Result<Portfolio>)
    ensures r.Ok? ==> r.value.closedTrades == pf.closedTrades
    ensures r.Ok? ==>
      r.value.cash + r.value.totalFees + HeldCost(r.value, symbol) == pf.cash + pf.totalFees + HeldCost(pf, symbol)
    ensures r.Ok? ==> forall k :: k != symbol ==> Lookup(r.value.positions, k) == Lookup(pf.positions, k)
    ensures r.Ok? && |fs| > 0 ==> HasKey(r.value.positions, symbol)
    decreases |fs|
  {
    if |fs| == 0 then Ok(pf)
    else
      var pf1 :- ApplyFill(ex, pf, symbol, fs[0], ts, newId(fs[0].order), recordOrder);
      FillConservesValue(ex, pf, symbol, fs[0], ts, newId(fs[0].order), recordOrder);
      ApplyFills(ex, pf1, symbol, fs[1..], ts, newId, recordOrder)
  }

  // ---------------------------------------------------------------------------
  // Step 4: closing a position
  // ---------------------------------------------------------------------------

  /** The P&L the trade record carries: long gains as the price rises, short
      as it falls. */
  function ExitPnl(side: TradeType, entry: real, price: real, quantity: real): (r: real)
    ensures side == Long ==> r == (price - entry) * quantity
    ensures side != Long ==> r == (entry - price) * quantity
  {
    if side == Long then (price - entry) * quantity else (entry - price) * quantity
  }

  /** The cash the exit books as written: the position's value at the exit
      price less the commission, for either side. */
  function CloseCreditAsWritten(side: TradeType, entry: real, price: real, quantity: real, commission: real): (r: real)
    ensures r == CloseCredit(Long, entry, price, quantity, commission)
  {
    DiffTimes(price, entry, quantity);
    quantity * price - commission
  }

  /** The cash the exit books once corrected: the capital the entry took
      back, plus the trade's P&L, less the commission. */
  function CloseCredit(side: TradeType, entry: real, price: real, quantity: real, commission: real): (r: real)
    ensures r - quantity * entry == ExitPnl(side, entry, price, quantity) - commission
  {
    quantity * entry + ExitPnl(side, entry, price, quantity) - commission
  }

  /** For a long holding the two credits coincide. */
  lemma CloseCreditAgreesForLongs(entry: real, price: real, quantity: real, commission: real)
    ensures CloseCredit(Long, entry, price, quantity, commission) == CloseCreditAsWritten(Long, entry, price, quantity, commission)
  {
  }

  /** For a short holding the as-written credit settles the opposite of the
      recorded P&L: a short of 1 entered at 100 and closed at 90 records a
      P&L of +10 while its cash round trip loses 10. */
  lemma ShortCreditInverted(entry: real, price: real, quantity: real, commission: real)
    ensures CloseCreditAsWritten(Short, entry, price, quantity, commission) - quantity * entry
         == -ExitPnl(Short, entry, price, quantity) - commission
    ensures ExitPnl(Short, 100.0, 90.0, 1.0) == 10.0
    ensures CloseCreditAsWritten(Short, 100.0, 90.0, 1.0, 0.0) - 1.0 * 100.0 == -10.0
  {
  }

  /** Python's `(pnl / (entry * quantity)) * 100 if entry > 0 else 0`; a
      positive entry with zero quantity divides by zero. */
  function PnlPercent(pnl: real, entry: real, quantity: real): (r: Result<real>)
    ensures r.Err? <==> entry > 0.0 && quantity == 0.0
    ensures r.Ok? && entry > 0.0 ==> r.value * (entry * quantity) == pnl * 100.0
    ensures entry <= 0.0 ==> r == Ok(0.0)
  {
    if entry <= 0.0 then Ok(0.0)
    else if entry * quantity == 0.0 then Err(ZeroDivision)
    else Ok(pnl / (entry * quantity) * 100.0)
  }

  /** Close the symbol's position at `price`: record the trade, pay the
      maker commission, credit the cash and drop the position. */
  function CloseOut(ex: Executor, pf: Portfolio, symbol: string, pos: Position, price: real, ts: real, tradeId: string)
    : (r: Result<(Portfolio, Trade)>)
    requires Lookup(pf.positions, symbol) == Some(pos) && pos.entryTime.Some?
    ensures r.Err? <==> pos.entryPrice > 0.0 && pos.quantity == 0.0
    ensures r.Ok? ==>
      var (pf1, t) := r.value;
      var commission := CalculateCommission(ex, pos.quantity, price, true);
      && t.pnl == ExitPnl(pos.tradeType, pos.entryPrice, price, pos.quantity)
      && t.pnlAfterCommission == t.pnl - commission
      && t.entryPrice == pos.entryPrice && t.exitPrice == price && t.quantity == pos.quantity
      && t.entryTime == pos.entryTime.value && t.exitTime == ts
      && pf1.closedTrades == pf.closedTrades + [t]
      && pf1.totalFees == pf.totalFees + commission
      && !HasKey(pf1.positions, symbol)
      && (forall k :: k != symbol ==> Lookup(pf1.positions, k) == Lookup(pf.positions, k))
      && (forall x :: x in pf1.positions ==> x in pf.positions)
      && pf1.cash == pf.cash + CloseCreditAsWritten(pos.tradeType, pos.entryPrice, price, pos.quantity, commission)
  {
    var commission := CalculateCommission(ex, pos.quantity, price, true);
    var pnl := ExitPnl(pos.tradeType, pos.entryPrice, price, pos.quantity);
    var pct :- PnlPercent(pnl, pos.entryPrice, pos.quantity);
    var t := Trade(tradeId, symbol, pos.entryPrice, price, pos.quantity, pos.entryTime.value, ts,
                   pnl, pnl - commission, pct);
    var credit := CloseCreditAsWritten(pos.tradeType, pos.entryPrice, price, pos.quantity, commission);
    RemoveLookups(pf.positions, symbol);
    Ok((pf.(cash := pf.cash + credit, totalFees := pf.totalFees + commission,
            closedTrades := pf.closedTrades + [t], positions := RemoveKey(pf.positions, symbol)), t))
  }

  /** Closing books the position at its market value: cash, fees paid and
      cost held grow by `(price - entry) * quantity` whatever the side. For a
      long that is the trade's P&L; for a short it is the opposite of it, so
      only a long holding conserves value across its round trip. */
  lemma CloseOutConservesValue(ex: Executor, pf: Portfolio, symbol: string, pos: Position, price: real, ts: real,
                               tradeId: string)
    requires Lookup(pf.positions, symbol) == Some(pos) && pos.entryTime.Some?
    ensures var r := CloseOut(ex, pf, symbol, pos, price, ts, tradeId);
      r.Ok? ==>
      var change := r.value.0.cash + r.value.0.totalFees + HeldCost(r.value.0, symbol)
                    - (pf.cash + pf.totalFees + HeldCost(pf, symbol));
      && change == (price - pos.entryPrice) * pos.quantity
      && (pos.tradeType == Long ==> change == r.value.1.pnl)
      && (pos.tradeType == Short ==> change == -r.value.1.pnl)
  {
    var r := CloseOut(ex, pf, symbol, pos, price, ts, tradeId);
    if r.Ok? {
      var (pf1, t) := r.value;
      assert HeldCost(pf1, symbol) == 0.0;
      assert HeldCost(pf, symbol) == pos.entryPrice * pos.quantity;
      DiffTimes(price, pos.entryPrice, pos.quantity);
    }
  }

  /** `q * p - e * q` is `(p - e) * q`, stated once so the solver does not
      have to rediscover it in a large context. */
  lemma DiffTimes(p: real, e: real, q: real)
    ensures q * p - e * q == (p - e) * q
    ensures (e - p) * q == -((p - e) * q)
  {
  }

  /** With the corrected credit, closing converts the position's cost back
      into cash with the P&L for both sides: the money the round trip adds
      is the recorded P&L less the commission. */
  lemma CorrectedCreditConservesValue(side: TradeType, entry: real, price: real, quantity: real, commission: real)
    ensures CloseCredit(side, entry, price, quantity, commission) - entry * quantity
         == ExitPnl(side, entry, price, quantity) - commission
    ensures side == Short ==>
      CloseCredit(side, entry, price, quantity, commission) - CloseCreditAsWritten(side, entry, price, quantity, commission)
        == 2.0 * ExitPnl(side, entry, price, quantity)
  {
    DiffTimes(price, entry, quantity);
  }

  lemma RemoveLookups(m: seq<(string, Position)>, k: string)
    ensures Lookup(RemoveKey(m, k), k).None?
    ensures forall k' :: k' != k ==> Lookup(RemoveKey(m, k), k') == Lookup(m, k')
  {
    RemoveThenLookup(m, k, k);
    forall k' | k' != k
      ensures Lookup(RemoveKey(m, k), k') == Lookup(m, k')
    {
      RemoveThenLookup(m, k, k');
    }
  }

  // ---------------------------------------------------------------------------
  // Step 3: entry signals and grids
  // ---------------------------------------------------------------------------

  /** The position size of a new grid: 10 % of the initial balance at the
      candle's close. */
  function GridSize(balance: real, close: real): (r: Result<real>)
    ensures r.Err? <==> close == 0.0
    ensures r.Ok? ==> r.value * close == balance * 0.1
  {
    if close == 0.0 then Err(ZeroDivision) else Ok(balance * 0.1 / close)
  }

  function Flag(s: Option<Strategy>): bool
  {
    s.Some? && s.value.entrySignalGenerated
  }

  /** Step 3 for one side: a strategy without a position analyses the whole
      market data; on a signal it lays a grid at the close for 10 % of the
      initial balance. The strategy's position is never assigned, so the
      gate always passes and only the entry latch stops a second grid. */
  function EnterSide(balance: real, strat: Option<Strategy>, md: MarketData, c: Candle, sqrt: real -> real, now: real)
    : (r: Result<(Option<Strategy>, seq<Order>)>)
    ensures strat.None? ==> r == Ok((None, []))
    ensures strat.Some? && !MayEnter(strat.value) ==> r == Ok((strat, []))
    ensures r.Ok? ==> r.value.0.Some? == strat.Some?
    ensures r.Ok? && strat.Some? ==>
      var s1 := r.value.0.value;
      && s1 == strat.value.(entrySignalGenerated := s1.entrySignalGenerated, gridPrices := s1.gridPrices)
      && (strat.value.entrySignalGenerated ==> s1.entrySignalGenerated)
    ensures r.Ok? ==> SideStep(strat, r.value.0)
    ensures r.Ok? && |r.value.1| > 0 ==>
      && strat.Some? && MayEnter(strat.value) && r.value.0.value.entrySignalGenerated
      && GridSize(balance, c.close).Ok? && strat.value.params.gridLevels != 0
      && r.value.1 == GridLadder(strat.value.(entrySignalGenerated := true), c.close,
                                 GridSize(balance, c.close).value / (strat.value.params.gridLevels as real), now)
  {
    if strat.None? || strat.value.position.Some? then Ok((strat, []))
    else
      var (s1, analysed) := Analyze(strat.value, md, sqrt);
      var signals :- analysed;
      if |signals| == 0 then Ok((Some(s1), []))
      else
        var size :- GridSize(balance, c.close);
        var (s2, generated) := GenerateGridOrders(s1, c.close, size, c.close, now);
        var orders :- generated;
        Ok((Some(s2), orders))
  }

  /** Once a strategy has signalled, its side of step 3 adds no order. */
  lemma LatchedSideAddsNothing(balance: real, strat: Option<Strategy>, md: MarketData, c: Candle, sqrt: real -> real, now: real)
    requires Flag(strat)
    ensures EnterSide(balance, strat, md, c, sqrt, now) == Ok((strat, []))
  {
  }

  // ---------------------------------------------------------------------------
  // Step 4: exits
  // ---------------------------------------------------------------------------

  datatype Sides = Sides(long: Option<Strategy>, short: Option<Strategy>)

  /** How one side may change within a step: it stays enabled or disabled,
      its latch never reopens and its adaptive state is not touched. */
  predicate SideStep(a: Option<Strategy>, b: Option<Strategy>)
  {
    && a.Some? == b.Some?
    && (Flag(a) ==> Flag(b))
    && (a.Some? && b.Some? ==> a.value.adaptive == b.value.adaptive)
  }

  predicate SidesStep(a: Sides, b: Sides)
  {
    SideStep(a.long, b.long) && SideStep(a.short, b.short)
  }

  /** Every held position carries its entry time. */
  predicate Timed(pf: Portfolio)
  {
    forall x :: x in pf.positions ==> x.1.entryTime.Some?
  }

  lemma LookupMember<V>(m: seq<(string, V)>, k: string)
    requires Lookup(m, k).Some?
    ensures (k, Lookup(m, k).value) in m
  {
  }

  /** The strategy that watches a position of the given side: the long one
      for a long position, the short one for a short position, none for
      BOTH. */
  function Watcher(sides: Sides, t: TradeType): Option<Strategy>
  {
    if t == Long then sides.long else if t == Short then sides.short else None
  }

  function WithWatcher(sides: Sides, t: TradeType, s: Strategy): (r: Sides)
    requires t == Long || t == Short
    ensures Watcher(r, t) == Some(s)
  {
    if t == Long then sides.(long := Some(s)) else sides.(short := Some(s))
  }

  /** The trade identifier of an exit: `{symbol}_L_{idx}` or `{symbol}_S_{idx}`. */
  function ExitTradeId(symbol: string, t: TradeType, idx: nat): string
  {
    symbol + (if t == Long then "_L_" else "_S_") + NatToString(idx)
  }

  /** Step 4: a held position is offered to its watching strategy together
      with the current equity; an exit signal closes it at the close. */
  function ExitStep(ex: Executor, pf: Portfolio, sides: Sides, symbol: string, c: Candle, idx: nat)
    : (r: Result<(Portfolio, Sides, Option<Trade>)>)
    requires Timed(pf)
    ensures Lookup(pf.positions, symbol).None? ==> r == Ok((pf, sides, None))
    ensures r.Ok? && r.value.2.None? ==> r.value.0 == pf
    ensures r.Ok? ==> Flag(r.value.1.long) == Flag(sides.long) && Flag(r.value.1.short) == Flag(sides.short)
    ensures r.Ok? ==> SidesStep(sides, r.value.1)
    ensures r.Ok? ==> forall x :: x in r.value.0.positions ==> x in pf.positions
    ensures r.Ok? ==> r.value.0.closedTrades == pf.closedTrades + (if r.value.2.Some? then [r.value.2.value] else [])
  {
    match Lookup(pf.positions, symbol)
    case None => Ok((pf, sides, None))
    case Some(pos) =>
      LookupMember(pf.positions, symbol);
      var watcher := Watcher(sides, pos.tradeType);
      if watcher.None? then Ok((pf, sides, None))
      else
        var checked := CheckExitConditionsAsWritten(watcher.value, c.close, TotalEquity(pf), Some(pos));
        var sides1 := WithWatcher(sides, pos.tradeType, checked.0);
        if checked.1.None? then Ok((pf, sides1, None))
        else
          match CloseOut(ex, pf, symbol, pos, c.close, c.timestamp, ExitTradeId(symbol, pos.tradeType, idx))
          case Err(e) => Err(e)
          case Ok(closed) => Ok((closed.0, sides1, Some(closed.1)))
  }

  /** An exit happens only when the watching strategy signals one for the
      held position, and it is that position's close-out at the close. */
  lemma ExitStepCloses(ex: Executor, pf: Portfolio, sides: Sides, symbol: string, c: Candle, idx: nat)
    requires Timed(pf)
    ensures var r := ExitStep(ex, pf, sides, symbol, c, idx);
      r.Ok? && r.value.2.Some? ==>
      var pos := Lookup(pf.positions, symbol).value;
      && Lookup(pf.positions, symbol).Some?
      && Watcher(sides, pos.tradeType).Some?
      && CheckExitConditionsAsWritten(Watcher(sides, pos.tradeType).value, c.close, TotalEquity(pf), Some(pos)).1.Some?
      && CloseOut(ex, pf, symbol, pos, c.close, c.timestamp, ExitTradeId(symbol, pos.tradeType, idx))
         == Ok((r.value.0, r.value.2.value))
  {
  }

  // ---------------------------------------------------------------------------
  // The per-symbol step and the run
  // ---------------------------------------------------------------------------

  datatype EngineState = EngineState(
    portfolio: Portfolio,
    strategies: seq<(string, Sides)>,
    pending: seq<(string, seq<Order>)>,
    allTrades: seq<Trade>)

  function PendingOf(st: EngineState, symbol: string): seq<Order>
  {
    Lookup(st.pending, symbol).GetOr([])
  }

  /** The identifier of a position opened by a fill: `{symbol}_{type}_{idx}`. */
  function EnginePositionId(symbol: string, idx: nat): Order -> string
  {
    (o: Order) => symbol + "_" + TradeTypeValue(o.tradeType) + "_" + NatToString(idx)
  }

  /** What the engine's positions look like at every step: timed, and with
      no entry orders recorded, because the engine never appends any. */
  predicate EngineHeld(pf: Portfolio)
  {
    forall x :: x in pf.positions ==> x.1.entryTime.Some? && x.1.entryOrders == []
  }

  /** Nothing the engine does touches a strategy's adaptive state, which
      stays as the constructor left it. */
  predicate AdaptiveUntouched(s: Option<Strategy>)
  {
    s.Some? ==> s.value.adaptive == AdaptiveIntegration.InitializeAdaptive(None)
  }

  predicate EngineInv(st: EngineState)
  {
    && EngineHeld(st.portfolio)
    && forall i :: 0 <= i < |st.strategies| ==>
         AdaptiveUntouched(st.strategies[i].1.long) && AdaptiveUntouched(st.strategies[i].1.short)
  }

  /** How a step may change the strategies: same symbols in the same order,
      same sides enabled, entry latches never reopened. */
  predicate LatchesKept(a: EngineState, b: EngineState)
  {
    && |a.strategies| == |b.strategies|
    && forall i :: 0 <= i < |a.strategies| ==>
         a.strategies[i].0 == b.strategies[i].0 && SidesStep(a.strategies[i].1, b.strategies[i].1)
  }

  lemma FillsKeepEngineHeld(ex: Executor, pf: Portfolio, symbol: string, fs: seq<Fill>, ts: real, idx: nat)
    requires EngineHeld(pf)
    requires ApplyFills(ex, pf, symbol, fs, ts, EnginePositionId(symbol, idx), false).Ok?
    ensures EngineHeld(ApplyFills(ex, pf, symbol, fs, ts, EnginePositionId(symbol, idx), false).value)
    decreases |fs|
  {
    if |fs| > 0 {
      var pf1 := ApplyFill(ex, pf, symbol, fs[0], ts, EnginePositionId(symbol, idx)(fs[0].order), false).value;
      var held := Lookup(pf.positions, symbol);
      var p := AfterFill(held, symbol, fs[0], ts, EnginePositionId(symbol, idx)(fs[0].order), false).value;
      if held.Some? {
        LookupMember(pf.positions, symbol);
      }
      PutMembers(pf.positions, symbol, p);
      FillsKeepEngineHeld(ex, pf1, symbol, fs[1..], ts, idx);
    }
  }

  /** Step 3 for both sides: long first, then short; the orders of both
      join the symbol's pending list in that order. */
  function EnterBoth(balance: real, sides: Sides, md: MarketData, c: Candle, sqrt: real -> real, now: real)
    : (r: Result<(Sides, seq<Order>)>)
    ensures r.Ok? ==> SidesStep(sides, r.value.0)
  {
    var long1 :- EnterSide(balance, sides.long, md, c, sqrt, now);
    var short1 :- EnterSide(balance, sides.short, md, c, sqrt, now);
    Ok((Sides(long1.0, short1.0), long1.1 + short1.1))
  }

  /** `run_backtest`'s body for one symbol at one candle: fills, position
      updates, entries (long, then short), exits. */
  function SymbolStep(ex: Executor, balance: real, st: EngineState, k: nat, md: MarketData, c: Candle, idx: nat,
                      sqrt: real -> real, now: real): (r: Result<EngineState>)
    requires k < |st.strategies| && EngineInv(st)
    ensures r.Ok? ==> EngineInv(r.value) && LatchesKept(st, r.value)
    ensures r.Ok? ==> |r.value.allTrades| <= |st.allTrades| + 1 && st.allTrades <= r.value.allTrades
    ensures r.Ok? ==> st.portfolio.closedTrades <= r.value.portfolio.closedTrades
  {
    var symbol := st.strategies[k].0;
    var entered :- FillAndEnter(ex, balance, st, k, md, c, idx, sqrt, now);
    var pending1 := Put(st.pending, symbol, entered.2);
    match ExitStep(ex, entered.0, entered.1, symbol, c, idx)
    case Err(e) => Err(e)
    case Ok(exited) =>
      var trades := if exited.2.Some? then st.allTrades + [exited.2.value] else st.allTrades;
      SidesStepTransitive(st.strategies[k].1, entered.1, exited.1);
      ReplaceSidesKeepsInv(st, k, exited.0, exited.1, pending1, trades);
      Ok(EngineState(exited.0, st.strategies[k := (symbol, exited.1)], pending1, trades))
  }

  /** Steps 1 to 3 for one symbol: the fill pass, the position updates and
      the entries; yields the portfolio, the sides and the symbol's new
      pending list (the unfilled orders, then the new ones). */
  function FillAndEnter(ex: Executor, balance: real, st: EngineState, k: nat, md: MarketData, c: Candle, idx: nat,
                        sqrt: real -> real, now: real): (r: Result<(Portfolio, Sides, seq<Order>)>)
    requires k < |st.strategies| && EngineInv(st)
    ensures r.Ok? ==> EngineHeld(r.value.0) && SidesStep(st.strategies[k].1, r.value.1)
    ensures r.Ok? ==> r.value.0.closedTrades == st.portfolio.closedTrades
  {
    var symbol := st.strategies[k].0;
    var passed := FillPass(ex, PendingOf(st, symbol), c);
    var pf1 :- ApplyFills(ex, st.portfolio, symbol, passed.0, c.timestamp, EnginePositionId(symbol, idx), false);
    FillsKeepEngineHeld(ex, st.portfolio, symbol, passed.0, c.timestamp, idx);
    var entered :- EnterBoth(balance, st.strategies[k].1, md, c, sqrt, now);
    Ok((pf1, entered.0, passed.1 + entered.1))
  }

  lemma SidesStepTransitive(a: Sides, b: Sides, c: Sides)
    requires SidesStep(a, b) && SidesStep(b, c)
    ensures SidesStep(a, c)
  {
  }

  lemma ReplaceSidesKeepsInv(st: EngineState, k: nat, pf: Portfolio, sides: Sides,
                             pending: seq<(string, seq<Order>)>, trades: seq<Trade>)
    requires k < |st.strategies| && EngineInv(st) && EngineHeld(pf) && SidesStep(st.strategies[k].1, sides)
    ensures var st1 := EngineState(pf, st.strategies[k := (st.strategies[k].0, sides)], pending, trades);
      EngineInv(st1) && LatchesKept(st, st1)
  {
    var ss := st.strategies[k := (st.strategies[k].0, sides)];
    forall i | 0 <= i < |ss|
      ensures AdaptiveUntouched(ss[i].1.long) && AdaptiveUntouched(ss[i].1.short)
      ensures st.strategies[i].0 == ss[i].0 && SidesStep(st.strategies[i].1, ss[i].1)
    {
      if i != k {
        assert ss[i] == st.strategies[i];
      }
    }
  }

  lemma LatchesKeptTransitive(a: EngineState, b: EngineState, c: EngineState)
    requires LatchesKept(a, b) && LatchesKept(b, c)
    ensures LatchesKept(a, c)
  {
  }

  /** The symbols of one candle, in the order the strategies were
      configured; a symbol without market data is skipped. */
  function ProcessSymbols(ex: Executor, balance: real, st: EngineState, mds: seq<(string, MarketData)>, idx: nat,
                          k: nat, sqrt: real -> real, now: real): (r: Result<EngineState>)
    requires k <= |st.strategies| && EngineInv(st)
    requires forall x :: x in mds ==> idx < |x.1.candles|
    ensures r.Ok? ==> EngineInv(r.value) && LatchesKept(st, r.value)
    ensures r.Ok? ==> st.allTrades <= r.value.allTrades && st.portfolio.closedTrades <= r.value.portfolio.closedTrades
    decreases |st.strategies| - k
  {
    if k == |st.strategies| then Ok(st)
    else
      match Lookup(mds, st.strategies[k].0)
      case None => ProcessSymbols(ex, balance, st, mds, idx, k + 1, sqrt, now)
      case Some(md) =>
        LookupMember(mds, st.strategies[k].0);
        match SymbolStep(ex, balance, st, k, md, md.candles[idx], idx, sqrt, now)
        case Err(e) => Err(e)
        case Ok(st1) =>
          var r := ProcessSymbols(ex, balance, st1, mds, idx, k + 1, sqrt, now);
          if r.Ok? then LatchesKeptTransitive(st, st1, r.value); r else r
  }

  /** The candle loop, from `idx` up to `n`. */
  function RunCandles(ex: Executor, balance: real, st: EngineState, mds: seq<(string, MarketData)>, idx: nat, n: nat,
                      sqrt: real -> real, now: real): (r: Result<EngineState>)
    requires EngineInv(st)
    requires forall x :: x in mds ==> n <= |x.1.candles|
    ensures r.Ok? ==> EngineInv(r.value) && LatchesKept(st, r.value)
    ensures r.Ok? ==> st.allTrades <= r.value.allTrades && st.portfolio.closedTrades <= r.value.portfolio.closedTrades
    decreases n - idx
  {
    if idx >= n then Ok(st)
    else
      match ProcessSymbols(ex, balance, st, mds, idx, 0, sqrt, now)
      case Err(e) => Err(e)
      case Ok(st1) =>
        var r := RunCandles(ex, balance, st1, mds, idx + 1, n, sqrt, now);
        if r.Ok? then LatchesKeptTransitive(st, st1, r.value); r else r
  }

  /** `min(len(data.candles) for data in ...)`: a `ValueError` without any
      market data. */
  function MinCandles(mds: seq<(string, MarketData)>): (r: Result<nat>)
    ensures r.Err? <==> |mds| == 0
    ensures r.Ok? ==> (forall x :: x in mds ==> r.value <= |x.1.candles|)
    ensures r.Ok? ==> exists i :: 0 <= i < |mds| && r.value == |mds[i].1.candles|
  {
    if |mds| == 0 then Err(ValueError("min() arg is an empty sequence"))
    else if |mds| == 1 then Ok(|mds[0].1.candles|)
    else
      var rest := MinCandles(mds[1..]).value;
      assert forall x :: x in mds ==> x == mds[0] || x in mds[1..];
      var i :| 0 <= i < |mds[1..]| && rest == |mds[1..][i].1.candles|;
      assert mds[1..][i] == mds[i + 1];
      Ok(if |mds[0].1.candles| <= rest then |mds[0].1.candles| else rest)
  }

  /** The strategies of one configuration: a fresh long and/or short grid
      strategy on the configured parameters. */
  function SidesOf(c: StrategyConfig): (sides: Sides)
    ensures sides.long.Some? <==> c.enableLong
    ensures sides.short.Some? <==> c.enableShort
    ensures sides.long.Some? ==> sides.long.value == NewStrategy(c.symbol, Long, c.longParams)
    ensures sides.short.Some? ==> sides.short.value == NewStrategy(c.symbol, Short, c.shortParams)
  {
    Sides(if c.enableLong then Some(NewStrategy(c.symbol, Long, c.longParams)) else None,
          if c.enableShort then Some(NewStrategy(c.symbol, Short, c.shortParams)) else None)
  }

  predicate FreshSides(sides: Sides)
  {
    && AdaptiveUntouched(sides.long) && AdaptiveUntouched(sides.short)
    && !Flag(sides.long) && !Flag(sides.short)
  }

  /** The `strategies` dictionary: one entry per symbol, a later
      configuration of the same symbol replacing the earlier one in place. */
  function BuildStrategies(configs: seq<StrategyConfig>): (r: seq<(string, Sides)>)
    ensures DistinctKeys(r)
    ensures forall x :: x in r ==> FreshSides(x.1)
    ensures forall c :: c in configs ==> HasKey(r, c.symbol)
    decreases |configs|
  {
    if |configs| == 0 then []
    else
      var last := configs[|configs| - 1];
      var init := configs[..|configs| - 1];
      var prior := BuildStrategies(init);
      PutKeepsDistinct(prior, last.symbol, SidesOf(last));
      PutMembers(prior, last.symbol, SidesOf(last));
      SidesOfFresh(last);
      assert configs == init + [last];
      PutCoversConfigs(prior, init, last, SidesOf(last));
      Put(prior, last.symbol, SidesOf(last))
  }

  lemma SidesOfFresh(c: StrategyConfig)
    ensures FreshSides(SidesOf(c))
  {
  }

  lemma PutCoversConfigs<V>(prior: seq<(string, V)>, init: seq<StrategyConfig>, last: StrategyConfig, v: V)
    requires forall c :: c in init ==> HasKey(prior, c.symbol)
    ensures forall c :: c in init + [last] ==> HasKey(Put(prior, last.symbol, v), c.symbol)
  {
    forall c | c in init + [last]
      ensures HasKey(Put(prior, last.symbol, v), c.symbol)
    {
      PutKeys(prior, last.symbol, v, c.symbol);
      if c != last {
        assert c in init;
      }
    }
  }

  /** Fresh strategies satisfy the engine's invariant from an empty
      portfolio. */
  lemma FreshStateInv(balance: real, configs: seq<StrategyConfig>, trades: seq<Trade>)
    ensures EngineInv(EngineState(NewPortfolio(balance), BuildStrategies(configs), [], trades))
  {
    var strategies := BuildStrategies(configs);
    forall i | 0 <= i < |strategies|
      ensures AdaptiveUntouched(strategies[i].1.long) && AdaptiveUntouched(strategies[i].1.short)
    {
      assert strategies[i] in strategies;
    }
  }

  /** The engine object: its history and trade list outlive a run. */
  datatype BacktestEngine = BacktestEngine(config: BacktestConfig, history: seq<Portfolio>, allTrades: seq<Trade>)

  function NewEngine(config: BacktestConfig): (e: BacktestEngine)
    ensures e.history == [] && e.allTrades == [] && e.config == config
  {
    BacktestEngine(config, [], [])
  }

  /** The engine after a run of `n` candles: the final portfolio appended
      `n` times (the one object, appended once per candle) and the run's
      trades kept. */
  function RecordRun(eng: BacktestEngine, final: EngineState, n: nat): (eng1: BacktestEngine)
    ensures eng1.config == eng.config && eng1.allTrades == final.allTrades
    ensures eng.history <= eng1.history && |eng1.history| == |eng.history| + n
    ensures forall i :: |eng.history| <= i < |eng1.history| ==> eng1.history[i] == final.portfolio
  {
    eng.(history := eng.history + seq(n, _ => final.portfolio), allTrades := final.allTrades)
  }

  /** `run_backtest`: build the strategies, run the candle loop from an
      empty portfolio on the initial balance, append the portfolio to the
      history once per candle, and compute the metrics over every trade the
      engine has recorded. The history holds the one portfolio object, so
      every entry a run appends is the run's final state. The square root of
      the volatility and the clock of the order timestamps are parameters. */
  function RunBacktest(eng: BacktestEngine, mds: seq<(string, MarketData)>, configs: seq<StrategyConfig>,
                       sqrt: real -> real, now: real): (r: Result<(BacktestEngine, BacktestMetrics)>)
    ensures |mds| == 0 ==> r.Err? && r.error.ValueError?
    ensures r.Ok? ==>
      var (eng1, metrics) := r.value;
      && eng1.config == eng.config
      && eng.history <= eng1.history && |eng1.history| == |eng.history| + MinCandles(mds).value
      && (forall i :: |eng.history| <= i < |eng1.history| ==> eng1.history[i] == eng1.history[|eng1.history| - 1])
      && eng.allTrades <= eng1.allTrades
      && (|eng1.history| > |eng.history| ==>
            CalculateMetrics(eng.config.initialBalance, TotalEquity(eng1.history[|eng1.history| - 1]),
                             eng1.allTrades) == Ok(metrics))
  {
    var balance := eng.config.initialBalance;
    var n :- MinCandles(mds);
    var st0 := EngineState(NewPortfolio(balance), BuildStrategies(configs), [], eng.allTrades);
    FreshStateInv(balance, configs, eng.allTrades);
    match RunCandles(ExecutorOf(eng.config), balance, st0, mds, 0, n, sqrt, now)
    case Err(e) => Err(e)
    case Ok(final) =>
      var eng1 := RecordRun(eng, final, n);
      match CalculateMetrics(balance, TotalEquity(final.portfolio), final.allTrades)
      case Err(e) => Err(e)
      case Ok(metrics) => Ok((eng1, metrics))
  }

  // ---------------------------------------------------------------------------
  // What the engine's invariant implies
  // ---------------------------------------------------------------------------

  /** With the adaptive state untouched, spacing and exit thresholds are the
      static parameters, and with no entry orders on the position the
      stop-loss branch is never taken: the engine exits an open position
      exactly when the take profit is reached. */
  lemma EngineExitsOnTakeProfitOnly(st: EngineState, i: nat, x: (string, Position), price: real, equity: real)
    requires EngineInv(st) && i < |st.strategies| && x in st.portfolio.positions
    ensures var s := st.strategies[i].1.long;
      s.Some? ==>
        && GridSpacing(s.value) == s.value.params.gridSpacingPercent
        && ExitThresholds(s.value) == (s.value.params.takeProfitPercent, s.value.params.maxDrawdownPercent)
        && (CheckExitConditionsAsWritten(s.value, price, equity, Some(x.1)).1.Some?
            <==> HoldsQuantity(x.1) && UnrealizedPnlPercent(x.1, price) >= s.value.params.takeProfitPercent)
    ensures var s := st.strategies[i].1.short;
      s.Some? ==>
        && GridSpacing(s.value) == s.value.params.gridSpacingPercent
        && ExitThresholds(s.value) == (s.value.params.takeProfitPercent, s.value.params.maxDrawdownPercent)
        && (CheckExitConditionsAsWritten(s.value, price, equity, Some(x.1)).1.Some?
            <==> HoldsQuantity(x.1) && UnrealizedPnlPercent(x.1, price) >= s.value.params.takeProfitPercent)
  {
  }

  // ---------------------------------------------------------------------------
  // _calculate_metrics
  // ---------------------------------------------------------------------------

  datatype BacktestMetrics = BacktestMetrics(
    totalReturnPercent: real,
    totalTrades: nat,
    winningTrades: nat,
    losingTrades: nat,
    winRate: real,
    averageWin: real,
    averageLoss: real,
    profitFactor: real,
    sharpeRatio: real,
    sortinoRatio: real,
    calmarRatio: real,
    maxDrawdownPercent: real,
    maxDrawdownDurationDays: int,
    bestTradePercent: real,
    worstTradePercent: real,
    averageTradeDurationDays: real,
    consecutiveWins: int,
    consecutiveLosses: int)

  /** The dataclass defaults: everything zero. */
  function DefaultMetrics(): BacktestMetrics
  {
    BacktestMetrics(0.0, 0, 0, 0, 0.0, 0.0, 0.0, 0.0, 0.0, 0.0, 0.0, 0.0, 0, 0.0, 0.0, 0.0, 0, 0)
  }

  /** The net P&L of the profitable trades, in order. */
  function WinningPnls(ts: seq<Trade>): (r: seq<real>)
    ensures |r| <= |ts|
    ensures forall i :: 0 <= i < |r| ==> r[i] > 0.0
  {
    if |ts| == 0 then []
    else if IsProfitable(ts[0]) then [ts[0].pnlAfterCommission] + WinningPnls(ts[1..])
    else WinningPnls(ts[1..])
  }

  /** The size of the net loss of every other trade (break-even included). */
  function LosingPnls(ts: seq<Trade>): (r: seq<real>)
    ensures |r| + |WinningPnls(ts)| == |ts|
    ensures forall i :: 0 <= i < |r| ==> r[i] >= 0.0
  {
    if |ts| == 0 then []
    else if IsProfitable(ts[0]) then LosingPnls(ts[1..])
    else [Abs(ts[0].pnlAfterCommission)] + LosingPnls(ts[1..])
  }

  function PnlPercents(ts: seq<Trade>): (r: seq<real>)
    ensures |r| == |ts| && forall i :: 0 <= i < |ts| ==> r[i] == ts[i].pnlPercent
  {
    seq(|ts|, i requires 0 <= i < |ts| => ts[i].pnlPercent)
  }

  function Durations(ts: seq<Trade>): (r: seq<real>)
    ensures |r| == |ts| && forall i :: 0 <= i < |ts| ==> r[i] == DurationSeconds(ts[i])
  {
    seq(|ts|, i requires 0 <= i < |ts| => DurationSeconds(ts[i]))
  }

  /** The profit factor as computed: gross profit over gross loss when both
      the average loss and the gross loss are positive, else 0. */
  function ProfitFactor(wins: seq<real>, losses: seq<real>): (r: real)
    requires forall i :: 0 <= i < |losses| ==> losses[i] >= 0.0
    ensures Sum(losses) > 0.0 ==> r * Sum(losses) == Sum(wins)
    ensures Sum(losses) <= 0.0 ==> r == 0.0
  {
    AverageLossPositive(losses);
    if Average(Sum(losses), |losses|) > 0.0 && Sum(losses) > 0.0 then Sum(wins) / Sum(losses) else 0.0
  }

  /** A positive gross loss means a positive average loss. */
  lemma AverageLossPositive(losses: seq<real>)
    ensures Sum(losses) > 0.0 ==> Average(Sum(losses), |losses|) > 0.0
  {
    if Sum(losses) > 0.0 && |losses| == 0 {
      assert false;
    }
  }

  /** `part / whole * 100`. */
  function Percent(part: real, whole: real): (r: real)
    requires whole != 0.0
    ensures r * whole == part * 100.0
  {
    part / whole * 100.0
  }

  /** The metrics of a non-empty trade list. */
  function MetricsOf(initialBalance: real, finalEquity: real, ts: seq<Trade>): (m: BacktestMetrics)
    requires |ts| > 0 && initialBalance != 0.0
    ensures m.totalTrades == |ts| && m.winningTrades == |WinningPnls(ts)|
    ensures m.winningTrades + m.losingTrades == m.totalTrades
    ensures m.winRate == Percent(m.winningTrades as real, |ts| as real)
    ensures m.averageWin == Average(Sum(WinningPnls(ts)), |WinningPnls(ts)|)
    ensures m.averageLoss == Average(Sum(LosingPnls(ts)), |LosingPnls(ts)|)
    ensures m.profitFactor == ProfitFactor(WinningPnls(ts), LosingPnls(ts))
    ensures m.bestTradePercent == MaxOf(PnlPercents(ts)) && m.worstTradePercent == MinOf(PnlPercents(ts))
    ensures m.averageTradeDurationDays * 86400.0 == Average(Sum(Durations(ts)), |ts|)
    ensures m.totalReturnPercent == Percent(finalEquity - initialBalance, initialBalance)
    ensures m.sharpeRatio == 0.0 && m.sortinoRatio == 0.0 && m.calmarRatio == 0.0
    ensures m.maxDrawdownPercent == 0.0 && m.maxDrawdownDurationDays == 0
    ensures m.consecutiveWins == 0 && m.consecutiveLosses == 0
  {
    var wins := WinningPnls(ts);
    var losses := LosingPnls(ts);
    var n := |ts|;
    var winRate := Percent(|wins| as real, n as real);
    var factor := ProfitFactor(wins, losses);
    var ret := Percent(finalEquity - initialBalance, initialBalance);
    var m := BacktestMetrics(
      ret, n, |wins|, n - |wins|, winRate,
      Average(Sum(wins), |wins|), Average(Sum(losses), |losses|), factor,
      0.0, 0.0, 0.0, 0.0, 0,
      MaxOf(PnlPercents(ts)), MinOf(PnlPercents(ts)), Average(Sum(Durations(ts)), n) / 86400.0,
      0, 0);
    m
  }

  /** `_calculate_metrics`: the defaults without trades (the return stays 0
      even if equity moved), otherwise the trade statistics and the return
      on the initial balance, which divides by zero for a zero balance. */
  function CalculateMetrics(initialBalance: real, finalEquity: real, ts: seq<Trade>): (r: Result<BacktestMetrics>)
    ensures |ts| == 0 ==> r == Ok(DefaultMetrics())
    ensures r.Err? <==> |ts| > 0 && initialBalance == 0.0
    ensures r.Ok? && |ts| > 0 ==> r.value == MetricsOf(initialBalance, finalEquity, ts)
  {
    if |ts| == 0 then Ok(DefaultMetrics())
    else if initialBalance == 0.0 then Err(ZeroDivision)
    else Ok(MetricsOf(initialBalance, finalEquity, ts))
  }

  /** Reading the statistics back: the win rate is a percentage, the best
      trade is at least the worst, and a run without a losing trade (by the
      strict-profit rule) reports a profit factor of 0, not infinity. */
  lemma MetricsBounds(initialBalance: real, finalEquity: real, ts: seq<Trade>)
    requires |ts| > 0 && initialBalance != 0.0
    ensures var m := MetricsOf(initialBalance, finalEquity, ts);
      && 0.0 <= m.winRate <= 100.0
      && m.worstTradePercent <= m.bestTradePercent
      && m.averageWin >= 0.0 && m.averageLoss >= 0.0
      && (m.losingTrades == 0 ==> m.winRate == 100.0 && m.profitFactor == 0.0)
  {
    var m := MetricsOf(initialBalance, finalEquity, ts);
    PercentBounds(m.winningTrades as real, |ts| as real);
    var pcts := PnlPercents(ts);
    assert MinOf(pcts) <= pcts[0] <= MaxOf(pcts);
    var wins := WinningPnls(ts);
    var losses := LosingPnls(ts);
    SumNonNegative(wins);
    SumNonNegative(losses);
    AverageNonNegative(Sum(wins), |wins|);
    AverageNonNegative(Sum(losses), |losses|);
  }

  lemma AverageNonNegative(total: real, n: nat)
    requires total >= 0.0
    ensures Average(total, n) >= 0.0
  {
  }

  /** A part of a positive whole is between 0 and 100 percent of it, and
      the whole is 100 percent. */
  lemma PercentBounds(part: real, whole: real)
    requires 0.0 <= part <= whole && whole > 0.0
    ensures 0.0 <= Percent(part, whole) <= 100.0
    ensures part == whole ==> Percent(part, whole) == 100.0
  {
  }
}
