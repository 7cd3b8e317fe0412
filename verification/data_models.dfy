/** The entities of `src/data/data_models.py` that the backtest engine uses:
    candles and market data with their validation, orders with their fill
    rule, positions with volume-weighted re-averaging and P&L, trades and
    signals. */
module DataModels {
  import opened Common
  import opened Enums

  // ---------------------------------------------------------------------------
  // Candle
  // ---------------------------------------------------------------------------

  datatype Candle = Candle(timestamp: real, open: real, high: real, low: real, close: real, volume: real)

  /** The `__post_init__` check: open and close lie inside [low, high]. */
  predicate ValidCandle(c: Candle)
  {
    c.low <= c.close <= c.high && c.low <= c.open <= c.high
  }

  function MakeCandle(timestamp: real, open: real, high: real, low: real, close: real, volume: real): (r: Result<Candle>)
    ensures r.Ok? <==> low <= close <= high && low <= open <= high
    ensures r.Ok? ==> r.value == Candle(timestamp, open, high, low, close, volume) && r.value.low <= r.value.high
  {
    var c := Candle(timestamp, open, high, low, close, volume);
    if ValidCandle(c) then Ok(c) else Err(ValueError("Invalid candle data"))
  }

  // ---------------------------------------------------------------------------
  // MarketData
  // ---------------------------------------------------------------------------

  datatype MarketData = MarketData(symbol: string, candles: seq<Candle>, timeframe: string)

  /** `timestamps == sorted(timestamps)`: non-decreasing over every pair. */
  predicate TimestampsSorted(cs: seq<Candle>)
  {
    forall i, j :: 0 <= i < j < |cs| ==> cs[i].timestamp <= cs[j].timestamp
  }

  /** The neighbour-by-neighbour scan the constructor performs. */
  function FirstUnsortedIndex(cs: seq<Candle>): (r: Option<nat>)
    ensures r.None? <==> forall k :: 0 < k < |cs| ==> cs[k - 1].timestamp <= cs[k].timestamp
    ensures r.Some? ==> 0 < r.value < |cs| && cs[r.value - 1].timestamp > cs[r.value].timestamp
  {
    if |cs| < 2 then None
    else
      var prefix := FirstUnsortedIndex(cs[..|cs| - 1]);
      if prefix.Some? then prefix
      else if cs[|cs| - 2].timestamp > cs[|cs| - 1].timestamp then Some(|cs| - 1)
      else None
  }

  /** Checking neighbours is enough: it decides `TimestampsSorted`. */
  lemma {:induction false} NeighboursDecideSorted(cs: seq<Candle>)
    ensures FirstUnsortedIndex(cs).None? <==> TimestampsSorted(cs)
    decreases |cs|
  {
    if FirstUnsortedIndex(cs).None? {
      forall i, j | 0 <= i < j < |cs| ensures cs[i].timestamp <= cs[j].timestamp {
        ChainSorted(cs, i, j);
      }
    }
  }

  lemma {:induction false} ChainSorted(cs: seq<Candle>, i: nat, j: nat)
    requires forall k :: 0 < k < |cs| ==> cs[k - 1].timestamp <= cs[k].timestamp
    requires i <= j < |cs|
    ensures cs[i].timestamp <= cs[j].timestamp
    decreases j - i
  {
    if i < j {
      ChainSorted(cs, i, j - 1);
      assert cs[j - 1].timestamp <= cs[j].timestamp;
    }
  }

  function MakeMarketData(symbol: string, candles: seq<Candle>, timeframe: string): (r: Result<MarketData>)
    ensures r.Ok? <==> TimestampsSorted(candles)
    ensures r.Ok? ==> r.value.candles == candles && r.value.symbol == symbol
  {
    NeighboursDecideSorted(candles);
    if FirstUnsortedIndex(candles).Some? then Err(ValueError("Candles must be sorted by timestamp (ascending)"))
    else Ok(MarketData(symbol, candles, timeframe))
  }

  function LatestCandle(md: MarketData): (r: Option<Candle>)
    ensures r.None? <==> |md.candles| == 0
    ensures r.Some? ==> r.value == md.candles[|md.candles| - 1]
  {
    if |md.candles| == 0 then None else Some(md.candles[|md.candles| - 1])
  }

  /** `get_last_n_candles`: the slice `candles[-n:]`, which is the whole list
      once `n` reaches its length, and empty for `n <= 0`. */
  function GetLastNCandles(md: MarketData, n: int): (r: seq<Candle>)
    ensures n <= 0 ==> r == []
    ensures n > 0 ==> |r| == if n < |md.candles| then n else |md.candles|
    ensures r == md.candles[|md.candles| - |r|..]
  {
    if n <= 0 then []
    else if n >= |md.candles| then md.candles
    else md.candles[|md.candles| - n..]
  }

  /** The simple returns `(c[i] - c[i-1]) / c[i-1]`; a zero previous close
      is a `ZeroDivisionError`. */
  function SimpleReturns(cs: seq<Candle>): (r: Result<seq<real>>)
    ensures r.Err? <==> exists i :: 0 <= i < |cs| - 1 && cs[i].close == 0.0
    ensures r.Err? ==> r.error == ZeroDivision
    ensures r.Ok? ==> |r.value| == if |cs| < 2 then 0 else |cs| - 1
    ensures r.Ok? ==> forall i :: 0 <= i < |r.value| ==>
      cs[i].close != 0.0 && r.value[i] == Growth(cs[i].close, cs[i + 1].close)
  {
    var xs := Closes(cs);
    assert (exists i :: 0 <= i < |xs| - 1 && xs[i] == 0.0) <==> (exists i :: 0 <= i < |cs| - 1 && cs[i].close == 0.0);
    Returns(xs)
  }

  function Closes(cs: seq<Candle>): (r: seq<real>)
    ensures |r| == |cs| && forall i :: 0 <= i < |cs| ==> r[i] == cs[i].close
  {
    seq(|cs|, i requires 0 <= i < |cs| => cs[i].close)
  }

  /** `calculate_volatility`: 0 with fewer than two candles in the window of
      the last `period + 1`, otherwise `sqrt(variance of returns) * 100`.
      The square root is a parameter. */
  function CalculateVolatility(md: MarketData, period: int, sqrt: real -> real): (r: Result<real>)
    ensures |GetLastNCandles(md, period + 1)| < 2 ==> r == Ok(0.0)
    ensures r.Err? ==> r.error == ZeroDivision
    ensures r.Err? <==>
      var cs := GetLastNCandles(md, period + 1);
      |cs| >= 2 && exists i :: 0 <= i < |cs| - 1 && cs[i].close == 0.0
    ensures r.Ok? && |GetLastNCandles(md, period + 1)| >= 2 ==>
      var rets := SimpleReturns(GetLastNCandles(md, period + 1));
      && rets.Ok? && |rets.value| > 0
      && r.value == sqrt(Variance(rets.value)) * 100.0
  {
    var cs := GetLastNCandles(md, period + 1);
    if |cs| < 2 then Ok(0.0)
    else
      var rets :- SimpleReturns(cs);
      var v := Variance(rets);
      Ok(sqrt(v) * 100.0)
  }

  /** A window whose closes never move has no volatility: every return is
      0, so the variance is 0 and the result is `sqrt(0) * 100`. */
  lemma FlatWindowNoVolatility(md: MarketData, period: int, sqrt: real -> real)
    requires FlatCloses(GetLastNCandles(md, period + 1))
    ensures var r := CalculateVolatility(md, period, sqrt);
      r.Ok? && r.value == sqrt(0.0) * 100.0
  {
    var cs := GetLastNCandles(md, period + 1);
    FlatReturnsZero(cs);
    var r := CalculateVolatility(md, period, sqrt);
    assert r.value == sqrt(Variance(SimpleReturns(cs).value)) * 100.0;
  }

  /** At least two candles, all closing at the same non-zero price. */
  predicate FlatCloses(cs: seq<Candle>)
  {
    |cs| >= 2 && forall i :: 0 <= i < |cs| ==> cs[i].close == cs[0].close != 0.0
  }

  /** Closes that never move (and are non-zero) give returns of 0, whose
      variance is 0. */
  lemma FlatReturnsZero(cs: seq<Candle>)
    requires FlatCloses(cs)
    ensures SimpleReturns(cs).Ok? && |SimpleReturns(cs).value| > 0
    ensures Variance(SimpleReturns(cs).value) == 0.0
    ensures !exists i :: 0 <= i < |cs| - 1 && cs[i].close == 0.0
  {
    var rets := SimpleReturns(cs).value;
    forall i | 0 <= i < |rets| ensures rets[i] == rets[0] {
      NoMoveNoGrowth(cs[i].close, cs[i + 1].close);
      NoMoveNoGrowth(cs[0].close, cs[1].close);
    }
    ConstantVarianceZero(rets);
  }

  lemma NoMoveNoGrowth(prev: real, next: real)
    requires prev != 0.0 && next == prev
    ensures Growth(prev, next) == 0.0
  {
  }

  // ---------------------------------------------------------------------------
  // Order
  // ---------------------------------------------------------------------------

  datatype Order = Order(
    orderId: string,
    symbol: string,
    tradeType: TradeType,
    orderType: OrderType,
    quantity: real,
    price: real,
    status: OrderStatus,
    createdAt: real,
    filledQuantity: real,
    filledPrice: Option<real>,
    commission: real)

  /** A new order as the dataclass defaults build it: PENDING, nothing filled. */
  function NewOrder(orderId: string, symbol: string, tradeType: TradeType, orderType: OrderType,
                    quantity: real, price: real, createdAt: real): (o: Order)
    ensures o.status == Pending && o.filledQuantity == 0.0 && o.filledPrice.None? && o.commission == 0.0
    ensures o.quantity == quantity && o.price == price && o.tradeType == tradeType
  {
    Order(orderId, symbol, tradeType, orderType, quantity, price, Pending, createdAt, 0.0, None, 0.0)
  }

  /** `is_filled`: the filled quantity has reached the order's quantity. */
  predicate OrderIsFilled(o: Order)
  {
    o.filledQuantity >= o.quantity
  }

  /** For a positive quantity, an order is filled exactly when its fill
      percentage has reached 100. */
  lemma FilledMeansFullPercent(o: Order)
    requires o.quantity > 0.0
    ensures OrderIsFilled(o) <==> FillPercent(o) >= 100.0
  {
    var f := FillPercent(o);
    assert f * o.quantity == o.filledQuantity * 100.0;
    if o.filledQuantity >= o.quantity {
      MulLeCancel(100.0, f, o.quantity);
    }
    if f >= 100.0 {
      MulLeCancel(o.quantity, o.filledQuantity, 100.0);
    }
  }

  function FillPercent(o: Order): (r: real)
    ensures o.quantity == 0.0 ==> r == 0.0
    ensures o.quantity != 0.0 ==> r * o.quantity == o.filledQuantity * 100.0
  {
    if o.quantity == 0.0 then 0.0 else (o.filledQuantity / o.quantity) * 100.0
  }

  /** The fields `fill_order` updates before it reaches the status line:
      quantity and commission accumulate, the first fill sets the price and
      later fills re-average it by quantity. */
  function FillFields(o: Order, qty: real, price: real, commission: real): (r: Result<Order>)
    ensures r.Err? <==> o.filledPrice.Some? && o.filledQuantity + qty == 0.0
    ensures r.Ok? ==> r.value.filledQuantity == o.filledQuantity + qty
    ensures r.Ok? ==> r.value.commission == o.commission + commission
    ensures r.Ok? ==> r.value.status == o.status && r.value.quantity == o.quantity && r.value.orderId == o.orderId
    ensures r.Ok? && o.filledPrice.None? ==> r.value.filledPrice == Some(price)
    ensures r.Ok? && o.filledPrice.Some? ==>
      (r.value.filledPrice.Some? &&
       r.value.filledPrice.value * (o.filledQuantity + qty) == o.filledPrice.value * o.filledQuantity + price * qty)
  {
    var total := o.filledQuantity + qty;
    var o1 := o.(filledQuantity := total, commission := o.commission + commission);
    match o.filledPrice
    case None => Ok(o1.(filledPrice := Some(price)))
    case Some(prev) =>
      if total == 0.0 then Err(ZeroDivision)
      else Ok(o1.(filledPrice := Some((prev * (total - qty) + price * qty) / total)))
  }

  /** `fill_order` as written: once the order is complete it assigns
      `OrderStatus.CLOSED`, a member the enumeration does not have. The
      result pairs the state the order is left in with the exception raised,
      if any. */
  function FillOrderAsWritten(o: Order, qty: real, price: real, commission: real): (r: (Order, Option<Error>))
    ensures FillFields(o, qty, price, commission).Err? ==> r.1 == Some(ZeroDivision)
    ensures FillFields(o, qty, price, commission).Ok? ==>
      r.0 == FillFields(o, qty, price, commission).value
      && (r.1.Some? <==> o.filledQuantity + qty >= o.quantity)
  {
    match FillFields(o, qty, price, commission)
    case Err(e) => (o.(filledQuantity := o.filledQuantity + qty, commission := o.commission + commission), Some(e))
    case Ok(o1) =>
      if o1.filledQuantity >= o1.quantity then (o1, Some(AttributeError("CLOSED")))
      else (o1, None)
  }

  /** `fill_order` with the terminal status the enumeration provides. */
  function FillOrder(o: Order, qty: real, price: real, commission: real): (r: Result<Order>)
    ensures r.Ok? <==> FillFields(o, qty, price, commission).Ok?
    ensures r.Ok? ==> r.value.filledQuantity == o.filledQuantity + qty
    ensures r.Ok? ==> (r.value.status == Filled <==> o.filledQuantity + qty >= o.quantity || (o.status == Filled))
    ensures r.Ok? && o.filledQuantity + qty < o.quantity ==> r.value.status == o.status
  {
    var o1 :- FillFields(o, qty, price, commission);
    if o1.filledQuantity >= o1.quantity then Ok(o1.(status := Filled)) else Ok(o1)
  }

  /** Every fill that completes an order makes the source raise, although the
      corrected rule records it as FILLED with the same fill fields. */
  lemma CompletingFillRaises(o: Order, qty: real, price: real, commission: real)
    requires FillFields(o, qty, price, commission).Ok?
    requires o.filledQuantity + qty >= o.quantity
    ensures FillOrderAsWritten(o, qty, price, commission).1 == Some(AttributeError("CLOSED"))
    ensures FillOrder(o, qty, price, commission) == Ok(FillOrderAsWritten(o, qty, price, commission).0.(status := Filled))
  {
  }

  /** A concrete instance: a pending order for 1 unit filled in full. */
  lemma FullFillOfFreshOrderRaises()
    ensures var o := NewOrder("o", "BTCUSDT", Long, Limit, 1.0, 100.0, 0.0);
      FillOrderAsWritten(o, 1.0, 100.0, 0.1).1.Some?
      && FillOrder(o, 1.0, 100.0, 0.1).Ok?
      && FillOrder(o, 1.0, 100.0, 0.1).value.status == Filled
  {
  }

  // ---------------------------------------------------------------------------
  // Position
  // ---------------------------------------------------------------------------

  datatype Position = Position(
    positionId: string,
    symbol: string,
    tradeType: TradeType,
    entryPrice: real,
    quantity: real,
    entryTime: Option<real>,
    entryOrders: seq<Order>)

  /** `add_entry_order`: an order with nothing filled is ignored; otherwise
      the quantity grows, the entry price becomes the volume-weighted average
      (0 if the quantity is no longer positive), the order is appended and
      the entry time is set if it was unset. A filled order without a fill
      price is a `TypeError` (`None` in arithmetic). */
  function AddEntryOrder(p: Position, o: Order): (r: Result<Position>)
    ensures o.filledQuantity == 0.0 ==> r == Ok(p)
    ensures r.Err? <==> o.filledQuantity != 0.0 && o.filledPrice.None?
    ensures r.Ok? && o.filledQuantity != 0.0 ==>
      && r.value.quantity == p.quantity + o.filledQuantity
      && r.value.entryOrders == p.entryOrders + [o]
      && (r.value.quantity > 0.0 ==>
            r.value.entryPrice * r.value.quantity == p.entryPrice * p.quantity + o.filledPrice.value * o.filledQuantity)
      && (r.value.quantity <= 0.0 ==> r.value.entryPrice == 0.0)
      && r.value.entryTime == (if p.entryTime.None? then Some(o.createdAt) else p.entryTime)
    ensures r.Ok? ==> r.value.tradeType == p.tradeType && r.value.symbol == p.symbol
  {
    if o.filledQuantity == 0.0 then Ok(p)
    else if o.filledPrice.None? then Err(TypeError("unsupported operand type(s) for *: 'float' and 'NoneType'"))
    else
      var oldTotal := p.quantity * p.entryPrice;
      var newTotal := o.filledQuantity * o.filledPrice.value;
      var q := p.quantity + o.filledQuantity;
      var e := if q > 0.0 then (oldTotal + newTotal) / q else 0.0;
      Ok(p.(quantity := q, entryPrice := e, entryOrders := p.entryOrders + [o],
            entryTime := if p.entryTime.None? then Some(o.createdAt) else p.entryTime))
  }

  /** An order that contributes to a position: something filled, at a price. */
  predicate FilledEntry(o: Order)
  {
    o.filledQuantity > 0.0 && o.filledPrice.Some?
  }

  function FilledQuantities(os: seq<Order>): (r: seq<real>)
    ensures |r| == |os|
  {
    if |os| == 0 then [] else FilledQuantities(os[..|os| - 1]) + [os[|os| - 1].filledQuantity]
  }

  /** What an order adds to the position's cost: filled quantity times fill
      price (a missing price counts as 0; `FilledEntry` rules it out). */
  function Notional(o: Order): real
  {
    o.filledQuantity * o.filledPrice.GetOr(0.0)
  }

  function FilledNotionals(os: seq<Order>): (r: seq<real>)
    ensures |r| == |os|
  {
    if |os| == 0 then [] else FilledNotionals(os[..|os| - 1]) + [Notional(os[|os| - 1])]
  }

  /** What the position cost: average entry price times quantity. */
  function CostBasis(p: Position): real
  {
    p.entryPrice * p.quantity
  }

  /** The one-order step of `EntryPriceIsVwap`. */
  lemma AddFilledEntry(prior: Position, o: Order)
    requires prior.quantity >= 0.0 && FilledEntry(o)
    ensures AddEntryOrder(prior, o).Ok?
    ensures var next := AddEntryOrder(prior, o).value;
      && next.quantity == prior.quantity + o.filledQuantity
      && CostBasis(next) == CostBasis(prior) + Notional(o)
      && next.entryOrders == prior.entryOrders + [o]
  {
  }

  lemma {:induction false} FilledQuantitiesPositive(os: seq<Order>)
    requires forall i :: 0 <= i < |os| ==> FilledEntry(os[i])
    ensures |os| > 0 ==> Sum(FilledQuantities(os)) > 0.0
    decreases |os|
  {
    if |os| > 1 {
      FilledQuantitiesPositive(os[..|os| - 1]);
    }
  }

  /** Adds the orders one after another, stopping at the first error. */
  function AddEntryOrders(p: Position, os: seq<Order>): Result<Position>
    decreases |os|
  {
    if |os| == 0 then Ok(p)
    else
      var prior :- AddEntryOrders(p, os[..|os| - 1]);
      AddEntryOrder(prior, os[|os| - 1])
  }

  /** Starting from an empty position and adding filled orders, the position
      holds the total filled quantity at the volume-weighted average price of
      exactly the orders in `entry_orders`. */
  lemma LastOrderSums(os: seq<Order>)
    requires |os| > 0
    ensures Sum(FilledQuantities(os)) == Sum(FilledQuantities(os[..|os| - 1])) + os[|os| - 1].filledQuantity
    ensures Sum(FilledNotionals(os)) == Sum(FilledNotionals(os[..|os| - 1])) + Notional(os[|os| - 1])
  {
    var fqs := FilledQuantities(os);
    assert fqs[..|fqs| - 1] == FilledQuantities(os[..|os| - 1]);
    var ns := FilledNotionals(os);
    assert ns[..|ns| - 1] == FilledNotionals(os[..|os| - 1]);
  }

  lemma {:induction false} EntryPriceIsVwap(p: Position, os: seq<Order>)
    requires p.quantity == 0.0 && p.entryOrders == []
    requires forall i :: 0 <= i < |os| ==> FilledEntry(os[i])
    ensures AddEntryOrders(p, os).Ok?
    ensures var r := AddEntryOrders(p, os).value;
      && r.entryOrders == os
      && r.quantity == Sum(FilledQuantities(os))
      && CostBasis(r) == Sum(FilledNotionals(os))
    decreases |os|
  {
    if |os| == 0 {
      return;
    }
    var init := os[..|os| - 1];
    forall i | 0 <= i < |init| ensures FilledEntry(init[i]) {
      assert init[i] == os[i];
    }
    EntryPriceIsVwap(p, init);
    FilledQuantitiesPositive(init);
    var prior := AddEntryOrders(p, init).value;
    var o := os[|os| - 1];
    AddFilledEntry(prior, o);
    assert AddEntryOrders(p, os) == AddEntryOrder(prior, o);
    assert init + [o] == os;
    LastOrderSums(os);
  }

  /** `calculate_unrealized_pnl`: 0 for an empty position; any direction
      other than LONG is priced as a short. */
  function UnrealizedPnl(p: Position, price: real): (r: real)
    ensures p.quantity == 0.0 ==> r == 0.0
    ensures p.tradeType == Long ==> r == (price - p.entryPrice) * p.quantity
    ensures p.tradeType != Long ==> r == (p.entryPrice - price) * p.quantity
  {
    if p.quantity == 0.0 then 0.0
    else if p.tradeType == Long then (price - p.entryPrice) * p.quantity
    else (p.entryPrice - price) * p.quantity
  }

  /** A long and a short holding of the same size and entry mirror each other. */
  lemma LongShortMirror(p: Position, price: real)
    ensures UnrealizedPnl(p.(tradeType := Long), price) == -UnrealizedPnl(p.(tradeType := Short), price)
  {
  }

  /** `calculate_unrealized_pnl_percent`: 0 for a zero entry price. */
  function UnrealizedPnlPercent(p: Position, price: real): (r: real)
    ensures p.entryPrice == 0.0 ==> r == 0.0
    ensures p.entryPrice != 0.0 && p.tradeType == Long ==> r * p.entryPrice == (price - p.entryPrice) * 100.0
    ensures p.entryPrice != 0.0 && p.tradeType != Long ==> r * p.entryPrice == (p.entryPrice - price) * 100.0
  {
    if p.entryPrice == 0.0 then 0.0
    else if p.tradeType == Long then ((price - p.entryPrice) / p.entryPrice) * 100.0
    else ((p.entryPrice - price) / p.entryPrice) * 100.0
  }

  /** The percent and the amount agree: the amount is the percent of the
      position's cost `entry * quantity`. */
  lemma PnlPercentOfCost(p: Position, price: real)
    requires p.entryPrice != 0.0
    ensures UnrealizedPnl(p, price) * 100.0 == UnrealizedPnlPercent(p, price) * p.entryPrice * p.quantity
  {
    var r := UnrealizedPnlPercent(p, price);
    assert r * p.entryPrice * p.quantity == (r * p.entryPrice) * p.quantity;
  }

  /** `is_open`: the position still holds a positive quantity. */
  predicate HoldsQuantity(p: Position)
  {
    p.quantity > 0.0
  }

  /** A position is open exactly while it holds a positive quantity; an
      emptied one carries no unrealised P&L at any price. */
  lemma OpenMeansHolding(p: Position, price: real)
    ensures HoldsQuantity(p) <==> 0.0 < p.quantity
    ensures p.quantity == 0.0 ==> !HoldsQuantity(p) && UnrealizedPnl(p, price) == 0.0
  {
  }

  // ---------------------------------------------------------------------------
  // Trade and Signal
  // ---------------------------------------------------------------------------

  datatype Trade = Trade(
    tradeId: string,
    symbol: string,
    entryPrice: real,
    exitPrice: real,
    quantity: real,
    entryTime: real,
    exitTime: real,
    pnl: real,
    pnlAfterCommission: real,
    pnlPercent: real)

  function DurationSeconds(t: Trade): (r: real)
    ensures t.entryTime + r == t.exitTime
  {
    t.exitTime - t.entryTime
  }

  /** `is_profitable`: profit after commission, so a break-even trade is not
      profitable. */
  predicate IsProfitable(t: Trade): (r: bool)
    ensures r <==> 0.0 < t.pnlAfterCommission
    ensures t.pnlAfterCommission == 0.0 ==> !r
  {
    t.pnlAfterCommission > 0.0
  }

  datatype Signal = Signal(signalType: SignalType, symbol: string, strength: real, rationale: string)

  /** The `Signal` constructor rejects a strength outside [0, 1]. */
  function MakeSignal(signalType: SignalType, symbol: string, strength: real, rationale: string): (r: Result<Signal>)
    ensures r.Ok? <==> 0.0 <= strength <= 1.0
    ensures r.Ok? ==> r.value.signalType == signalType && r.value.strength == strength
  {
    if 0.0 <= strength <= 1.0 then Ok(Signal(signalType, symbol, strength, rationale))
    else Err(ValueError("Signal strength must be between 0 and 1"))
  }
}
