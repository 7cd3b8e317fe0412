/** `src/core/order_executor.py`: a standalone order record with validation,
    fills and the terminal transitions CANCELLED / REJECTED / EXPIRED, and the
    `OrderExecutor` registry that keeps open orders by id and archives closed
    ones. Order ids come from `uuid4` in the source and are parameters here. */
module OrderLifecycle {
  import opened Common
  import opened Enums

  datatype Order = Order(
    orderId: string,
    symbol: string,
    side: OrderSide,
    orderType: OrderType,
    quantity: real,
    price: real,
    status: OrderStatus,
    filledQuantity: real,
    averageFillPrice: real,
    commission: real,
    positionId: Option<string>,
    rejectionReason: Option<string>)

  /** `Order.__post_init__`: the quantity must be positive and the price
      non-negative (the side check cannot fail on a two-valued type). */
  function MakeOrder(orderId: string, symbol: string, side: OrderSide, orderType: OrderType,
                     quantity: real, price: real, positionId: Option<string>): (r: Result<Order>)
    ensures r.Ok? <==> quantity > 0.0 && price >= 0.0
    ensures r.Ok? ==>
      (r.value.status == Pending && r.value.filledQuantity == 0.0
       && r.value.quantity == quantity && r.value.price == price && r.value.orderId == orderId)
    ensures quantity <= 0.0 ==> r == Err(ValueError("Order quantity must be positive"))
  {
    if quantity <= 0.0 then Err(ValueError("Order quantity must be positive"))
    else if price < 0.0 then Err(ValueError("Order price must be non-negative"))
    else Ok(Order(orderId, symbol, side, orderType, quantity, price, Pending, 0.0, 0.0, 0.0, positionId, None))
  }

  predicate IsOpenStatus(s: OrderStatus)
  {
    s == Pending || s == Open || s == PartiallyFilled
  }

  predicate IsClosedStatus(s: OrderStatus)
  {
    s == Filled || s == Cancelled || s == Rejected || s == Expired
  }

  /** The two status predicates split the seven statuses between them. */
  lemma OpenClosedPartition(s: OrderStatus)
    ensures IsOpenStatus(s) != IsClosedStatus(s)
  {
  }

  /** `is_open`: every order is exactly one of open and closed. */
  predicate IsOpen(o: Order): (r: bool)
    ensures r <==> !IsClosedStatus(o.status)
  {
    IsOpenStatus(o.status)
  }

  /** `is_closed`: the complement of `is_open`. */
  predicate IsClosed(o: Order): (r: bool)
    ensures r <==> !IsOpen(o)
  {
    IsClosedStatus(o.status)
  }

  /** The bound every order keeps: nothing negative filled, nothing overfilled. */
  predicate FillBounds(o: Order)
  {
    0.0 <= o.filledQuantity <= o.quantity
  }

  function RemainingQuantity(o: Order): (r: real)
    ensures FillBounds(o) ==> 0.0 <= r <= o.quantity
    ensures r + o.filledQuantity == o.quantity
  {
    o.quantity - o.filledQuantity
  }

  function FillPercentage(o: Order): (r: real)
    ensures o.quantity == 0.0 ==> r == 0.0
    ensures o.quantity > 0.0 && FillBounds(o) ==> 0.0 <= r <= 100.0
  {
    if o.quantity == 0.0 then 0.0 else (o.filledQuantity / o.quantity) * 100.0
  }

  /** `update_fill`: negative fills and overfills raise; otherwise the
      average fill price is re-weighted (or set by the first fill),
      commission accumulates, and the status becomes FILLED when complete,
      PARTIALLY_FILLED when something is filled, and is left alone when
      nothing is. The current status is not consulted. */
  function UpdateFill(o: Order, qty: real, price: real, commission: real): (r: Result<Order>)
    ensures r.Ok? <==> qty >= 0.0 && o.filledQuantity + qty <= o.quantity
    ensures r.Ok? ==> r.value.filledQuantity == o.filledQuantity + qty
    ensures r.Ok? ==> r.value.commission == o.commission + commission
    ensures r.Ok? && o.filledQuantity > 0.0 ==>
      r.value.averageFillPrice * r.value.filledQuantity == o.averageFillPrice * o.filledQuantity + price * qty
    ensures r.Ok? && o.filledQuantity <= 0.0 ==> r.value.averageFillPrice == price
    ensures r.Ok? && r.value.filledQuantity >= o.quantity ==> r.value.status == Filled
    ensures r.Ok? && 0.0 < r.value.filledQuantity < o.quantity ==> r.value.status == PartiallyFilled
    ensures r.Ok? && r.value.filledQuantity <= 0.0 && r.value.filledQuantity < o.quantity ==> r.value.status == o.status
  {
    if qty < 0.0 then Err(ValueError("Filled quantity cannot be negative"))
    else
      var total := o.filledQuantity + qty;
      if total > o.quantity then Err(ValueError("Total filled exceeds order quantity"))
      else
        var avg := if o.filledQuantity > 0.0 then (o.averageFillPrice * o.filledQuantity + price * qty) / total else price;
        var status := if total >= o.quantity then Filled else if total > 0.0 then PartiallyFilled else o.status;
        Ok(o.(averageFillPrice := avg, filledQuantity := total, commission := o.commission + commission, status := status))
  }

  /** A successful fill keeps `0 <= filled <= quantity`. */
  lemma UpdateFillKeepsBounds(o: Order, qty: real, price: real, commission: real)
    requires FillBounds(o)
    requires UpdateFill(o, qty, price, commission).Ok?
    ensures FillBounds(UpdateFill(o, qty, price, commission).value)
    ensures RemainingQuantity(UpdateFill(o, qty, price, commission).value) >= 0.0
  {
  }

  /** The weighted average of two fills at positive quantities lies between
      the two prices. */
  lemma AverageFillBetween(o: Order, qty: real, price: real)
    requires o.filledQuantity > 0.0 && qty >= 0.0
    requires UpdateFill(o, qty, price, 0.0).Ok?
    ensures var a := UpdateFill(o, qty, price, 0.0).value.averageFillPrice;
      Min(o.averageFillPrice, price) <= a <= Max(o.averageFillPrice, price)
  {
    var r := UpdateFill(o, qty, price, 0.0).value;
    var t := r.filledQuantity;
    var a, q := o.averageFillPrice, o.filledQuantity;
    WeightedBetween(Min(a, price), Max(a, price), a, q, price, qty, r.averageFillPrice, t);
  }

  /** `update_fill` ignores the status, so a cancelled order that receives a
      fill comes back as PARTIALLY_FILLED: CANCELLED is terminal only for
      `cancel`, `reject` and `expire`. */
  lemma FillReopensCancelledOrder()
    ensures var o := Order("o", "BTCUSDT", Buy, Limit, 2.0, 10.0, Cancelled, 0.0, 0.0, 0.0, None, None);
      UpdateFill(o, 1.0, 10.0, 0.0).Ok? && UpdateFill(o, 1.0, 10.0, 0.0).value.status == PartiallyFilled
  {
  }

  /** `cancel`: raises on a closed order, otherwise CANCELLED. */
  function Cancel(o: Order): (r: Result<Order>)
    ensures r.Ok? <==> IsOpen(o)
    ensures r.Ok? ==> r.value == o.(status := Cancelled) && IsClosed(r.value)
  {
    if IsClosed(o) then Err(ValueError("Cannot cancel closed order")) else Ok(o.(status := Cancelled))
  }

  /** `reject`: raises on a closed order, otherwise REJECTED; a non-empty
      reason is recorded. */
  function Reject(o: Order, reason: string): (r: Result<Order>)
    ensures r.Ok? <==> IsOpen(o)
    ensures r.Ok? ==> r.value.status == Rejected && IsClosed(r.value)
    ensures r.Ok? ==> r.value.rejectionReason == if reason == "" then o.rejectionReason else Some(reason)
    ensures r.Ok? ==> r.value.filledQuantity == o.filledQuantity && r.value.commission == o.commission
  {
    if IsClosed(o) then Err(ValueError("Cannot reject closed order"))
    else
      var o1 := o.(status := Rejected);
      Ok(if reason != "" then o1.(rejectionReason := Some(reason)) else o1)
  }

  /** `expire`: raises on a closed order, otherwise EXPIRED. */
  function Expire(o: Order): (r: Result<Order>)
    ensures r.Ok? <==> IsOpen(o)
    ensures r.Ok? ==> r.value == o.(status := Expired) && IsClosed(r.value)
  {
    if IsClosed(o) then Err(ValueError("Cannot expire closed order")) else Ok(o.(status := Expired))
  }

  /** Once closed, none of the three terminal transitions applies again. */
  lemma TerminalTransitionsAreFinal(o: Order, reason: string)
    requires IsClosed(o)
    ensures Cancel(o).Err? && Reject(o, reason).Err? && Expire(o).Err?
  {
  }

  // ---------------------------------------------------------------------------
  // OrderExecutor registry
  // ---------------------------------------------------------------------------

  datatype Executor = Executor(orders: seq<(string, Order)>, history: seq<Order>)

  function EmptyExecutor(): (ex: Executor)
    ensures |ex.orders| == 0 && |ex.history| == 0
  {
    Executor([], [])
  }

  function Values(m: seq<(string, Order)>): (r: seq<Order>)
    ensures |r| == |m|
    ensures forall i :: 0 <= i < |m| ==> r[i] == m[i].1
  {
    seq(|m|, i requires 0 <= i < |m| => m[i].1)
  }

  /** `create_order`: validate, then register the order under its id. */
  function CreateOrder(ex: Executor, orderId: string, symbol: string, side: OrderSide, orderType: OrderType,
                       quantity: real, price: real, positionId: Option<string>): (r: Result<(Executor, Order)>)
    ensures r.Ok? <==> quantity > 0.0 && price >= 0.0
    ensures r.Ok? ==> Lookup(r.value.0.orders, orderId) == Some(r.value.1) && r.value.0.history == ex.history
  {
    var o :- MakeOrder(orderId, symbol, side, orderType, quantity, price, positionId);
    PutThenLookup(ex.orders, orderId, o, orderId);
    Ok((ex.(orders := Put(ex.orders, orderId, o)), o))
  }

  function GetOrder(ex: Executor, orderId: string): (r: Option<Order>)
    ensures r.Some? <==> HasKey(ex.orders, orderId)
  {
    Lookup(ex.orders, orderId)
  }

  function IsOpenFn(): Order -> bool { (o: Order) => IsOpen(o) }

  function SymbolIs(s: string): Order -> bool { (o: Order) => o.symbol == s }

  /** `get_open_orders`: the open orders in registry order, narrowed to one
      symbol when a non-empty symbol is given. */
  function GetOpenOrders(ex: Executor, symbol: Option<string>): (r: seq<Order>)
    ensures forall o :: o in r <==>
      o in Values(ex.orders) && IsOpen(o) && (symbol.Some? && symbol.value != "" ==> o.symbol == symbol.value)
  {
    var open := Filter(Values(ex.orders), IsOpenFn());
    if symbol.Some? && symbol.value != "" then Filter(open, SymbolIs(symbol.value)) else open
  }

  /** `get_position_orders`: every registered order of the position. */
  function GetPositionOrders(ex: Executor, positionId: string): (r: seq<Order>)
    ensures forall o :: o in r <==> o in Values(ex.orders) && o.positionId == Some(positionId)
  {
    Filter(Values(ex.orders), (o: Order) => o.positionId == Some(positionId))
  }

  /** `cancel_order`: False for an unknown id or a closed order (the
      `ValueError` of `cancel` is caught), True after cancelling. */
  function CancelOrder(ex: Executor, orderId: string): (r: (Executor, bool))
    ensures r.1 <==> HasKey(ex.orders, orderId) && IsOpen(Lookup(ex.orders, orderId).value)
    ensures !r.1 ==> r.0 == ex
    ensures r.1 ==> Lookup(r.0.orders, orderId) == Some(Lookup(ex.orders, orderId).value.(status := Cancelled))
    ensures r.0.history == ex.history && |r.0.orders| == |ex.orders|
    ensures forall k :: k != orderId ==> Lookup(r.0.orders, k) == Lookup(ex.orders, k)
  {
    match Lookup(ex.orders, orderId)
    case None => (ex, false)
    case Some(o) =>
      match Cancel(o)
      case Err(_) => (ex, false)
      case Ok(c) =>
        PutThenLookup(ex.orders, orderId, c, orderId);
        assert forall k :: k != orderId ==> Lookup(Put(ex.orders, orderId, c), k) == Lookup(ex.orders, k) by {
          forall k | k != orderId { PutThenLookup(ex.orders, orderId, c, k); }
        }
        (ex.(orders := Put(ex.orders, orderId, c)), true)
  }

  /** `close_order`: move the order from the registry to the end of the
      history; an unknown id changes nothing. */
  function CloseOrder(ex: Executor, orderId: string): (r: Executor)
    ensures !HasKey(r.orders, orderId)
    ensures HasKey(ex.orders, orderId) ==> r.history == ex.history + [Lookup(ex.orders, orderId).value]
    ensures !HasKey(ex.orders, orderId) ==> r == ex
    ensures forall k :: k != orderId ==> Lookup(r.orders, k) == Lookup(ex.orders, k)
  {
    RemoveThenLookup(ex.orders, orderId, orderId);
    match Lookup(ex.orders, orderId)
    case None =>
      RemoveKeepsNothing(ex.orders, orderId);
      ex
    case Some(o) =>
      assert forall k :: k != orderId ==> Lookup(RemoveKey(ex.orders, orderId), k) == Lookup(ex.orders, k) by {
        forall k | k != orderId { RemoveThenLookup(ex.orders, orderId, k); }
      }
      Executor(RemoveKey(ex.orders, orderId), ex.history + [o])
  }

  lemma {:induction false} RemoveKeepsNothing(m: seq<(string, Order)>, k: string)
    requires !HasKey(m, k)
    ensures RemoveKey(m, k) == m
    decreases |m|
  {
    if |m| > 0 {
      assert !HasKey(m[1..], k) by {
        forall i | 0 <= i < |m[1..]| ensures m[1..][i].0 != k {
          assert m[1..][i] == m[i + 1];
        }
      }
      RemoveKeepsNothing(m[1..], k);
      assert m == [m[0]] + m[1..];
    }
  }

  /** Archiving moves an order rather than copying or losing it: with
      distinct ids, live plus archived orders keep their total. */
  lemma CloseOrderKeepsTotal(ex: Executor, orderId: string)
    requires DistinctKeys(ex.orders)
    ensures var r := CloseOrder(ex, orderId);
      |r.orders| + |r.history| == |ex.orders| + |ex.history| && DistinctKeys(r.orders)
  {
    RemoveKeepsDistinct(ex.orders, orderId);
  }

  datatype OrderStats = OrderStats(
    totalOrders: nat,
    openOrders: nat,
    filledOrders: nat,
    cancelledOrders: nat,
    rejectedOrders: nat,
    totalCommission: real,
    avgCommission: real)

  function Commissions(os: seq<Order>): (r: seq<real>)
    ensures |r| == |os|
    ensures forall i :: 0 <= i < |os| ==> r[i] == os[i].commission
  {
    seq(|os|, i requires 0 <= i < |os| => os[i].commission)
  }

  function StatusIs(s: OrderStatus): Order -> bool { (o: Order) => o.status == s }

  predicate Narrowed(symbol: Option<string>) { symbol.Some? && symbol.value != "" }

  /** The live orders `get_order_stats` looks at. */
  function LiveOrders(ex: Executor, symbol: Option<string>): seq<Order>
  {
    if Narrowed(symbol) then Filter(Values(ex.orders), SymbolIs(symbol.value)) else Values(ex.orders)
  }

  /** Live plus archived orders, narrowed to the symbol when one is given;
      every live order it looked at is among them. */
  function AllOrders(ex: Executor, symbol: Option<string>): (r: seq<Order>)
    ensures |LiveOrders(ex, symbol)| <= |r|
  {
    var live := LiveOrders(ex, symbol);
    if Narrowed(symbol) then
      FilterAppendLength(live, ex.history, SymbolIs(symbol.value));
      FilterIdempotent(Values(ex.orders), SymbolIs(symbol.value));
      Filter(live + ex.history, SymbolIs(symbol.value))
    else
      live + ex.history
  }

  /** The statistics record over the live orders and all orders. */
  function StatsOf(live: seq<Order>, all: seq<Order>, total: real): (r: OrderStats)
    ensures r.totalOrders == |all| && r.openOrders <= |live| && r.totalCommission == total
    ensures r.openOrders == Count(live, IsOpenFn())
    ensures r.filledOrders == Count(all, StatusIs(Filled))
    ensures r.cancelledOrders == Count(all, StatusIs(Cancelled))
    ensures r.rejectedOrders == Count(all, StatusIs(Rejected))
    ensures r.filledOrders + r.cancelledOrders + r.rejectedOrders <= r.totalOrders
    ensures r.avgCommission == Average(total, |all|)
  {
    CountStatusesBound(all);
    CountIsFilterLength(live, IsOpenFn());
    CountIsFilterLength(all, StatusIs(Filled));
    CountIsFilterLength(all, StatusIs(Cancelled));
    CountIsFilterLength(all, StatusIs(Rejected));
    OrderStats(
      |all|,
      |Filter(live, IsOpenFn())|,
      |Filter(all, StatusIs(Filled))|,
      |Filter(all, StatusIs(Cancelled))|,
      |Filter(all, StatusIs(Rejected))|,
      total,
      Average(total, |all|))
  }

  /** `get_order_stats`: counts over live plus archived orders (narrowed to
      the symbol when one is given) and the mean commission, 0 for none. */
  function GetOrderStats(ex: Executor, symbol: Option<string>): (r: OrderStats)
    ensures r.totalOrders == |AllOrders(ex, symbol)|
    ensures r.openOrders <= |LiveOrders(ex, symbol)| <= r.totalOrders
    ensures r.openOrders == Count(LiveOrders(ex, symbol), IsOpenFn())
    ensures r.filledOrders == Count(AllOrders(ex, symbol), StatusIs(Filled))
    ensures r.cancelledOrders == Count(AllOrders(ex, symbol), StatusIs(Cancelled))
    ensures r.rejectedOrders == Count(AllOrders(ex, symbol), StatusIs(Rejected))
    ensures r.filledOrders + r.cancelledOrders + r.rejectedOrders <= r.totalOrders
    ensures r.totalCommission == Sum(Commissions(AllOrders(ex, symbol)))
    ensures r.avgCommission == Average(r.totalCommission, r.totalOrders)
  {
    var all := AllOrders(ex, symbol);
    StatsOf(LiveOrders(ex, symbol), all, Sum(Commissions(all)))
  }

  lemma {:induction false} CountStatusesBound(os: seq<Order>)
    ensures |Filter(os, StatusIs(Filled))| + |Filter(os, StatusIs(Cancelled))| + |Filter(os, StatusIs(Rejected))| <= |os|
    decreases |os|
  {
    if |os| > 0 {
      CountStatusesBound(os[1..]);
    }
  }

  lemma {:induction false} FilterAppendLength(a: seq<Order>, b: seq<Order>, p: Order -> bool)
    ensures |Filter(a + b, p)| == |Filter(a, p)| + |Filter(b, p)|
    decreases |a|
  {
    if |a| > 0 {
      assert (a + b)[1..] == a[1..] + b;
      FilterAppendLength(a[1..], b, p);
    } else {
      assert a + b == b;
    }
  }

  lemma {:induction false} FilterIdempotent(s: seq<Order>, p: Order -> bool)
    ensures Filter(Filter(s, p), p) == Filter(s, p)
    decreases |s|
  {
    if |s| > 0 {
      FilterIdempotent(s[1..], p);
    }
  }
}
