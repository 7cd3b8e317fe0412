/** The standalone position record of `src/core/position.py`: a state
    machine OPEN -> CLOSED | LIQUIDATED with fee-aware P&L, high/low tracking
    and the aggregate `PositionMetrics`. Wall-clock defaults are parameters. */
module PositionLifecycle {
  import opened Common
  import opened Enums

  datatype Position = Position(
    positionId: string,
    symbol: string,
    side: OrderSide,
    entryPrice: real,
    quantity: real,
    openedAt: real,
    status: PositionStatus,
    exitPrice: Option<real>,
    closedAt: Option<real>,
    entryFee: real,
    exitFee: real,
    entryOrderIds: seq<string>,
    exitOrderIds: seq<string>,
    takeProfit: Option<real>,
    stopLoss: Option<real>,
    maxPrice: real,
    minPrice: real)

  /** Construction runs `__post_init__`: quantity first, then entry price, and
      the high/low trackers start at the entry price whatever was passed. */
  function NewPosition(positionId: string, symbol: string, side: OrderSide, entryPrice: real,
                       quantity: real, openedAt: real, entryFee: real): (r: Result<Position>)
    ensures r.Ok? <==> quantity > 0.0 && entryPrice > 0.0
    ensures quantity <= 0.0 ==> r == Err(ValueError("Position quantity must be positive"))
    ensures r.Ok? ==>
      && r.value.status == PositionOpen
      && r.value.maxPrice == entryPrice == r.value.minPrice
      && r.value.exitPrice.None? && r.value.exitFee == 0.0
      && r.value.quantity == quantity && r.value.entryFee == entryFee
  {
    if quantity <= 0.0 then Err(ValueError("Position quantity must be positive"))
    else if entryPrice <= 0.0 then Err(ValueError("Entry price must be positive"))
    else Ok(Position(positionId, symbol, side, entryPrice, quantity, openedAt, PositionOpen,
                     None, None, entryFee, 0.0, [], [], None, None, entryPrice, entryPrice))
  }

  /** The cost of entering, fees included: never below the fee for a
      non-negative price and quantity, and just the fee for nothing bought. */
  function EntryCost(p: Position): (r: real)
    ensures p.entryPrice >= 0.0 && p.quantity >= 0.0 ==> r >= p.entryFee
    ensures p.quantity == 0.0 || p.entryPrice == 0.0 ==> r == p.entryFee
  {
    p.entryPrice * p.quantity + p.entryFee
  }

  /** `is_open`: the OPEN status. */
  predicate IsOpen(p: Position) { p.status == PositionOpen }

  /** Only the OPEN status is open; a closed, liquidated or pending position
      never is. */
  lemma OpenStatusOnly(p: Position)
    ensures IsOpen(p) <==> p.status == PositionOpen
    ensures IsOpen(p) ==> !IsClosed(p) && p.status != PositionPending
  {
  }

  /** `is_closed`: closed or liquidated, which is neither open nor pending. */
  predicate IsClosed(p: Position): (r: bool)
    ensures r <==> !IsOpen(p) && p.status != PositionPending
  {
    p.status == PositionClosed || p.status == Liquidated
  }

  /** A pending position is neither open nor closed; no status is both. */
  lemma OpenClosedExclusive(p: Position)
    ensures !(IsOpen(p) && IsClosed(p))
    ensures !IsOpen(p) && !IsClosed(p) <==> p.status == PositionPending
  {
  }

  /** The gross directional P&L of `quantity` bought (or sold) at the entry
      price and valued at `price`. */
  function Directional(side: OrderSide, entry: real, price: real, quantity: real): (r: real)
    ensures side == Buy ==> r == (price - entry) * quantity
    ensures side == Sell ==> r == (entry - price) * quantity
  {
    if side == Buy then (price - entry) * quantity else (entry - price) * quantity
  }

  /** Unrealized P&L: zero unless open, else directional P&L net of the
      entry fee only. */
  function UnrealizedPnl(p: Position, price: real): (r: real)
    ensures !IsOpen(p) ==> r == 0.0
    ensures IsOpen(p) ==> r + p.entryFee == Directional(p.side, p.entryPrice, price, p.quantity)
  {
    if !IsOpen(p) then 0.0 else Directional(p.side, p.entryPrice, price, p.quantity) - p.entryFee
  }

  /** A long position's entry cost plus its unrealized P&L is what the
      position is worth at `price`: the entry fee cancels. */
  lemma EntryCostPlusUnrealized(p: Position, price: real)
    requires IsOpen(p) && p.side == Buy
    ensures EntryCost(p) + UnrealizedPnl(p, price) == price * p.quantity
  {
    var d := price - p.entryPrice;
    assert d * p.quantity + p.entryPrice * p.quantity == price * p.quantity;
  }

  /** Buying and selling the same position mirror each other around the
      entry fee. */
  lemma UnrealizedSidesMirror(p: Position, price: real)
    requires IsOpen(p)
    ensures UnrealizedPnl(p.(side := Buy), price) + UnrealizedPnl(p.(side := Sell), price) == -2.0 * p.entryFee
  {
  }

  /** A bought position gains with the price: a higher valuation price never
      lowers its unrealized P&L. */
  lemma BuyPnlMonotone(p: Position, a: real, b: real)
    requires IsOpen(p) && p.side == Buy && p.quantity > 0.0 && a <= b
    ensures UnrealizedPnl(p, a) <= UnrealizedPnl(p, b)
  {
    assert (b - p.entryPrice) * p.quantity - (a - p.entryPrice) * p.quantity == (b - a) * p.quantity;
  }

  /** Unrealized P&L as a percentage of the entry cost, 0 when that cost is 0. */
  function UnrealizedPnlPercent(p: Position, price: real): (r: real)
    ensures EntryCost(p) == 0.0 ==> r == 0.0
    ensures EntryCost(p) != 0.0 ==> r * EntryCost(p) == UnrealizedPnl(p, price) * 100.0
  {
    if EntryCost(p) == 0.0 then 0.0 else UnrealizedPnl(p, price) / EntryCost(p) * 100.0
  }

  /** Realized P&L: present only for a closed position with an exit price,
      and then net of both fees. */
  function RealizedPnl(p: Position): (r: Option<real>)
    ensures r.Some? <==> IsClosed(p) && p.exitPrice.Some?
    ensures r.Some? ==>
      r.value + p.entryFee + p.exitFee == Directional(p.side, p.entryPrice, p.exitPrice.value, p.quantity)
  {
    if !IsClosed(p) || p.exitPrice.None? then None
    else Some(Directional(p.side, p.entryPrice, p.exitPrice.value, p.quantity) - p.entryFee - p.exitFee)
  }

  /** Realized P&L percent: None while not closed, 0 for a zero entry cost
      (even without an exit price), else the P&L over the entry cost. */
  function RealizedPnlPercent(p: Position): (r: Option<real>)
    ensures !IsClosed(p) ==> r.None?
    ensures IsClosed(p) && EntryCost(p) == 0.0 ==> r == Some(0.0)
    ensures IsClosed(p) && EntryCost(p) != 0.0 ==>
      (r.Some? <==> p.exitPrice.Some?) &&
      (r.Some? ==> r.value * EntryCost(p) == RealizedPnl(p).value * 100.0)
  {
    if !IsClosed(p) then None
    else if EntryCost(p) == 0.0 then Some(0.0)
    else
      match RealizedPnl(p)
      case None => None
      case Some(pnl) => Some(pnl / EntryCost(p) * 100.0)
  }

  /** `update_price`: while open, widen the high/low envelope to include
      `price`; nothing else changes. */
  function UpdatePrice(p: Position, price: real): (r: Position)
    ensures r.maxPrice >= p.maxPrice && r.minPrice <= p.minPrice
    ensures IsOpen(p) ==> r.minPrice <= price <= r.maxPrice
    ensures !IsOpen(p) ==> r == p
    ensures r.(maxPrice := p.maxPrice, minPrice := p.minPrice) == p
  {
    if IsOpen(p) then p.(maxPrice := Max(p.maxPrice, price), minPrice := Min(p.minPrice, price)) else p
  }

  /** Feeding a price sequence through `update_price`, oldest first. */
  function UpdatePrices(p: Position, prices: seq<real>): Position
    decreases |prices|
  {
    if |prices| == 0 then p else UpdatePrice(UpdatePrices(p, prices[..|prices| - 1]), prices[|prices| - 1])
  }

  /** The envelope of an open position holds every price seen and its starting
      range, so `min_price <= entry_price <= max_price` survives any run of
      updates from a freshly constructed position. */
  lemma {:induction false} UpdatePricesEnvelope(p: Position, prices: seq<real>)
    requires IsOpen(p)
    ensures var r := UpdatePrices(p, prices);
      && IsOpen(r)
      && r.minPrice <= p.minPrice && p.maxPrice <= r.maxPrice
      && (forall i :: 0 <= i < |prices| ==> r.minPrice <= prices[i] <= r.maxPrice)
    decreases |prices|
  {
    if |prices| > 0 {
      var init := prices[..|prices| - 1];
      UpdatePricesEnvelope(p, init);
      var r := UpdatePrices(p, prices);
      forall i | 0 <= i < |prices|
        ensures r.minPrice <= prices[i] <= r.maxPrice
      {
        if i < |prices| - 1 {
          assert prices[i] == init[i];
        }
      }
    }
  }

  /** `close_position`: only an open position closes; an absent close time
      falls back to the caller-supplied `now`. */
  function ClosePosition(p: Position, exitPrice: real, closedAt: Option<real>, now: real, exitFee: real): (r: Result<Position>)
    ensures r.Ok? <==> IsOpen(p)
    ensures r.Ok? ==>
      && r.value.status == PositionClosed && IsClosed(r.value)
      && r.value.exitPrice == Some(exitPrice) && r.value.exitFee == exitFee
      && r.value.closedAt == Some(closedAt.GetOr(now))
      && r.value.(status := p.status, exitPrice := p.exitPrice, closedAt := p.closedAt, exitFee := p.exitFee) == p
  {
    if !IsOpen(p) then Err(ValueError("Cannot close position"))
    else Ok(p.(exitPrice := Some(exitPrice), closedAt := Some(closedAt.GetOr(now)), exitFee := exitFee,
               status := PositionClosed))
  }

  /** `liquidate_position`: the forced close, stamped with `now`. */
  function LiquidatePosition(p: Position, exitPrice: real, now: real, exitFee: real): (r: Result<Position>)
    ensures r.Ok? <==> IsOpen(p)
    ensures r.Ok? ==>
      && r.value.status == Liquidated && IsClosed(r.value)
      && r.value.exitPrice == Some(exitPrice) && r.value.closedAt == Some(now)
      && r.value.(status := p.status, exitPrice := p.exitPrice, closedAt := p.closedAt, exitFee := p.exitFee) == p
  {
    if !IsOpen(p) then Err(ValueError("Cannot liquidate position"))
    else Ok(p.(exitPrice := Some(exitPrice), closedAt := Some(now), exitFee := exitFee, status := Liquidated))
  }

  /** Closing is terminal: the closed position realizes exactly its directional
      P&L net of both fees, stops reporting unrealized P&L, and can be neither
      closed nor liquidated again. */
  lemma CloseIsTerminal(p: Position, exitPrice: real, closedAt: Option<real>, now: real, exitFee: real, price: real)
    requires IsOpen(p)
    ensures var c := ClosePosition(p, exitPrice, closedAt, now, exitFee).value;
      && RealizedPnl(c) == Some(Directional(p.side, p.entryPrice, exitPrice, p.quantity) - p.entryFee - exitFee)
      && UnrealizedPnl(c, price) == 0.0
      && UpdatePrice(c, price) == c
      && ClosePosition(c, exitPrice, closedAt, now, exitFee).Err?
      && LiquidatePosition(c, exitPrice, now, exitFee).Err?
  {
  }

  lemma LiquidateIsTerminal(p: Position, exitPrice: real, now: real, exitFee: real, price: real)
    requires IsOpen(p)
    ensures var c := LiquidatePosition(p, exitPrice, now, exitFee).value;
      && RealizedPnl(c) == Some(Directional(p.side, p.entryPrice, exitPrice, p.quantity) - p.entryFee - exitFee)
      && UnrealizedPnl(c, price) == 0.0
      && ClosePosition(c, exitPrice, None, now, exitFee).Err?
      && LiquidatePosition(c, exitPrice, now, exitFee).Err?
  {
  }

  // ---------------------------------------------------------------------------
  // PositionMetrics
  // ---------------------------------------------------------------------------

  /** The running totals of the `calculate` loop. Winning and losing sums are
      kept as gross profit and gross loss (the loss as a positive amount). */
  datatype Tally = Tally(
    openCount: nat,
    closedCount: nat,
    wins: nat,
    losses: nat,
    realized: real,
    grossProfit: real,
    grossLoss: real,
    entryCost: real,
    fees: real)

  /** One iteration of the loop body. */
  function TallyStep(t: Tally, p: Position): (r: Tally)
    ensures r.openCount + r.closedCount == t.openCount + t.closedCount + 1
    ensures r.wins + r.losses <= t.wins + t.losses + 1
  {
    var t1 :=
      if IsOpen(p) then t.(openCount := t.openCount + 1)
      else
        var t0 := t.(closedCount := t.closedCount + 1);
        match RealizedPnl(p)
        case None => t0
        case Some(pnl) =>
          if pnl > 0.0 then t0.(realized := t0.realized + pnl, wins := t0.wins + 1, grossProfit := t0.grossProfit + pnl)
          else if pnl < 0.0 then t0.(realized := t0.realized + pnl, losses := t0.losses + 1, grossLoss := t0.grossLoss - pnl)
          else t0.(realized := t0.realized + pnl);
    t1.(entryCost := t1.entryCost + EntryCost(p), fees := t1.fees + p.entryFee + p.exitFee)
  }

  /** The loop run over `ps`, oldest first. */
  function TallyOf(ps: seq<Position>): (t: Tally)
    ensures t.openCount + t.closedCount == |ps|
    ensures t.wins + t.losses <= t.closedCount
    ensures t.grossProfit >= 0.0 && t.grossLoss >= 0.0
    ensures t.wins == 0 <==> t.grossProfit == 0.0
    ensures t.losses == 0 <==> t.grossLoss == 0.0
    ensures t.realized == t.grossProfit - t.grossLoss
    decreases |ps|
  {
    if |ps| == 0 then Tally(0, 0, 0, 0, 0.0, 0.0, 0.0, 0.0, 0.0)
    else TallyStep(TallyOf(ps[..|ps| - 1]), ps[|ps| - 1])
  }

  /** A position's realized P&L as the loop adds it: the P&L of a closed
      position that has one, and nothing otherwise. */
  function PnlOf(p: Position): (r: real)
    ensures RealizedPnl(p).Some? ==> r == RealizedPnl(p).value
    ensures IsOpen(p) || p.exitPrice.None? ==> r == 0.0
  {
    match RealizedPnl(p)
    case None => 0.0
    case Some(pnl) => pnl
  }

  /** A winning (losing) position is a closed one with positive (negative)
      realized P&L. */
  predicate IsWin(p: Position) { RealizedPnl(p).Some? && RealizedPnl(p).value > 0.0 }

  predicate IsLoss(p: Position) { RealizedPnl(p).Some? && RealizedPnl(p).value < 0.0 }

  /** One number per position, in order. */
  function Column(ps: seq<Position>, f: Position -> real): (r: seq<real>)
    ensures |r| == |ps|
    ensures forall i :: 0 <= i < |ps| ==> r[i] == f(ps[i])
  {
    seq(|ps|, i requires 0 <= i < |ps| => f(ps[i]))
  }

  function Gain(p: Position): real { Max(PnlOf(p), 0.0) }

  function Loss(p: Position): real { Max(-PnlOf(p), 0.0) }

  function Fees(p: Position): real { p.entryFee + p.exitFee }

  /** Dropping the last position drops the last entry of every column. */
  lemma ColumnPrefix(ps: seq<Position>, f: Position -> real)
    requires |ps| > 0
    ensures Column(ps, f) == Column(ps[..|ps| - 1], f) + [f(ps[|ps| - 1])]
  {
  }

  /** One loop iteration adds exactly the position's own contribution to
      every total. */
  lemma TallyStepAdds(t: Tally, p: Position)
    ensures var r := TallyStep(t, p);
      && r.openCount == t.openCount + (if IsOpen(p) then 1 else 0)
      && r.wins == t.wins + (if IsWin(p) then 1 else 0)
      && r.losses == t.losses + (if IsLoss(p) then 1 else 0)
      && r.realized == t.realized + PnlOf(p)
      && r.grossProfit == t.grossProfit + Gain(p)
      && r.grossLoss == t.grossLoss + Loss(p)
      && r.entryCost == t.entryCost + EntryCost(p)
      && r.fees == t.fees + Fees(p)
  {
  }

  /** The loop's counts: open positions, wins and losses. */
  lemma {:induction false} TallyOfCounts(ps: seq<Position>)
    ensures var t := TallyOf(ps);
      && t.openCount == Count(ps, IsOpen)
      && t.wins == Count(ps, IsWin)
      && t.losses == Count(ps, IsLoss)
    decreases |ps|
  {
    if |ps| > 0 {
      var init := ps[..|ps| - 1];
      var p := ps[|ps| - 1];
      assert ps == init + [p];
      TallyOfCounts(init);
      TallyStepAdds(TallyOf(init), p);
      CountSnoc(init, p, IsOpen);
      CountSnoc(init, p, IsWin);
      CountSnoc(init, p, IsLoss);
    }
  }

  /** The loop's P&L sums: realized P&L, gross profit and gross loss are the
      sums of the per-position amounts. */
  lemma {:induction false} TallyOfSums(ps: seq<Position>)
    ensures var t := TallyOf(ps);
      && t.realized == Sum(Column(ps, PnlOf))
      && t.grossProfit == Sum(Column(ps, Gain))
      && t.grossLoss == Sum(Column(ps, Loss))
    decreases |ps|
  {
    if |ps| > 0 {
      var init := ps[..|ps| - 1];
      TallyOfSums(init);
      TallyStepAdds(TallyOf(init), ps[|ps| - 1]);
      ColumnPrefix(ps, PnlOf);
      ColumnPrefix(ps, Gain);
      ColumnPrefix(ps, Loss);
    }
  }

  /** The loop's cost sums: entry cost and fees are the sums of the
      per-position amounts. */
  lemma {:induction false} TallyOfCosts(ps: seq<Position>)
    ensures var t := TallyOf(ps);
      && t.entryCost == Sum(Column(ps, EntryCost))
      && t.fees == Sum(Column(ps, Fees))
    decreases |ps|
  {
    if |ps| > 0 {
      var init := ps[..|ps| - 1];
      TallyOfCosts(init);
      TallyStepAdds(TallyOf(init), ps[|ps| - 1]);
      ColumnPrefix(ps, EntryCost);
      ColumnPrefix(ps, Fees);
    }
  }

  datatype PositionMetrics = PositionMetrics(
    totalPositions: nat,
    openPositions: nat,
    closedPositions: nat,
    totalEntryCost: real,
    totalRealizedPnl: real,
    totalUnrealizedPnl: real,
    totalFees: real,
    winCount: nat,
    lossCount: nat,
    winRate: real,
    avgWinningTrade: real,
    avgLosingTrade: real,
    profitFactor: ExtReal)

  /** What the loop's totals always satisfy. */
  predicate CoherentTally(t: Tally)
  {
    && t.wins + t.losses <= t.closedCount
    && t.grossProfit >= 0.0 && t.grossLoss >= 0.0
    && (t.wins == 0 <==> t.grossProfit == 0.0)
    && (t.losses == 0 <==> t.grossLoss == 0.0)
  }

  /** The post-loop part of `calculate`: the averages and the profit factor
      are the gross totals divided out. */
  function MetricsOf(t: Tally, total: nat): (m: PositionMetrics)
    requires CoherentTally(t)
    ensures m.totalPositions == total && m.openPositions == t.openCount && m.closedPositions == t.closedCount
    ensures m.winCount == t.wins && m.lossCount == t.losses && m.totalRealizedPnl == t.realized
    ensures m.totalEntryCost == t.entryCost && m.totalFees == t.fees
    ensures 0.0 <= m.winRate <= 100.0
    ensures m.winCount + m.lossCount == 0 ==> m.winRate == 0.0
    ensures m.winCount + m.lossCount > 0 ==>
      m.winRate * ((m.winCount + m.lossCount) as real) == (m.winCount as real) * 100.0
    ensures m.winCount > 0 ==> m.avgWinningTrade * (m.winCount as real) == t.grossProfit && m.avgWinningTrade > 0.0
    ensures m.winCount == 0 ==> m.avgWinningTrade == 0.0
    ensures m.lossCount > 0 ==> m.avgLosingTrade * (m.lossCount as real) == -t.grossLoss && m.avgLosingTrade < 0.0
    ensures m.lossCount == 0 ==> m.avgLosingTrade == 0.0
    ensures m.lossCount > 0 ==>
      m.profitFactor.Finite? && m.profitFactor.v * t.grossLoss == t.grossProfit
    ensures m.lossCount > 0 ==> (m.profitFactor.v > 0.0 <==> m.winCount > 0)
    ensures m.lossCount == 0 && m.winCount > 0 ==> m.profitFactor == PosInf
    ensures m.winCount == 0 ==> m.profitFactor == Finite(0.0)
    ensures m.totalUnrealizedPnl == 0.0
  {
    var decided := t.wins + t.losses;
    var rate := if decided > 0 then (t.wins as real) / (decided as real) * 100.0 else 0.0;
    var pf := if t.grossLoss > 0.0 then Finite(t.grossProfit / t.grossLoss)
              else if t.grossProfit > 0.0 then PosInf
              else Finite(0.0);
    PositionMetrics(total, t.openCount, t.closedCount, t.entryCost, t.realized, 0.0, t.fees,
                    t.wins, t.losses, rate, Average(t.grossProfit, t.wins), Average(-t.grossLoss, t.losses), pf)
  }

  /** `PositionMetrics.calculate`: every position is open or closed, a closed
      position with zero P&L is neither a win nor a loss, the win rate is
      over wins plus losses only, net realized P&L is gross profit minus
      gross loss, and unrealized P&L is never accumulated. */
  function Calculate(ps: seq<Position>): (m: PositionMetrics)
    ensures m.totalPositions == |ps| == m.openPositions + m.closedPositions
    ensures m.winCount + m.lossCount <= m.closedPositions
    ensures 0.0 <= m.winRate <= 100.0
    ensures m.avgWinningTrade >= 0.0 && m.avgLosingTrade <= 0.0
    ensures m.totalRealizedPnl == TallyOf(ps).grossProfit - TallyOf(ps).grossLoss
    ensures m.openPositions == Count(ps, IsOpen)
    ensures m.winCount == Count(ps, IsWin) && m.lossCount == Count(ps, IsLoss)
    ensures m.totalRealizedPnl == Sum(Column(ps, PnlOf))
    ensures m.totalEntryCost == Sum(Column(ps, EntryCost)) && m.totalFees == Sum(Column(ps, Fees))
    ensures m.lossCount == 0 && m.winCount > 0 ==> m.profitFactor == PosInf
    ensures m.winCount == 0 ==> m.profitFactor == Finite(0.0)
    ensures m.totalUnrealizedPnl == 0.0
  {
    var t := TallyOf(ps);
    TallyOfCounts(ps);
    TallyOfSums(ps);
    TallyOfCosts(ps);
    MetricsOf(t, |ps|)
  }

  /** The averages and the profit factor of `calculate` divide out the sums
      of per-position gains and losses. */
  lemma CalculateAverages(ps: seq<Position>)
    ensures var m := Calculate(ps);
      && (m.winCount > 0 ==> m.avgWinningTrade * (m.winCount as real) == Sum(Column(ps, Gain)))
      && (m.lossCount > 0 ==> m.avgLosingTrade * (m.lossCount as real) == -Sum(Column(ps, Loss)))
      && (m.lossCount > 0 ==> Sum(Column(ps, Loss)) > 0.0)
      && (m.lossCount > 0 ==> m.profitFactor == Finite(Sum(Column(ps, Gain)) / Sum(Column(ps, Loss))))
  {
    TallyOfSums(ps);
    MetricsDivideOut(TallyOf(ps), Calculate(ps), Sum(Column(ps, Gain)), Sum(Column(ps, Loss)));
  }

  /** `MetricsOf` read back through totals known only by value. */
  lemma MetricsDivideOut(t: Tally, m: PositionMetrics, gain: real, loss: real)
    requires CoherentTally(t) && m == MetricsOf(t, m.totalPositions)
    requires t.grossProfit == gain && t.grossLoss == loss
    ensures m.winCount > 0 ==> m.avgWinningTrade * (m.winCount as real) == gain
    ensures m.lossCount > 0 ==> m.avgLosingTrade * (m.lossCount as real) == -loss
    ensures m.lossCount > 0 ==> loss > 0.0
    ensures m.lossCount > 0 ==> m.profitFactor == Finite(gain / loss)
  {
  }
}
