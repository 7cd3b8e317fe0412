/** The enumerations of `src/core/enums.py` that the modelled core uses,
    transcribed one variant per Python member. */
module Enums {

  datatype TradeType = Long | Short | Both

  datatype OrderType = Market | Limit | Stop | StopLimit

  datatype OrderStatus =
    | Pending
    | Open
    | PartiallyFilled
    | Filled
    | Cancelled
    | Rejected
    | Expired

  datatype OrderSide = Buy | Sell

  datatype PositionStatus = PositionOpen | PositionClosed | PositionPending | Liquidated

  datatype SignalType = BuySignal | SellSignal | Hold | StrongBuy | StrongSell | Exit | Entry

  datatype StrategyState = Idle | Active

  datatype ExecutionMode = Backtest | Paper | Live

  /** The `.value` string of a trade type, as used in generated identifiers. */
  function TradeTypeValue(t: TradeType): string
  {
    match t
    case Long => "long"
    case Short => "short"
    case Both => "both"
  }
}
