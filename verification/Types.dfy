/** The vocabulary shared by every module: sides, order types, bounded numbers and trades
    (order_book/src/types.hpp and order_book/src/trade.hpp). */
module Types {

  /** Quantity and Price are 32-bit unsigned in the book. */
  const MODULUS: nat := 0x1_0000_0000

  type Price = n: nat | n < MODULUS
  type Quantity = n: nat | n < MODULUS
  type OrderId = nat

  datatype Side = Buy | Sell {
    function Opposite(): Side { if Buy? then Sell else Buy }

    /** The sign a fill of this side has in a position. */
    function Sign(): int { if Buy? then 1 else -1 }
  }

  datatype OrderType = GoodTillCancel | FillAndKill

  datatype TradeInfo = TradeInfo(orderId: OrderId, price: Price, tradedQuantity: Quantity)

  datatype Trade = Trade(bid: TradeInfo, ask: TradeInfo) {
    function On(side: Side): TradeInfo { if side.Buy? then bid else ask }
  }

  datatype LevelInfo = LevelInfo(price: Price, quantity: Quantity)

  datatype Option<+T> = None | Some(value: T)

  /** What 32-bit arithmetic keeps of a number. */
  function Wrap(n: nat): Quantity { n % MODULUS }

  function Min(a: Quantity, b: Quantity): Quantity { if a <= b then a else b }
}
