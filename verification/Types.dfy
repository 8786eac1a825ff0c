/** Scalar types, message formats and the resting-order record shared by every component. */
module Types {

  // Machine widths are explicit: ids and quantities are unsigned 64-bit, prices and times signed 64-bit.
  type U64 = n: int | 0 <= n <= 0xFFFF_FFFF_FFFF_FFFF
  type I64 = n: int | -0x8000_0000_0000_0000 <= n <= 0x7FFF_FFFF_FFFF_FFFF

  type OrderId = U64
  type ClientId = U64
  type Qty = U64
  type Price = I64
  type Nanos = I64
  type Symbol = string

  const INVALID_ORDER_ID: OrderId := 0xFFFF_FFFF_FFFF_FFFF
  const INVALID_QTY: Qty := 0xFFFF_FFFF_FFFF_FFFF
  const INVALID_PRICE: Price := -0x8000_0000_0000_0000

  // The side named INVALID is not rejected anywhere: whatever is not BUY is handled as a sell.
  datatype Side = INVALID | BUY | SELL

  datatype OrderType = INVALID_TYPE | LIMIT | MARKET | IOC | CANCEL | MODIFY

  datatype ResponseStatus =
    | ACCEPTED
    | REJECTED
    | FILLED
    | CANCELED
    | CANCEL_REJECTED
    | MODIFIED
    | MODIFY_REJECTED

  datatype UpdateType = ADD_ORDER | MODIFY_ORDER | CANCEL_ORDER | TRADE

  datatype Request = Request(
    typ: OrderType, client: ClientId, symbol: Symbol, id: OrderId,
    side: Side, price: Price, qty: Qty, recvTime: Nanos)

  datatype Response = Response(
    status: ResponseStatus, client: ClientId, symbol: Symbol, clientOrderId: OrderId, marketOrderId: OrderId,
    side: Side, price: Price, execQty: Qty, leaves: Qty)

  datatype BookUpdate = BookUpdate(
    typ: UpdateType, id: OrderId, symbol: Symbol, side: Side, price: Price, qty: Qty)

  /** A resting order, without the list links that the linked representation adds. */
  datatype Order = Order(
    id: OrderId, client: ClientId, typ: OrderType, side: Side, price: Price,
    originalQty: Qty, qty: Qty, ts: Nanos)

  datatype Option<+T> = None | Some(value: T)

  function Min(a: int, b: int): int {
    if a < b then a else b
  }
}
