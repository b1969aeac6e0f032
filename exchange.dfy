/**
 * What the futures exchange reports and what the bot asks of it, for the
 * one symbol the bot trades. Query results are inputs of the model; order
 * placements, cancellations and leverage changes are recorded as `Request`s.
 */
module Exchange {
  import opened Wrappers

  const BULLISH: string := "bullish"
  const BEARISH: string := "bearish"

  datatype Side = Buy | Sell

  /** One entry of the position information: a signed amount (positive for long). */
  datatype Position = Position(positionAmt: real, entryPrice: real, markPrice: real, leverage: int)

  datatype OrderType = Market | StopMarket | TakeProfitMarket | OtherType(name: string)

  /** One entry of the open-order list. */
  datatype Order = Order(orderId: int, orderType: OrderType, side: Side, closePosition: bool, stopPrice: real)

  /** One candle; only the close price and the close time are used. */
  datatype Kline = Kline(close: real, closeTimeMs: int)

  /** The LOT_SIZE and MIN_NOTIONAL filters of the symbol. */
  datatype LotFilters = LotFilters(minQty: real, stepSize: real, minNotional: real)

  /** A mutation of the exchange issued by the bot. */
  datatype Request =
    | ChangeLeverage(leverage: int)
    | MarketOrder(side: Side, quantity: real, reduceOnly: bool)
    | ProtectiveOrder(side: Side, orderType: OrderType, stopPrice: real)
    | CancelOrder(orderId: int)

  function Opposite(s: Side): Side
  {
    match s
    case Buy => Sell
    case Sell => Buy
  }

  /** The side of the entry order for a direction: anything but "bullish" sells. */
  function EntrySide(direction: string): (s: Side)
    ensures s == Buy <==> direction == BULLISH
  {
    if direction == BULLISH then Buy else Sell
  }

  /** The side that closes a position opened in `direction`. */
  function CloseSide(direction: string): (s: Side)
    ensures s == Opposite(EntrySide(direction))
    ensures s == Sell <==> direction == BULLISH
  {
    if direction == BULLISH then Sell else Buy
  }

  predicate IsOpen(p: Position)
  {
    p.positionAmt != 0.0
  }

  function Abs(x: real): (r: real)
    ensures r >= 0.0 && (r == x || r == -x)
  {
    if x < 0.0 then -x else x
  }

  /** The direction string of a non-zero signed amount. */
  function DirectionOfAmount(amt: real): (d: string)
    ensures d == BULLISH <==> amt > 0.0
    ensures d == BEARISH <==> amt <= 0.0
  {
    if amt > 0.0 then BULLISH else BEARISH
  }

  /** The index of the first entry with a non-zero amount (`next(p for p in ... if amt != 0)`). */
  function FirstOpenIndex(ps: seq<Position>): (r: Option<nat>)
    ensures r.Some? ==> r.value < |ps| && IsOpen(ps[r.value])
    ensures r.Some? ==> forall j :: 0 <= j < r.value ==> !IsOpen(ps[j])
    ensures r.None? <==> forall j :: 0 <= j < |ps| ==> !IsOpen(ps[j])
  {
    if ps == [] then None
    else if IsOpen(ps[0]) then Some(0)
    else
      match FirstOpenIndex(ps[1..])
      case None => None
      case Some(i) => Some(i + 1)
  }

  /** An open entry preceded only by flat ones is the first open entry. */
  lemma FirstOpenIsLeast(ps: seq<Position>, i: nat)
    requires i < |ps| && IsOpen(ps[i]) && forall j :: 0 <= j < i ==> !IsOpen(ps[j])
    ensures FirstOpenIndex(ps) == Some(i)
  {
  }

  /** Whether some entry has a non-zero amount (`any(amt != 0 for p in ...)`). */
  predicate HasOpenPosition(ps: seq<Position>)
  {
    FirstOpenIndex(ps).Some?
  }

  lemma HasOpenPositionIff(ps: seq<Position>)
    ensures HasOpenPosition(ps) <==> exists i :: 0 <= i < |ps| && IsOpen(ps[i])
  {
    if FirstOpenIndex(ps).Some? {
      var i := FirstOpenIndex(ps).value;
      assert IsOpen(ps[i]);
    }
  }

  /** The orders of one protective kind that close the whole position from the side `sideClose`. */
  predicate IsClosingOrder(o: Order, t: OrderType, sideClose: Side)
  {
    o.orderType == t && o.side == sideClose && o.closePosition
  }

  /** The list comprehension `[o for o in orders if o is a closing order of type t]`. */
  function ClosingOrders(orders: seq<Order>, t: OrderType, sideClose: Side): (r: seq<Order>)
    ensures |r| <= |orders|
    ensures forall o :: o in r <==> o in orders && IsClosingOrder(o, t, sideClose)
  {
    if orders == [] then []
    else
      var rest := ClosingOrders(orders[1..], t, sideClose);
      assert forall o :: o in orders <==> o == orders[0] || o in orders[1..];
      if IsClosingOrder(orders[0], t, sideClose) then [orders[0]] + rest else rest
  }

  /** `len(ClosingOrders(...)) > 0`: a matching protective order already exists. */
  predicate HasClosingOrder(orders: seq<Order>, t: OrderType, sideClose: Side)
  {
    |ClosingOrders(orders, t, sideClose)| > 0
  }

  lemma HasClosingOrderIff(orders: seq<Order>, t: OrderType, sideClose: Side)
    ensures HasClosingOrder(orders, t, sideClose) <==>
            exists i :: 0 <= i < |orders| && IsClosingOrder(orders[i], t, sideClose)
  {
    var r := ClosingOrders(orders, t, sideClose);
    if |r| > 0 {
      assert r[0] in r;
      var i :| 0 <= i < |orders| && orders[i] == r[0];
    }
  }

  /** `any(o['type'] == t for o in orders)`, the weaker test of core/trade_executor.py:394-395. */
  predicate HasOrderOfType(orders: seq<Order>, t: OrderType)
  {
    exists i :: 0 <= i < |orders| && orders[i].orderType == t
  }
}
