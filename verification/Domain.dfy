/** Markets, books, orders and positions, as the trading runtime passes them around. */
module Domain {
  import opened Wrappers

  datatype TradingStatus = Candidate | Eligible | Paused | Closed | Resolved | Rejected

  datatype MarketOutcome = MarketOutcome(tokenId: string, name: string)

  datatype Market = Market(
    conditionId: string,
    marketSlug: string,
    eventSlug: Option<string>,
    outcomes: seq<MarketOutcome>,
    tickSize: real,
    minOrderSize: real,
    tradingStatus: TradingStatus,
    rejectReason: Option<string>)
  {
    /** Token of the first outcome of this name. */
    function FindTokenId(name: string): Option<string> {
      FirstNamed(outcomes, name)
    }
  }

  function FirstNamed(outcomes: seq<MarketOutcome>, name: string): Option<string> {
    if outcomes == [] then None
    else if outcomes[0].name == name then Some(outcomes[0].tokenId)
    else FirstNamed(outcomes[1..], name)
  }

  predicate DistinctTokens(m: Market) {
    forall i, j :: 0 <= i < j < |m.outcomes| ==> m.outcomes[i].tokenId != m.outcomes[j].tokenId
  }

  datatype Side = Buy | Sell

  datatype OrderType = Fak | Gtc

  datatype OrderStatus =
    | Created | Signed | Submitted | CancelRequested | Matched | PartiallyFilled
    | NoFill | Live | Cancelled | OrderRejected | OrderFailed

  datatype Order = Order(
    conditionId: string,
    tokenId: string,
    side: Side,
    orderType: OrderType,
    price: real,
    amountUsdc: Option<real>,
    sizeShares: Option<real>,
    remainingShares: Option<real>,
    notionalUsdc: Option<real>,
    orderId: Option<string>,
    idempotencyKey: Option<string>,
    status: OrderStatus)
  {
    predicate Open() {
      status in {Created, Signed, Submitted, CancelRequested, Live, Matched, PartiallyFilled}
    }

    predicate OpenBuy() { side == Buy && Open() }

    predicate OpenSell() { side == Sell && Open() }

    function Key(): Key { (conditionId, tokenId) }
  }

  datatype Position = Position(
    conditionId: string,
    tokenId: string,
    shares: real,
    costUsdc: real,
    openBuyShares: real,
    openSellShares: real,
    pendingBuyShares: real,
    confirmedShares: real)

  /** Positions and orders belong to a token of a market. */
  type Key = (string, string)

  function OrdersFor(orders: seq<Order>, key: Key): seq<Order> {
    if orders == [] then []
    else
      var last := orders[|orders| - 1];
      OrdersFor(orders[..|orders| - 1], key) + (if (last.conditionId, last.tokenId) == key then [last] else [])
  }

  /** The first position under a key. */
  function FirstPosition(positions: seq<Position>, key: Key): Option<Position> {
    if positions == [] then None
    else if (positions[0].conditionId, positions[0].tokenId) == key then Some(positions[0])
    else FirstPosition(positions[1..], key)
  }

  datatype PriceLevel = PriceLevel(price: real, size: real)
  {
    function Notional(): real { price * size }
  }

  datatype Orderbook = Orderbook(
    tokenId: string,
    bestBid: Option<real>,
    bestAsk: Option<real>,
    bestAskSize: Option<real>,
    asks: seq<PriceLevel>,
    tickSize: Option<real>)
  {
    function Spread(): Option<real> {
      if bestBid.None? || bestAsk.None? then None else Some(bestAsk.value - bestBid.value)
    }
  }

  /** Ask-side notional of the levels at or below `priceCap` (of all levels when there is no cap). */
  function LevelsNotional(levels: seq<PriceLevel>, priceCap: Option<real>): real {
    if levels == [] then 0.0
    else
      var last := levels[|levels| - 1];
      LevelsNotional(levels[..|levels| - 1], priceCap)
      + (if priceCap.None? || last.price <= priceCap.value then last.Notional() else 0.0)
  }

  /** USDC an open order ties up: resting BUY orders only, FAK orders count as nothing. */
  function OrderExposure(o: Order): real {
    if o.side != Buy || o.orderType == Fak then 0.0
    else if o.amountUsdc.Some? then o.amountUsdc.value
    else if o.notionalUsdc.Some? then o.notionalUsdc.value
    else if o.sizeShares.Some? then o.price * o.sizeShares.value
    else 0.0
  }

  function OrdersExposure(orders: seq<Order>): real {
    if orders == [] then 0.0
    else OrdersExposure(orders[..|orders| - 1]) + OrderExposure(orders[|orders| - 1])
  }

  /** Cost of the position, plus the cost share of what is being sold. */
  function PositionExposure(position: Option<Position>): real {
    if position.None? then 0.0
    else
      var p := position.value;
      if p.shares > 0.0 && p.openSellShares > 0.0 then
        var selling := if p.openSellShares > p.shares then p.shares else p.openSellShares;
        p.costUsdc + p.costUsdc * (selling / p.shares)
      else p.costUsdc
  }

  function Exposure(position: Option<Position>, orders: seq<Order>): real {
    PositionExposure(position) + OrdersExposure(orders)
  }

  method CurrentExposureUsdc(position: Option<Position>, openOrders: seq<Order>) returns (exposure: real)
    ensures exposure == Exposure(position, openOrders)
  {
    exposure := 0.0;
    if position.Some? {
      var p := position.value;
      exposure := exposure + p.costUsdc;
      if p.shares > 0.0 && p.openSellShares > 0.0 {
        var selling := p.openSellShares;
        if selling > p.shares {
          selling := p.shares;
        }
        exposure := exposure + p.costUsdc * (selling / p.shares);
      }
    }
    ghost var base := exposure;
    for k := 0 to |openOrders|
      invariant exposure == base + OrdersExposure(openOrders[..k])
    {
      var order := openOrders[k];
      assert openOrders[..k + 1][..k] == openOrders[..k];
      if order.side != Buy {
        continue;
      }
      if order.orderType == Fak {
        continue;
      }
      if order.amountUsdc.Some? {
        exposure := exposure + order.amountUsdc.value;
        continue;
      }
      if order.notionalUsdc.Some? {
        exposure := exposure + order.notionalUsdc.value;
        continue;
      }
      if order.sizeShares.Some? {
        exposure := exposure + order.price * order.sizeShares.value;
      }
    }
    assert openOrders[..|openOrders|] == openOrders;
  }

  /** A ledger without negative costs or amounts. */
  predicate NonNegativeOrder(o: Order) {
    && (o.amountUsdc.Some? ==> o.amountUsdc.value >= 0.0)
    && (o.notionalUsdc.Some? ==> o.notionalUsdc.value >= 0.0)
    && (o.sizeShares.Some? ==> o.sizeShares.value >= 0.0)
    && o.price >= 0.0
  }

  lemma {:induction false} OrdersExposureNonNegative(orders: seq<Order>)
    requires forall i :: 0 <= i < |orders| ==> NonNegativeOrder(orders[i])
    ensures OrdersExposure(orders) >= 0.0
  {
    if orders != [] {
      var last := orders[|orders| - 1];
      OrdersExposureNonNegative(orders[..|orders| - 1]);
      if last.sizeShares.Some? {
        ProductNonNegative(last.price, last.sizeShares.value);
      }
    }
  }

  lemma ProductNonNegative(a: real, b: real)
    requires a >= 0.0 && b >= 0.0
    ensures a * b >= 0.0
  {}

  lemma QuotientNonNegative(a: real, b: real)
    requires a >= 0.0 && b > 0.0
    ensures a / b >= 0.0
  {}

  lemma ExposureNonNegative(position: Option<Position>, orders: seq<Order>)
    requires position.Some? ==> position.value.costUsdc >= 0.0
    requires forall i :: 0 <= i < |orders| ==> NonNegativeOrder(orders[i])
    ensures Exposure(position, orders) >= 0.0
  {
    OrdersExposureNonNegative(orders);
    if position.Some? && position.value.shares > 0.0 && position.value.openSellShares > 0.0 {
      var p := position.value;
      var selling := if p.openSellShares > p.shares then p.shares else p.openSellShares;
      QuotientNonNegative(selling, p.shares);
      ProductNonNegative(p.costUsdc, selling / p.shares);
    }
  }
}
