/**
 * The gate in front of the executor: every order intent passes the same list of
 * checks, in a fixed order, and the first one that fails names the refusal.
 */
module Risk {
  import opened Wrappers
  import opened Domain
  import opened Allocation

  datatype OrderIntent =
    | BuyIntent(conditionId: string, tokenId: string, price: real, amountUsdc: real)
    | SellIntent(conditionId: string, tokenId: string, price: real, sizeShares: real)
  {
    function NotionalUsdc(): real {
      match this
      case BuyIntent(_, _, _, amount) => amount
      case SellIntent(_, _, price, size) => price * size
    }
  }

  datatype Gate =
    | OrderSizeGate | ClassificationGate
    | MarketActiveGate | MarketOpenGate | ClobGate | ResolvedGate | CancelledGate | ArchivedGate | MarketStatusGate
    | PriceGate | TickSizeGate | MinOrderGate
    | SingleOrderGate | SingleMarketGate | TotalLimitGate
    | OpenOrdersGate | RetryGate
    | GeoblockGate | BalanceGate | AllowanceGate
    | LiquidityGate | OpenBuyGate
  {
    /** Position of the gate in the sequence of checks. */
    function Rank(): nat {
      match this
      case OrderSizeGate => 0 case ClassificationGate => 1
      case MarketActiveGate => 2 case MarketOpenGate => 3 case ClobGate => 4 case ResolvedGate => 5
      case CancelledGate => 6 case ArchivedGate => 7 case MarketStatusGate => 8
      case PriceGate => 9 case TickSizeGate => 10 case MinOrderGate => 11
      case SingleOrderGate => 12 case SingleMarketGate => 13 case TotalLimitGate => 14
      case OpenOrdersGate => 15 case RetryGate => 16
      case GeoblockGate => 17 case BalanceGate => 18 case AllowanceGate => 19
      case LiquidityGate => 20 case OpenBuyGate => 21
    }
  }

  datatype RiskInputs = RiskInputs(
    market: Option<Market>,
    orderbook: Option<Orderbook>,
    position: Option<Position>,
    openOrders: seq<Order>,
    allocationPlan: Option<AllocationPlan>,
    classificationPassed: Option<bool>,
    marketActive: Option<bool>,
    marketOpen: Option<bool>,
    clobEnabled: Option<bool>,
    resolved: Option<bool>,
    cancelled: Option<bool>,
    archived: Option<bool>,
    geoblocked: bool,
    balanceUsdc: Option<real>,
    allowanceUsdc: Option<real>,
    portfolioTotal: Option<real>,
    openOrdersCount: Option<int>,
    retryCount: int,
    orderRetryLimit: Option<int>,
    maxOrder: Option<real>,
    maxMarket: Option<real>,
    maxTotal: Option<real>,
    maxOpenOrders: Option<int>,
    minOrderSize: Option<real>)

  datatype RiskCheck = RiskCheck(gate: Gate, passed: bool)

  datatype RiskDecision = RiskDecision(failed: Option<Gate>, retryable: bool, checks: seq<RiskCheck>)
  {
    predicate Passed() { failed.None? }
  }

  predicate IsEligible(market: Market) { market.tradingStatus == Eligible }

  predicate ActiveFlag(x: RiskInputs) {
    x.marketActive.GetOr(x.market.Some? ==> IsEligible(x.market.value))
  }

  predicate OpenFlag(x: RiskInputs) {
    x.marketOpen.GetOr(x.market.Some? ==> IsEligible(x.market.value))
  }

  predicate ResolvedFlag(x: RiskInputs) {
    x.resolved.GetOr(x.market.Some? && x.market.value.tradingStatus == Resolved)
  }

  function EffectiveTickSize(x: RiskInputs): Option<real> {
    if x.orderbook.Some? && x.orderbook.value.tickSize.Some? then x.orderbook.value.tickSize
    else if x.market.Some? then Some(x.market.value.tickSize)
    else None
  }

  /** `price` is a whole number of ticks. */
  predicate IsMultipleOfTick(price: real, tick: real) {
    tick > 0.0 && (price / tick).Floor as real * tick == price
  }

  predicate OnTick(intent: OrderIntent, x: RiskInputs) {
    EffectiveTickSize(x).Some? ==> IsMultipleOfTick(intent.price, EffectiveTickSize(x).value)
  }

  function EffectiveMinOrderSize(x: RiskInputs): real {
    var own := if x.market.Some? then x.market.value.minOrderSize else x.minOrderSize.GetOr(0.0);
    if x.minOrderSize.Some? && own < x.minOrderSize.value then x.minOrderSize.value else own
  }

  /** Total already invested; without an explicit figure, the rest of the plan this intent belongs to. */
  function PortfolioTotal(intent: OrderIntent, x: RiskInputs): (total: real)
    ensures total >= 0.0
    ensures x.portfolioTotal.Some? ==> total >= x.portfolioTotal.value && (total > 0.0 ==> total == x.portfolioTotal.value)
    ensures x.portfolioTotal.None? && x.allocationPlan.Some? ==>
      var planned := x.allocationPlan.value.AllocatedBudget();
      total + intent.NotionalUsdc() >= planned && (total > 0.0 ==> total + intent.NotionalUsdc() == planned)
    ensures x.portfolioTotal.None? && x.allocationPlan.None? ==> total == 0.0
  {
    var total :=
      if x.portfolioTotal.Some? then x.portfolioTotal.value
      else if x.allocationPlan.Some? then x.allocationPlan.value.AllocatedBudget() - intent.NotionalUsdc()
      else 0.0;
    if total < 0.0 then 0.0 else total
  }

  predicate OfSubject(o: Order, intent: OrderIntent) {
    o.conditionId == intent.conditionId && o.tokenId == intent.tokenId
  }

  function SubjectOrders(orders: seq<Order>, intent: OrderIntent): seq<Order> {
    if orders == [] then []
    else
      SubjectOrders(orders[..|orders| - 1], intent)
      + (if OfSubject(orders[|orders| - 1], intent) then [orders[|orders| - 1]] else [])
  }

  function MarketExposure(intent: OrderIntent, x: RiskInputs): real {
    Exposure(x.position, SubjectOrders(x.openOrders, intent))
  }

  /** Depth at or below the limit price; the top of book counts when no level does. */
  function BookDepth(book: Orderbook, priceCap: real): real {
    var depth := LevelsNotional(book.asks, Some(priceCap));
    if depth == 0.0 && book.bestAsk.Some? && book.bestAskSize.Some? && book.bestAsk.value <= priceCap
    then book.bestAsk.value * book.bestAskSize.value
    else depth
  }

  predicate IsPendingBuy(o: Order, intent: OrderIntent) {
    OfSubject(o, intent) && o.side == Buy
    && o.status !in {Cancelled, OrderRejected, OrderFailed, NoFill, Matched}
  }

  predicate HasPendingBuyFor(orders: seq<Order>, intent: OrderIntent) {
    exists i :: 0 <= i < |orders| && IsPendingBuy(orders[i], intent)
  }

  /** The amounts the checks compare: computed from the intent, the orders, the plan and the book. */
  datatype Figures = Figures(notional: real, exposure: real, invested: real, depth: Option<real>)

  function FiguresOf(intent: OrderIntent, x: RiskInputs): Figures {
    Figures(intent.NotionalUsdc(), MarketExposure(intent, x), PortfolioTotal(intent, x),
            if x.orderbook.None? then None else Some(BookDepth(x.orderbook.value, intent.price)))
  }

  /** What each gate asks of an intent. */
  predicate Meets(gate: Gate, intent: OrderIntent, x: RiskInputs, f: Figures) {
    match gate
    case OrderSizeGate => f.notional > 0.0
    case ClassificationGate => x.classificationPassed != Some(false)
    case MarketActiveGate => ActiveFlag(x)
    case MarketOpenGate => OpenFlag(x)
    case ClobGate => x.clobEnabled.GetOr(true)
    case ResolvedGate => !ResolvedFlag(x)
    case CancelledGate => !x.cancelled.GetOr(false)
    case ArchivedGate => !x.archived.GetOr(false)
    case MarketStatusGate => x.market.Some? ==> IsEligible(x.market.value)
    case PriceGate => intent.price > 0.0
    case TickSizeGate => OnTick(intent, x)
    case MinOrderGate => f.notional >= EffectiveMinOrderSize(x)
    case SingleOrderGate => x.maxOrder.Some? ==> f.notional <= x.maxOrder.value
    case SingleMarketGate => x.maxMarket.Some? ==> f.exposure + f.notional <= x.maxMarket.value
    case TotalLimitGate => x.maxTotal.Some? ==> f.invested + f.notional <= x.maxTotal.value
    case OpenOrdersGate => x.maxOpenOrders.Some? ==> x.openOrdersCount.GetOr(|x.openOrders|) < x.maxOpenOrders.value
    case RetryGate => x.retryCount >= 0 && x.orderRetryLimit.Some? ==> x.retryCount < x.orderRetryLimit.value
    case GeoblockGate => !x.geoblocked
    case BalanceGate => x.balanceUsdc.Some? ==> f.notional <= x.balanceUsdc.value
    case AllowanceGate => x.allowanceUsdc.Some? ==> f.notional <= x.allowanceUsdc.value
    case LiquidityGate => f.depth.Some? ==> f.notional <= f.depth.value
    case OpenBuyGate => !HasPendingBuyFor(x.openOrders, intent)
  }

  predicate Holds(gate: Gate, intent: OrderIntent, x: RiskInputs) {
    Meets(gate, intent, x, FiguresOf(intent, x))
  }

  /** `gate` is where the sequence of checks stops. */
  predicate FirstFailure(gate: Gate, intent: OrderIntent, x: RiskInputs) {
    && !Holds(gate, intent, x)
    && forall h: Gate :: h.Rank() < gate.Rank() ==> Holds(h, intent, x)
  }

  function IntentRefusal(x: RiskInputs, f: Figures): Option<Gate> {
    if f.notional <= 0.0 then Some(OrderSizeGate)
    else if x.classificationPassed == Some(false) then Some(ClassificationGate)
    else None
  }

  function MarketRefusal(x: RiskInputs): Option<Gate> {
    if !ActiveFlag(x) then Some(MarketActiveGate)
    else if !OpenFlag(x) then Some(MarketOpenGate)
    else if !x.clobEnabled.GetOr(true) then Some(ClobGate)
    else if ResolvedFlag(x) then Some(ResolvedGate)
    else if x.cancelled.GetOr(false) then Some(CancelledGate)
    else if x.archived.GetOr(false) then Some(ArchivedGate)
    else if x.market.Some? && !IsEligible(x.market.value) then Some(MarketStatusGate)
    else None
  }

  function PriceRefusal(intent: OrderIntent, x: RiskInputs, f: Figures): Option<Gate> {
    if intent.price <= 0.0 then Some(PriceGate)
    else if !OnTick(intent, x) then Some(TickSizeGate)
    else if f.notional < EffectiveMinOrderSize(x) then Some(MinOrderGate)
    else None
  }

  function ExposureRefusal(x: RiskInputs, f: Figures): Option<Gate> {
    if x.maxOrder.Some? && f.notional > x.maxOrder.value then Some(SingleOrderGate)
    else if x.maxMarket.Some? && f.exposure + f.notional > x.maxMarket.value then Some(SingleMarketGate)
    else if x.maxTotal.Some? && f.invested + f.notional > x.maxTotal.value then Some(TotalLimitGate)
    else None
  }

  function OperationRefusal(x: RiskInputs): Option<Gate> {
    if x.maxOpenOrders.Some? && x.openOrdersCount.GetOr(|x.openOrders|) >= x.maxOpenOrders.value
    then Some(OpenOrdersGate)
    else if x.retryCount >= 0 && x.orderRetryLimit.Some? && x.retryCount >= x.orderRetryLimit.value
    then Some(RetryGate)
    else None
  }

  function AccountRefusal(x: RiskInputs, f: Figures): Option<Gate> {
    if x.geoblocked then Some(GeoblockGate)
    else if x.balanceUsdc.Some? && f.notional > x.balanceUsdc.value then Some(BalanceGate)
    else if x.allowanceUsdc.Some? && f.notional > x.allowanceUsdc.value then Some(AllowanceGate)
    else None
  }

  function BookRefusal(intent: OrderIntent, x: RiskInputs, f: Figures): Option<Gate> {
    if f.depth.Some? && f.depth.value < f.notional then Some(LiquidityGate)
    else if HasPendingBuyFor(x.openOrders, intent) then Some(OpenBuyGate)
    else None
  }

  function Else(first: Option<Gate>, second: Option<Gate>): Option<Gate> {
    if first.Some? then first else second
  }

  /** The first refusal of the stages, for given figures. */
  function StagesRefuse(intent: OrderIntent, x: RiskInputs, f: Figures): Option<Gate> {
    Else(IntentRefusal(x, f),
    Else(MarketRefusal(x),
    Else(PriceRefusal(intent, x, f),
    Else(ExposureRefusal(x, f),
    Else(OperationRefusal(x),
    Else(AccountRefusal(x, f), BookRefusal(intent, x, f)))))))
  }

  /** The gate that refuses this intent, if one does. */
  function Refusal(intent: OrderIntent, x: RiskInputs): Option<Gate> {
    StagesRefuse(intent, x, FiguresOf(intent, x))
  }

  /** A log of passed checks, ended by failures of the failing gate only. */
  predicate LogOf(failed: Option<Gate>, checks: seq<RiskCheck>) {
    match failed
    case None => forall i :: 0 <= i < |checks| ==> checks[i].passed
    case Some(g) =>
      && checks != [] && checks[|checks| - 1] == RiskCheck(g, false)
      && forall i :: 0 <= i < |checks| ==> checks[i].passed || checks[i].gate == g
  }

  // ------------------------------------------------------------------ the checks

  method CheckIntent(x: RiskInputs, notional: real, ghost f: Figures)
      returns (failed: Option<Gate>, checks: seq<RiskCheck>)
    requires notional == f.notional
    ensures failed == IntentRefusal(x, f) && LogOf(failed, checks)
  {
    if notional <= 0.0 {
      return Some(OrderSizeGate), [RiskCheck(OrderSizeGate, false)];
    }
    checks := [RiskCheck(OrderSizeGate, true)];
    if x.classificationPassed == Some(false) {
      return Some(ClassificationGate), checks + [RiskCheck(ClassificationGate, false)];
    }
    return None, checks + [RiskCheck(ClassificationGate, true)];
  }

  method CheckMarketState(x: RiskInputs) returns (failed: Option<Gate>, checks: seq<RiskCheck>)
    ensures failed == MarketRefusal(x) && LogOf(failed, checks)
  {
    var flags := [
      (MarketActiveGate, ActiveFlag(x)), (MarketOpenGate, OpenFlag(x)), (ClobGate, x.clobEnabled.GetOr(true)),
      (ResolvedGate, !ResolvedFlag(x)), (CancelledGate, !x.cancelled.GetOr(false)),
      (ArchivedGate, !x.archived.GetOr(false))];
    checks := [];
    for k := 0 to |flags|
      invariant LogOf(None, checks)
      invariant k > 0 ==> ActiveFlag(x)
      invariant k > 1 ==> OpenFlag(x)
      invariant k > 2 ==> x.clobEnabled.GetOr(true)
      invariant k > 3 ==> !ResolvedFlag(x)
      invariant k > 4 ==> !x.cancelled.GetOr(false)
      invariant k > 5 ==> !x.archived.GetOr(false)
    {
      checks := checks + [RiskCheck(flags[k].0, flags[k].1)];
      if !flags[k].1 {
        return Some(flags[k].0), checks + [RiskCheck(flags[k].0, false)];
      }
    }
    if x.market.Some? && !IsEligible(x.market.value) {
      return Some(MarketStatusGate), checks + [RiskCheck(MarketStatusGate, false)];
    }
    return None, checks;
  }

  method CheckPriceAndSize(intent: OrderIntent, x: RiskInputs, notional: real, ghost f: Figures)
      returns (failed: Option<Gate>, checks: seq<RiskCheck>)
    requires notional == f.notional
    ensures failed == PriceRefusal(intent, x, f) && LogOf(failed, checks)
  {
    if intent.price <= 0.0 {
      return Some(PriceGate), [RiskCheck(PriceGate, false)];
    }
    if !OnTick(intent, x) {
      return Some(TickSizeGate), [RiskCheck(TickSizeGate, false)];
    }
    checks := [RiskCheck(TickSizeGate, true)];
    if notional < EffectiveMinOrderSize(x) {
      return Some(MinOrderGate), checks + [RiskCheck(MinOrderGate, false)];
    }
    return None, checks;
  }

  method FilterSubject(orders: seq<Order>, intent: OrderIntent) returns (subject: seq<Order>)
    ensures subject == SubjectOrders(orders, intent)
  {
    subject := [];
    for k := 0 to |orders|
      invariant subject == SubjectOrders(orders[..k], intent)
    {
      assert orders[..k + 1][..k] == orders[..k];
      if orders[k].conditionId != intent.conditionId {
        continue;
      }
      if orders[k].tokenId != intent.tokenId {
        continue;
      }
      subject := subject + [orders[k]];
    }
    assert orders[..|orders|] == orders;
  }

  method CheckExposure(intent: OrderIntent, x: RiskInputs, notional: real, invested: real, ghost f: Figures)
      returns (failed: Option<Gate>, checks: seq<RiskCheck>)
    requires notional == f.notional && invested == f.invested && f.exposure == MarketExposure(intent, x)
    ensures failed == ExposureRefusal(x, f) && LogOf(failed, checks)
  {
    var subject := FilterSubject(x.openOrders, intent);
    var exposure := CurrentExposureUsdc(x.position, subject);
    if x.maxOrder.Some? && notional > x.maxOrder.value {
      return Some(SingleOrderGate), [RiskCheck(SingleOrderGate, false)];
    }
    if x.maxMarket.Some? && exposure + notional > x.maxMarket.value {
      return Some(SingleMarketGate), [RiskCheck(SingleMarketGate, false)];
    }
    if x.maxTotal.Some? && invested + notional > x.maxTotal.value {
      return Some(TotalLimitGate), [RiskCheck(TotalLimitGate, false)];
    }
    return None, [];
  }

  method CheckOperations(x: RiskInputs) returns (failed: Option<Gate>, checks: seq<RiskCheck>)
    ensures failed == OperationRefusal(x) && LogOf(failed, checks)
  {
    if x.maxOpenOrders.Some? && x.openOrdersCount.GetOr(|x.openOrders|) >= x.maxOpenOrders.value {
      return Some(OpenOrdersGate), [RiskCheck(OpenOrdersGate, false)];
    }
    if x.retryCount >= 0 && x.orderRetryLimit.Some? && x.retryCount >= x.orderRetryLimit.value {
      return Some(RetryGate), [RiskCheck(RetryGate, false)];
    }
    return None, [];
  }

  method CheckAccount(x: RiskInputs, notional: real, ghost f: Figures)
      returns (failed: Option<Gate>, checks: seq<RiskCheck>)
    requires notional == f.notional
    ensures failed == AccountRefusal(x, f) && LogOf(failed, checks)
  {
    if x.geoblocked {
      return Some(GeoblockGate), [RiskCheck(GeoblockGate, false)];
    }
    if x.balanceUsdc.Some? && notional > x.balanceUsdc.value {
      return Some(BalanceGate), [RiskCheck(BalanceGate, false)];
    }
    if x.allowanceUsdc.Some? && notional > x.allowanceUsdc.value {
      return Some(AllowanceGate), [RiskCheck(AllowanceGate, false)];
    }
    return None, [];
  }

  method OrderbookDepthUsdc(book: Orderbook, priceCap: real) returns (depth: real)
    ensures depth == BookDepth(book, priceCap)
  {
    depth := 0.0;
    for k := 0 to |book.asks|
      invariant depth == LevelsNotional(book.asks[..k], Some(priceCap))
    {
      assert book.asks[..k + 1][..k] == book.asks[..k];
      if book.asks[k].price <= priceCap {
        depth := depth + book.asks[k].Notional();
      }
    }
    assert book.asks[..|book.asks|] == book.asks;
    if depth == 0.0 && book.bestAsk.Some? && book.bestAskSize.Some? {
      if book.bestAsk.value <= priceCap {
        return book.bestAsk.value * book.bestAskSize.value;
      }
    }
  }

  /** An order of the intent's token counts as a BUY in the way when it is an open BUY that is not matched yet. */
  lemma PendingExactlyWhenResting(orders: seq<Order>, intent: OrderIntent)
    ensures HasPendingBuyFor(orders, intent) <==>
      exists i :: 0 <= i < |orders| && orders[i].conditionId == intent.conditionId && orders[i].tokenId == intent.tokenId
                  && orders[i].OpenBuy() && orders[i].status != Matched
  {
    forall i | 0 <= i < |orders|
      ensures IsPendingBuy(orders[i], intent) <==>
        && orders[i].conditionId == intent.conditionId && orders[i].tokenId == intent.tokenId
        && orders[i].OpenBuy() && orders[i].status != Matched
    {
      OpenExactlyUnlessEnded(orders[i]);
    }
  }

  lemma OpenExactlyUnlessEnded(o: Order)
    ensures o.Open() <==> o.status !in {Cancelled, OrderRejected, OrderFailed, NoFill}
  {
    match o.status
    case Created => case Signed => case Submitted => case CancelRequested => case Matched => case PartiallyFilled =>
    case NoFill => case Live => case Cancelled => case OrderRejected => case OrderFailed =>
  }

  method HasPendingBuy(orders: seq<Order>, intent: OrderIntent) returns (found: bool)
    ensures found <==> HasPendingBuyFor(orders, intent)
    ensures found <==>
      exists i :: 0 <= i < |orders| && orders[i].conditionId == intent.conditionId && orders[i].tokenId == intent.tokenId
                  && orders[i].OpenBuy() && orders[i].status != Matched
  {
    PendingExactlyWhenResting(orders, intent);
    for k := 0 to |orders|
      invariant forall i :: 0 <= i < k ==> !IsPendingBuy(orders[i], intent)
    {
      if IsPendingBuy(orders[k], intent) {
        return true;
      }
    }
    return false;
  }

  method CheckBookAndOrders(intent: OrderIntent, x: RiskInputs, notional: real, ghost f: Figures)
      returns (failed: Option<Gate>, checks: seq<RiskCheck>)
    requires notional == f.notional && f.depth.Some? == x.orderbook.Some?
    requires f.depth.Some? ==> f.depth.value == BookDepth(x.orderbook.value, intent.price)
    ensures failed == BookRefusal(intent, x, f) && LogOf(failed, checks)
  {
    if x.orderbook.Some? {
      var depth := OrderbookDepthUsdc(x.orderbook.value, intent.price);
      if depth < notional {
        return Some(LiquidityGate), [RiskCheck(LiquidityGate, false)];
      }
    }
    var pending := HasPendingBuy(x.openOrders, intent);
    if pending {
      return Some(OpenBuyGate), [RiskCheck(OpenBuyGate, false)];
    }
    return None, [RiskCheck(OpenBuyGate, true)];
  }

  /** The second half of the checks. */
  method CheckLimits(intent: OrderIntent, x: RiskInputs, notional: real, invested: real, ghost f: Figures)
      returns (failed: Option<Gate>, checks: seq<RiskCheck>)
    requires notional == f.notional && invested == f.invested && f.exposure == MarketExposure(intent, x)
    requires f.depth.Some? == x.orderbook.Some?
    requires f.depth.Some? ==> f.depth.value == BookDepth(x.orderbook.value, intent.price)
    ensures failed
         == Else(ExposureRefusal(x, f), Else(OperationRefusal(x), Else(AccountRefusal(x, f), BookRefusal(intent, x, f))))
    ensures LogOf(failed, checks)
  {
    failed, checks := CheckExposure(intent, x, notional, invested, f);
    if failed.Some? {
      return;
    }
    var log;
    failed, log := CheckOperations(x);
    checks := checks + log;
    if failed.Some? {
      return;
    }
    failed, log := CheckAccount(x, notional, f);
    checks := checks + log;
    if failed.Some? {
      return;
    }
    failed, log := CheckBookAndOrders(intent, x, notional, f);
    checks := checks + log;
  }

  /** With a resting BUY of the token no check list passes, and the last gate refuses for nothing else. */
  lemma RestingBuyRefuses(intent: OrderIntent, x: RiskInputs)
    ensures Refusal(intent, x).None? ==>
      forall i :: 0 <= i < |x.openOrders| && x.openOrders[i].conditionId == intent.conditionId
                  && x.openOrders[i].tokenId == intent.tokenId && x.openOrders[i].OpenBuy() ==>
        x.openOrders[i].status == Matched
    ensures Refusal(intent, x) == Some(OpenBuyGate) ==>
      exists i :: 0 <= i < |x.openOrders| && x.openOrders[i].conditionId == intent.conditionId
                  && x.openOrders[i].tokenId == intent.tokenId && x.openOrders[i].OpenBuy()
                  && x.openOrders[i].status != Matched
  {
    PendingExactlyWhenResting(x.openOrders, intent);
    RefusalIsFirstFailure(intent, x);
    if Refusal(intent, x).None? {
      assert Holds(OpenBuyGate, intent, x);
    }
  }

  /** All checks in order. Only a thin book is worth a retry, and an intent passes exactly when no check failed. */
  method CheckOrderIntent(intent: OrderIntent, x: RiskInputs) returns (d: RiskDecision)
    ensures d.failed == Refusal(intent, x)
    ensures d.retryable <==> d.failed == Some(LiquidityGate)
    ensures d.Passed() <==> forall i :: 0 <= i < |d.checks| ==> d.checks[i].passed
    ensures d.Passed() ==>
      forall i :: 0 <= i < |x.openOrders| && x.openOrders[i].conditionId == intent.conditionId
                  && x.openOrders[i].tokenId == intent.tokenId && x.openOrders[i].OpenBuy() ==>
        x.openOrders[i].status == Matched
    ensures d.failed == Some(OpenBuyGate) ==>
      exists i :: 0 <= i < |x.openOrders| && x.openOrders[i].conditionId == intent.conditionId
                  && x.openOrders[i].tokenId == intent.tokenId && x.openOrders[i].OpenBuy()
                  && x.openOrders[i].status != Matched
  {
    RestingBuyRefuses(intent, x);
    ghost var f := FiguresOf(intent, x);
    var notional := intent.NotionalUsdc();
    var invested := PortfolioTotal(intent, x);
    var failed, checks := CheckIntent(x, notional, f);
    var log;
    if failed.None? {
      failed, log := CheckMarketState(x);
      checks := checks + log;
    }
    if failed.None? {
      failed, log := CheckPriceAndSize(intent, x, notional, f);
      checks := checks + log;
    }
    if failed.None? {
      failed, log := CheckLimits(intent, x, notional, invested, f);
      checks := checks + log;
    }
    assert LogOf(failed, checks);
    d := RiskDecision(failed, failed == Some(LiquidityGate), checks);
  }

  lemma RanksDiffer(a: Gate, b: Gate)
    requires a.Rank() == b.Rank()
    ensures a == b
  {}

  /** Only one gate can be the first that is not met, so it is where the checks refuse. */
  lemma OnlyFirstFailureRefuses(intent: OrderIntent, x: RiskInputs, gate: Gate)
    ensures FirstFailure(gate, intent, x) <==> Refusal(intent, x) == Some(gate)
  {
    RefusalIsFirstFailure(intent, x);
    if FirstFailure(gate, intent, x) {
      var refused := Refusal(intent, x).value;
      assert !(refused.Rank() < gate.Rank()) && !(gate.Rank() < refused.Rank());
      RanksDiffer(refused, gate);
    }
  }

  /** The checks refuse at the first gate that is not met: all earlier ones are, and none refuses when all are. */
  lemma RefusalIsFirstFailure(intent: OrderIntent, x: RiskInputs)
    ensures Refusal(intent, x).Some? ==> FirstFailure(Refusal(intent, x).value, intent, x)
    ensures Refusal(intent, x).None? <==> forall g: Gate :: Holds(g, intent, x)
  {
    var f := FiguresOf(intent, x);
    var refusal := Refusal(intent, x);
    forall h: Gate | refusal.None? || h.Rank() < refusal.value.Rank() ensures Meets(h, intent, x, f) {
      EarlierGatesAreMet(h, intent, x);
    }
    if refusal.Some? {
      RefusedGateIsNotMet(intent, x);
    }
  }

  /** What the gates in front of the limits ask for, in terms of the market, the flags given and the book. */
  lemma MarketGatesMean(intent: OrderIntent, x: RiskInputs)
    ensures Holds(MarketActiveGate, intent, x) <==>
      if x.marketActive.Some? then x.marketActive.value else x.market.None? || x.market.value.tradingStatus == Eligible
    ensures Holds(MarketOpenGate, intent, x) <==>
      if x.marketOpen.Some? then x.marketOpen.value else x.market.None? || x.market.value.tradingStatus == Eligible
    ensures Holds(ClobGate, intent, x) <==> x.clobEnabled != Some(false)
    ensures Holds(ResolvedGate, intent, x) <==>
      if x.resolved.Some? then !x.resolved.value else x.market.None? || x.market.value.tradingStatus != Resolved
    ensures Holds(CancelledGate, intent, x) <==> x.cancelled != Some(true)
    ensures Holds(ArchivedGate, intent, x) <==> x.archived != Some(true)
    ensures Holds(MarketStatusGate, intent, x) <==> x.market.None? || x.market.value.tradingStatus == Eligible
  {
    StatusGatesMean(intent, x, FiguresOf(intent, x));
    FlagGatesMean(intent, x, FiguresOf(intent, x));
  }

  lemma StatusGatesMean(intent: OrderIntent, x: RiskInputs, f: Figures)
    ensures Meets(MarketActiveGate, intent, x, f) <==>
      if x.marketActive.Some? then x.marketActive.value else x.market.None? || x.market.value.tradingStatus == Eligible
    ensures Meets(MarketOpenGate, intent, x, f) <==>
      if x.marketOpen.Some? then x.marketOpen.value else x.market.None? || x.market.value.tradingStatus == Eligible
    ensures Meets(MarketStatusGate, intent, x, f) <==> x.market.None? || x.market.value.tradingStatus == Eligible
  {}

  lemma FlagGatesMean(intent: OrderIntent, x: RiskInputs, f: Figures)
    ensures Meets(ClobGate, intent, x, f) <==> x.clobEnabled != Some(false)
    ensures Meets(ResolvedGate, intent, x, f) <==>
      if x.resolved.Some? then !x.resolved.value else x.market.None? || x.market.value.tradingStatus != Resolved
    ensures Meets(CancelledGate, intent, x, f) <==> x.cancelled != Some(true)
    ensures Meets(ArchivedGate, intent, x, f) <==> x.archived != Some(true)
  {}

  lemma WholeTicks(price: real, tick: real, n: int)
    requires tick > 0.0 && price == n as real * tick
    ensures IsMultipleOfTick(price, tick)
  {
    assert price / tick == n as real;
  }

  /** A price is on the tick exactly when it is a whole number of the book's ticks, or else the market's. */
  lemma TickGateMeans(intent: OrderIntent, x: RiskInputs)
    ensures Holds(TickSizeGate, intent, x) <==>
      if x.orderbook.Some? && x.orderbook.value.tickSize.Some? then Whole(intent.price, x.orderbook.value.tickSize.value)
      else x.market.Some? ==> Whole(intent.price, x.market.value.tickSize)
  {
    if EffectiveTickSize(x).Some? {
      var tick := EffectiveTickSize(x).value;
      if IsMultipleOfTick(intent.price, tick) {
        assert IsTicks(intent.price, tick, (intent.price / tick).Floor);
      } else if n: int :| tick > 0.0 && IsTicks(intent.price, tick, n) {
        WholeTicks(intent.price, tick, n);
      }
    }
  }

  predicate IsTicks(price: real, tick: real, n: int) { price == n as real * tick }

  ghost predicate Whole(price: real, tick: real) { tick > 0.0 && exists n: int :: IsTicks(price, tick, n) }

  /** The least order: both the market's minimum and one that is given. */
  lemma MinimumGateMeans(intent: OrderIntent, x: RiskInputs)
    ensures Holds(MinOrderGate, intent, x) <==>
      && (x.market.Some? ==> intent.NotionalUsdc() >= x.market.value.minOrderSize)
      && (x.minOrderSize.Some? ==> intent.NotionalUsdc() >= x.minOrderSize.value)
      && (x.market.None? && x.minOrderSize.None? ==> intent.NotionalUsdc() >= 0.0)
    ensures intent.BuyIntent? ==> intent.NotionalUsdc() == intent.amountUsdc
    ensures intent.SellIntent? ==> intent.NotionalUsdc() == intent.price * intent.sizeShares
  {}

  lemma EarlierGatesAreMet(h: Gate, intent: OrderIntent, x: RiskInputs)
    requires Refusal(intent, x).None? || h.Rank() < Refusal(intent, x).value.Rank()
    ensures Holds(h, intent, x)
  {
    var f := FiguresOf(intent, x);
    if h.Rank() < 9 {
      MarketGatesAreMet(h, intent, x, f);
    } else if h.Rank() < 15 {
      PriceGatesAreMet(h, intent, x, f);
    } else {
      AccountGatesAreMet(h, intent, x, f);
    }
  }

  /** The checks get past a gate of this rank. */
  predicate GetsPast(refusal: Option<Gate>, rank: int) { refusal.None? || rank < refusal.value.Rank() }

  lemma MarketGatesAreMet(h: Gate, intent: OrderIntent, x: RiskInputs, f: Figures)
    requires h.Rank() < 9 && GetsPast(StagesRefuse(intent, x, f), h.Rank())
    ensures Meets(h, intent, x, f)
  {
    assert GetsPast(IntentRefusal(x, f), h.Rank());
    if h.Rank() >= 2 {
      assert IntentRefusal(x, f).None? && GetsPast(MarketRefusal(x), h.Rank());
    }
  }

  lemma PriceGatesAreMet(h: Gate, intent: OrderIntent, x: RiskInputs, f: Figures)
    requires 9 <= h.Rank() < 15 && GetsPast(StagesRefuse(intent, x, f), h.Rank())
    ensures Meets(h, intent, x, f)
  {
    assert IntentRefusal(x, f).None? && MarketRefusal(x).None?;
    assert GetsPast(PriceRefusal(intent, x, f), h.Rank());
    if h.Rank() >= 12 {
      assert PriceRefusal(intent, x, f).None? && GetsPast(ExposureRefusal(x, f), h.Rank());
    }
  }

  lemma AccountGatesAreMet(h: Gate, intent: OrderIntent, x: RiskInputs, f: Figures)
    requires 15 <= h.Rank() && GetsPast(StagesRefuse(intent, x, f), h.Rank())
    ensures Meets(h, intent, x, f)
  {
    EarlyStagesPass(intent, x, f, h.Rank());
    assert GetsPast(OperationRefusal(x), h.Rank());
    if h.Rank() >= 17 {
      assert OperationRefusal(x).None? && GetsPast(AccountRefusal(x, f), h.Rank());
    }
    if h.Rank() >= 20 {
      assert AccountRefusal(x, f).None? && GetsPast(BookRefusal(intent, x, f), h.Rank());
    }
  }

  lemma EarlyStagesPass(intent: OrderIntent, x: RiskInputs, f: Figures, rank: int)
    requires 15 <= rank && GetsPast(StagesRefuse(intent, x, f), rank)
    ensures IntentRefusal(x, f).None? && MarketRefusal(x).None? && PriceRefusal(intent, x, f).None?
    ensures ExposureRefusal(x, f).None?
  {}

  lemma RefusedGateIsNotMet(intent: OrderIntent, x: RiskInputs)
    requires Refusal(intent, x).Some?
    ensures !Holds(Refusal(intent, x).value, intent, x)
  {
    var f := FiguresOf(intent, x);
    var g := Refusal(intent, x).value;
    if IntentRefusal(x, f) == Some(g) || MarketRefusal(x) == Some(g) {
      MarketStageRefusesUnmet(g, intent, x, f);
    } else if PriceRefusal(intent, x, f) == Some(g) || ExposureRefusal(x, f) == Some(g) {
      PriceStageRefusesUnmet(g, intent, x, f);
    } else {
      AccountStageRefusesUnmet(g, intent, x, f);
    }
  }

  lemma MarketStageRefusesUnmet(g: Gate, intent: OrderIntent, x: RiskInputs, f: Figures)
    requires IntentRefusal(x, f) == Some(g) || MarketRefusal(x) == Some(g)
    ensures !Meets(g, intent, x, f)
  {}

  lemma PriceStageRefusesUnmet(g: Gate, intent: OrderIntent, x: RiskInputs, f: Figures)
    requires PriceRefusal(intent, x, f) == Some(g) || ExposureRefusal(x, f) == Some(g)
    ensures !Meets(g, intent, x, f)
  {}

  lemma AccountStageRefusesUnmet(g: Gate, intent: OrderIntent, x: RiskInputs, f: Figures)
    requires OperationRefusal(x) == Some(g) || AccountRefusal(x, f) == Some(g) || BookRefusal(intent, x, f) == Some(g)
    ensures !Meets(g, intent, x, f)
  {}
}
