/**
 * How order results change the account state: bought shares, shares being sold, and the
 * orders behind them. Each projection is a function of the state; the projector's methods
 * carry it out on the store, one call at a time.
 */
module Projection {
  import opened Wrappers
  import opened Domain
  import opened AccountStore

  datatype ResultStatus =
    | FullFill | PartialFill | NothingFilled | Resting | Refused | Failed | CancelDone | UnknownTimeout

  datatype OrderResult = OrderResult(
    traceId: string,
    conditionId: string,
    tokenId: string,
    status: ResultStatus,
    fromIntent: bool,
    intentKey: Option<string>,
    orderId: Option<string>,
    side: Option<Side>,
    orderType: Option<OrderType>,
    price: Option<real>,
    requestedAmountUsdc: Option<real>,
    requestedSizeShares: Option<real>,
    matchedShares: real,
    remainingShares: real,
    spentUsdc: real,
    notionalUsdc: real)
  {
    function Key(): Key { (conditionId, tokenId) }
  }

  datatype TradeIntent =
    | BuyTrade(traceId: string, conditionId: string, tokenId: string, price: real, amountUsdc: real,
               orderType: OrderType, idempotencyKey: Option<string>)
    | SellTrade(traceId: string, conditionId: string, tokenId: string, price: real, sizeShares: real,
                orderType: OrderType, idempotencyKey: Option<string>)
  {
    function Key(): Key { (conditionId, tokenId) }

    function Side(): Side { if BuyTrade? then Buy else Sell }
  }

  function OrderStatusOf(status: ResultStatus): OrderStatus {
    match status
    case FullFill => Matched
    case PartialFill => PartiallyFilled
    case NothingFilled => NoFill
    case Resting => Live
    case Refused => OrderRejected
    case Failed => OrderFailed
    case CancelDone => Cancelled
    case UnknownTimeout => OrderFailed
  }

  function NotNegative(x: real): real { if x < 0.0 then 0.0 else x }

  /** Python's `a or b` on amounts: an absent amount and zero both count as missing. */
  function NonZero(a: Option<real>, b: real): real {
    if a.Some? && a.value != 0.0 then a.value else b
  }

  function NonZeroOr(a: Option<real>, b: Option<real>): Option<real> {
    if a.Some? && a.value != 0.0 then a else b
  }

  function ValueAt(price: real, size: real): real { price * size }

  function FilledShares(r: OrderResult): real {
    if r.matchedShares > 0.0 then r.matchedShares
    else if r.requestedSizeShares.Some? then r.requestedSizeShares.value - r.remainingShares
    else if r.notionalUsdc > 0.0 && r.price.Some? && r.price.value > 0.0 then r.notionalUsdc / r.price.value
    else 0.0
  }

  function SpentUsdc(r: OrderResult): real {
    if r.spentUsdc > 0.0 then r.spentUsdc
    else if r.price.Some? && r.matchedShares > 0.0 then r.price.value * r.matchedShares
    else 0.0
  }

  predicate HasUnexpectedRestingOrder(r: OrderResult) {
    r.orderType == Some(Fak) && r.status == Resting
  }

  function OpenSharesOf(o: Order): Option<real> {
    if o.remainingShares.Some? then Some(NotNegative(o.remainingShares.value))
    else if o.sizeShares.Some? then Some(NotNegative(o.sizeShares.value))
    else None
  }

  function OpenSizeOf(o: Order): real {
    if OpenSharesOf(o).Some? then OpenSharesOf(o).value
    else if o.amountUsdc.Some? then NotNegative(o.amountUsdc.value)
    else 0.0
  }

  function PositionIn(snapshot: Option<AccountSnapshot>, key: Key): Option<Position> {
    if snapshot.None? then None else snapshot.value.GetPosition(key)
  }

  function RefreshBalances(s: AccountState, snapshot: Option<AccountSnapshot>): AccountState {
    if snapshot.None? then s
    else Step(s, UpdateBalances(Some(snapshot.value.balanceUsdc), Some(snapshot.value.allowanceUsdc)))
  }

  // -------------------------------------------------------------------- BUY results

  function Bought(r: OrderResult, position: Option<Position>): Position {
    if position.None? then
      Position(r.conditionId, r.tokenId, FilledShares(r), SpentUsdc(r), 0.0, 0.0, 0.0, 0.0)
    else
      var p := position.value;
      p.(shares := p.shares + FilledShares(r), costUsdc := p.costUsdc + SpentUsdc(r),
         openBuyShares := 0.0, pendingBuyShares := 0.0, confirmedShares := p.confirmedShares + FilledShares(r))
  }

  predicate BuyChangesPosition(r: OrderResult, position: Option<Position>) {
    r.status in {FullFill, PartialFill, NothingFilled} && (position.Some? || FilledShares(r) > 0.0)
  }

  function BuyResult(s: AccountState, r: OrderResult, snapshot: Option<AccountSnapshot>): AccountState {
    var position := PositionIn(snapshot, r.Key());
    if !BuyChangesPosition(r, position) then s
    else RefreshBalances(Step(s, UpsertPosition(Bought(r, position))), snapshot)
  }

  // ------------------------------------------------------------------- SELL results

  predicate Answers(o: Order, r: OrderResult) {
    o.orderId == r.orderId || (r.orderId.None? && o.idempotencyKey == (if r.fromIntent then r.intentKey else None))
  }

  /** The first order of the market a result answers. */
  function AnsweredOrder(orders: seq<Order>, r: OrderResult): Option<Order> {
    if orders == [] then None
    else if Answers(orders[0], r) then Some(orders[0])
    else AnsweredOrder(orders[1..], r)
  }

  /** What was still open of the order a result answers. */
  function ExistingOrderSize(orders: seq<Order>, r: OrderResult): real {
    var answered := AnsweredOrder(orders, r);
    if answered.None? then 0.0 else NonZero(answered.value.remainingShares, NonZero(answered.value.sizeShares, 0.0))
  }

  function RemainingOf(r: OrderResult, intentSize: real): real {
    NotNegative(if r.status in {Resting, PartialFill} && r.remainingShares <= 0.0
                then intentSize - FilledShares(r) else r.remainingShares)
  }

  function SellOrderId(r: OrderResult, intent: TradeIntent): string {
    FirstText(r.orderId, FirstText(intent.idempotencyKey, r.traceId + ":" + r.conditionId + ":" + r.tokenId + ":sell"))
  }

  function SellOrder(r: OrderResult, intent: TradeIntent): Order
    requires intent.SellTrade?
  {
    var id := SellOrderId(r, intent);
    Order(r.conditionId, r.tokenId, Sell, r.orderType.GetOr(intent.orderType), NonZero(r.price, intent.price), None,
          Some(NonZero(r.requestedSizeShares, intent.sizeShares)), Some(RemainingOf(r, intent.sizeShares)),
          Some(r.notionalUsdc), Some(id), Some(FirstText(intent.idempotencyKey, id)), OrderStatusOf(r.status))
  }

  function SellPosition(s: AccountState, r: OrderResult, snapshot: Option<AccountSnapshot>): Option<Position> {
    var current := s.Published().GetPosition(r.Key());
    if current.Some? then current else PositionIn(snapshot, r.Key())
  }

  function SellOrders(s: AccountState, r: OrderResult, intent: TradeIntent): AccountState
    requires intent.SellTrade?
  {
    if r.status == Resting || r.status == PartialFill then Step(s, UpsertOrder(SellOrder(r, intent)))
    else Step(s, RemoveOrder(SellOrderId(r, intent)))
  }

  /** The position after a SELL result: its open shares lose what was open of the order, and gain what is left of it. */
  function SoldPosition(s: AccountState, r: OrderResult, p: Position, intent: TradeIntent): Position
    requires intent.SellTrade?
  {
    var existing := ExistingOrderSize(s.Published().OpenOrdersForMarket(r.Key()), r);
    p.(openSellShares :=
      NotNegative(NotNegative(p.openSellShares - existing) + RemainingOf(r, intent.sizeShares)))
  }

  predicate SellChanges(r: OrderResult) { r.status in {FullFill, PartialFill, Resting} }

  function SellResult(s: AccountState, r: OrderResult, snapshot: Option<AccountSnapshot>, intent: TradeIntent): AccountState
    requires intent.SellTrade?
  {
    var position := SellPosition(s, r, snapshot);
    if !SellChanges(r) || position.None? then s
    else Step(SellOrders(s, r, intent), UpsertPosition(SoldPosition(s, r, position.value, intent)))
  }

  // ---------------------------------------------------------------------- result flags

  function ResultFlags(s: AccountState, r: OrderResult, snapshot: Option<AccountSnapshot>): AccountState {
    var paused :=
      if HasUnexpectedRestingOrder(r) then
        Step(Step(s, SetAllowNewEntries(false)),
             PauseMarket(BuildPause(r.conditionId, UNEXPECTED_RESTING_ORDER, Some(ByRisk), None)))
      else s;
    var flagged := if r.status in {Refused, Failed, UnknownTimeout} then Step(paused, SetAllowNewEntries(true)) else paused;
    RefreshBalances(flagged, snapshot)
  }

  // ------------------------------------------------------------------ submitted intents

  function SubmittedId(intent: TradeIntent): string {
    FirstText(intent.idempotencyKey, intent.traceId + ":" + intent.conditionId + ":" + intent.tokenId + ":"
                                     + (if intent.BuyTrade? then "buy" else "sell"))
  }

  function SubmittedOrder(intent: TradeIntent): Order {
    var id := SubmittedId(intent);
    var size := if intent.SellTrade? then Some(intent.sizeShares) else None;
    var amount := if intent.BuyTrade? then Some(intent.amountUsdc) else None;
    var notional := if intent.BuyTrade? then intent.amountUsdc else intent.price * intent.sizeShares;
    Order(intent.conditionId, intent.tokenId, intent.Side(), intent.orderType, intent.price, amount, size, size,
          Some(notional), Some(id), Some(FirstText(intent.idempotencyKey, id)), Submitted)
  }

  function SharesFor(intent: TradeIntent): real {
    if intent.BuyTrade? && intent.price > 0.0 then intent.amountUsdc / intent.price else 0.0
  }

  function SubmittedPosition(intent: TradeIntent, snapshot: AccountSnapshot): Position {
    var current := snapshot.GetPosition(intent.Key());
    var buying := SharesFor(intent);
    if current.None? then
      Position(intent.conditionId, intent.tokenId, 0.0, 0.0, buying,
               if intent.SellTrade? then intent.sizeShares else 0.0, buying, 0.0)
    else if intent.SellTrade? then
      current.value.(openSellShares := snapshot.OpenSellShares(intent.Key()) + intent.sizeShares)
    else
      current.value.(openBuyShares := current.value.openBuyShares + buying,
                     pendingBuyShares := current.value.pendingBuyShares + buying)
  }

  function SubmittedIntent(s: AccountState, intent: TradeIntent, snapshot: AccountSnapshot): AccountState {
    Step(Step(s, UpsertOrder(SubmittedOrder(intent))), UpsertPosition(SubmittedPosition(intent, snapshot)))
  }

  // ------------------------------------------------------------------ replaced orders

  function BuyWeight(o: Order): real {
    if !o.OpenBuy() then 0.0 else OpenSharesOf(o).GetOr(0.0)
  }

  function BuyShares(orders: seq<Order>): real {
    if orders == [] then 0.0
    else BuyShares(orders[..|orders| - 1]) + BuyWeight(orders[|orders| - 1])
  }

  /** Recomputes the open shares of a position from the orders of its token. */
  function RefreshCoverage(s: AccountState, key: Key): AccountState {
    var snapshot := s.Published();
    var position := snapshot.GetPosition(key);
    var buying := BuyShares(snapshot.OpenOrdersForMarket(key));
    var selling := snapshot.OpenSellShares(key);
    if position.None? && buying <= 0.0 && selling <= 0.0 then s
    else
      var p := position.GetOr(Position(key.0, key.1, 0.0, 0.0, 0.0, 0.0, 0.0, 0.0));
      Step(s, UpsertPosition(p.(openBuyShares := buying, openSellShares := selling, pendingBuyShares := buying)))
  }

  function ReplacementSize(source: Order, r: OrderResult): Option<real> {
    NonZeroOr(r.requestedSizeShares, NonZeroOr(OpenSharesOf(source), source.sizeShares))
  }

  function ReplacementRemaining(r: OrderResult, size: Option<real>): real {
    NotNegative(
      if r.status in {Resting, PartialFill} && r.remainingShares <= 0.0 && size.Some?
      then NotNegative(size.value - r.matchedShares) else r.remainingShares)
  }

  function ReplacementOrder(source: Order, r: OrderResult): Order {
    var id := FirstText(r.orderId, r.traceId);
    var side := r.side.GetOr(source.side);
    var price := NonZero(r.price, source.price);
    var size := ReplacementSize(source, r);
    var amount := if r.requestedAmountUsdc.None? && side == Buy then source.amountUsdc else r.requestedAmountUsdc;
    var notional := if r.notionalUsdc == 0.0 && size.Some? then ValueAt(price, size.value) else r.notionalUsdc;
    Order(r.conditionId, r.tokenId, side, r.orderType.GetOr(source.orderType), price, amount, size,
          Some(ReplacementRemaining(r, size)), Some(notional), Some(id),
          if r.fromIntent then r.intentKey else Some(id), OrderStatusOf(r.status))
  }

  /** The replacement is kept as an open order unless it ended without one; a full fill keeps it. */
  predicate ReplacementStays(status: OrderStatus) {
    status in {Created, Signed, Submitted, Live, Matched, PartiallyFilled}
  }

  function ReplacedOrders(s: AccountState, source: Order, r: OrderResult): AccountState {
    var removed := Step(s, RemoveOrder(OrderKey(source)));
    if ReplacementStays(OrderStatusOf(r.status)) then Step(removed, UpsertOrder(ReplacementOrder(source, r)))
    else removed
  }

  function ReplaceResult(s: AccountState, source: Order, r: OrderResult): AccountState {
    RefreshCoverage(ReplacedOrders(s, source, r), (source.conditionId, source.tokenId))
  }

  // ------------------------------------------------------------------------- methods

  class AccountStateProjector {
    const store: AccountStateStore

    constructor (store: AccountStateStore)
      ensures this.store == store
    {
      this.store := store;
    }

    method RefreshBalancesFrom(snapshot: Option<AccountSnapshot>)
      requires store.Valid()
      modifies store
      ensures store.Valid() && store.State() == RefreshBalances(old(store.State()), snapshot)
    {
      if snapshot.None? {
        return;
      }
      store.UpdateBalancesOf(Some(snapshot.value.balanceUsdc), Some(snapshot.value.allowanceUsdc));
    }

    method ApplyBuyResult(r: OrderResult, snapshot: Option<AccountSnapshot>)
      requires store.Valid()
      modifies store
      ensures store.Valid() && store.State() == BuyResult(old(store.State()), r, snapshot)
    {
      if r.status !in {FullFill, PartialFill, NothingFilled} {
        return;
      }
      var position := PositionIn(snapshot, r.Key());
      if position.None? && FilledShares(r) <= 0.0 {
        return;
      }
      store.Upsert(Bought(r, position));
      RefreshBalancesFrom(snapshot);
    }

    method FindExisting(orders: seq<Order>, r: OrderResult) returns (size: real)
      ensures size == ExistingOrderSize(orders, r)
    {
      for k := 0 to |orders|
        invariant AnsweredOrder(orders, r) == AnsweredOrder(orders[k..], r)
      {
        if Answers(orders[k], r) {
          return NonZero(orders[k].remainingShares, NonZero(orders[k].sizeShares, 0.0));
        }
      }
      return 0.0;
    }

    method SettleSellOrder(r: OrderResult, intent: TradeIntent)
      requires store.Valid() && intent.SellTrade?
      modifies store
      ensures store.Valid() && store.State() == SellOrders(old(store.State()), r, intent)
    {
      if r.status == Resting || r.status == PartialFill {
        store.UpsertOpenOrder(SellOrder(r, intent));
      } else {
        store.RemoveOpenOrder(SellOrderId(r, intent));
      }
    }

    method ApplySellResult(r: OrderResult, snapshot: Option<AccountSnapshot>, intent: TradeIntent)
      requires store.Valid() && intent.SellTrade?
      modifies store
      ensures store.Valid() && store.State() == SellResult(old(store.State()), r, snapshot, intent)
    {
      ghost var before := store.State();
      if !SellChanges(r) {
        return;
      }
      var current := store.snapshot;
      assert current == before.Published();
      var position := current.GetPosition(r.Key());
      if position.None? {
        position := PositionIn(snapshot, r.Key());
      }
      if position.None? {
        return;
      }
      var remaining := RemainingOf(r, intent.sizeShares);
      var existing := FindExisting(current.OpenOrdersForMarket(r.Key()), r);
      var openSell := NotNegative(position.value.openSellShares - existing);
      openSell := openSell + remaining;
      if openSell < 0.0 {
        openSell := 0.0;
      }
      assert position == SellPosition(before, r, snapshot);
      assert position.value.(openSellShares := openSell) == SoldPosition(before, r, position.value, intent);
      SettleSellOrder(r, intent);
      assert store.State() == SellOrders(before, r, intent);
      store.Upsert(position.value.(openSellShares := openSell));
    }

    method ApplyResultFlags(r: OrderResult, snapshot: Option<AccountSnapshot>)
      requires store.Valid()
      modifies store
      ensures store.Valid() && store.State() == ResultFlags(old(store.State()), r, snapshot)
    {
      if HasUnexpectedRestingOrder(r) {
        store.SetAllow(false);
        store.Pause(r.conditionId, UNEXPECTED_RESTING_ORDER, Some(ByRisk), None);
      }
      if r.status in {Refused, Failed, UnknownTimeout} {
        store.SetAllow(true);
      }
      RefreshBalancesFrom(snapshot);
    }

    method ApplySubmittedIntent(intent: TradeIntent, snapshot: AccountSnapshot)
      requires store.Valid()
      modifies store
      ensures store.Valid() && store.State() == SubmittedIntent(old(store.State()), intent, snapshot)
    {
      var buying := SharesFor(intent);
      var found := snapshot.GetPosition(intent.Key());
      var position;
      if found.None? {
        position := Position(intent.conditionId, intent.tokenId, 0.0, 0.0, buying,
                             if intent.SellTrade? then intent.sizeShares else 0.0, buying, 0.0);
      } else if intent.SellTrade? {
        var selling := snapshot.OpenSellSharesForMarket(intent.Key());
        position := found.value.(openSellShares := selling + intent.sizeShares);
      } else {
        position := found.value.(openBuyShares := found.value.openBuyShares + buying);
        position := position.(pendingBuyShares := position.pendingBuyShares + buying);
      }
      store.UpsertOpenOrder(SubmittedOrder(intent));
      store.Upsert(position);
    }

    method SumOpenBuyShares(orders: seq<Order>) returns (total: real)
      ensures total == BuyShares(orders)
    {
      total := 0.0;
      for k := 0 to |orders|
        invariant total == BuyShares(orders[..k])
      {
        assert orders[..k + 1][..k] == orders[..k];
        if orders[k].side == Buy && orders[k].Open() {
          total := total + OpenSharesOf(orders[k]).GetOr(0.0);
        }
      }
      assert orders[..|orders|] == orders;
    }

    method RefreshPositionCoverage(key: Key)
      requires store.Valid()
      modifies store
      ensures store.Valid() && store.State() == RefreshCoverage(old(store.State()), key)
    {
      var snapshot := store.snapshot;
      var position := snapshot.GetPosition(key);
      var buying := SumOpenBuyShares(snapshot.OpenOrdersForMarket(key));
      var selling := snapshot.OpenSellSharesForMarket(key);
      if position.None? && buying <= 0.0 && selling <= 0.0 {
        return;
      }
      var p := position.GetOr(Position(key.0, key.1, 0.0, 0.0, 0.0, 0.0, 0.0, 0.0));
      store.Upsert(p.(openBuyShares := buying, openSellShares := selling, pendingBuyShares := buying));
    }

    method SwapOrders(source: Order, r: OrderResult)
      requires store.Valid()
      modifies store
      ensures store.Valid() && store.State() == ReplacedOrders(old(store.State()), source, r)
    {
      store.RemoveOpenOrder(OrderKey(source));
      if ReplacementStays(OrderStatusOf(r.status)) {
        store.UpsertOpenOrder(ReplacementOrder(source, r));
      }
    }

    method ApplyReplaceResult(source: Order, r: OrderResult)
      requires store.Valid()
      modifies store
      ensures store.Valid() && store.State() == ReplaceResult(old(store.State()), source, r)
    {
      SwapOrders(source, r);
      RefreshPositionCoverage((source.conditionId, source.tokenId));
    }
  }
}
