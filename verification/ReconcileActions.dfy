/**
 * Carrying out one reconcile action: the exchange answers, and the account state follows.
 * What the exchange answered is a parameter of every operation.
 */
module ReconcileActions {
  import opened Wrappers
  import opened Domain
  import opened AccountStore
  import opened Projection

  datatype CancelAction = CancelAction(
    conditionId: string,
    tokenId: string,
    sourceOrderId: string,
    sourceSide: Option<Side>,
    targetSizeShares: Option<real>)
  {
    function Key(): Key { (conditionId, tokenId) }
  }

  datatype ReplaceAction = ReplaceAction(
    conditionId: string,
    tokenId: string,
    orderId: string,
    newPrice: real,
    sizeShares: real,
    idempotencyKey: Option<string>)
  {
    function Key(): Key { (conditionId, tokenId) }
  }

  /** Answer to a replace request: an order result, or acceptance without one. */
  datatype ReplaceAnswer = NotSubmitted | AcceptedSilently | Answered(result: OrderResult)
  {
    predicate Succeeded() {
      AcceptedSilently? || (Answered? && result.status !in {Refused, Failed, UnknownTimeout})
    }
  }

  // ------------------------------------------------------------------------ cancel

  function CancelledPosition(action: CancelAction, p: Position): Position {
    if action.sourceSide == Some(Buy) then p.(openBuyShares := 0.0, pendingBuyShares := 0.0)
    else p.(openSellShares := NotNegative(p.openSellShares - action.targetSizeShares.GetOr(0.0)))
  }

  function CancelApplied(s: AccountState, action: CancelAction, snapshot: AccountSnapshot): AccountState {
    var removed := Step(s, RemoveOrder(action.sourceOrderId));
    var position := snapshot.GetPosition(action.Key());
    if position.None? then removed
    else Step(removed, UpsertPosition(CancelledPosition(action, position.value)))
  }

  // ----------------------------------------------------------------------- replace

  predicate Named(o: Order, orderId: string) {
    (if o.orderId.Some? && o.orderId.value != "" then o.orderId else o.idempotencyKey) == Some(orderId)
  }

  function FindNamed(orders: seq<Order>, orderId: string): Option<Order> {
    if orders == [] then None
    else if Named(orders[0], orderId) then Some(orders[0])
    else FindNamed(orders[1..], orderId)
  }

  function SourceOrder(s: AccountState, action: ReplaceAction, snapshot: AccountSnapshot): Option<Order> {
    var current := FindNamed(s.Published().OpenOrdersForMarket(action.Key()), action.orderId);
    if current.Some? then current else FindNamed(snapshot.OpenOrdersForMarket(action.Key()), action.orderId)
  }

  function NewOrderId(action: ReplaceAction, answer: ReplaceAnswer): string {
    if answer.Answered? then FirstText(answer.result.orderId, action.orderId) else action.orderId
  }

  function NewSide(source: Option<Order>, answer: ReplaceAnswer): Side {
    var own := if source.None? then Sell else source.value.side;
    if answer.Answered? then answer.result.side.GetOr(own) else own
  }

  function NewRemaining(action: ReplaceAction, answer: ReplaceAnswer): real {
    NotNegative(
      if !answer.Answered? then action.sizeShares
      else if answer.result.status in {Resting, PartialFill} && answer.result.remainingShares <= 0.0
      then NotNegative(action.sizeShares - answer.result.matchedShares)
      else answer.result.remainingShares)
  }

  function NewStatus(answer: ReplaceAnswer): OrderStatus {
    if answer.Answered? then OrderStatusOf(answer.result.status) else Submitted
  }

  /** Unlike a manual replacement, one that matched in full is not kept. */
  predicate ReplaceStays(answer: ReplaceAnswer) {
    NewStatus(answer) in {Submitted, Live, PartiallyFilled, Created, Signed}
  }

  function NewOrder(action: ReplaceAction, source: Option<Order>, answer: ReplaceAnswer): Order {
    var price := if answer.Answered? then NonZero(answer.result.price, action.newPrice) else action.newPrice;
    var ownType := if source.None? then Gtc else source.value.orderType;
    var id := NewOrderId(action, answer);
    Order(action.conditionId, action.tokenId, NewSide(source, answer),
          if answer.Answered? then answer.result.orderType.GetOr(ownType) else ownType,
          price, None, Some(action.sizeShares), Some(NewRemaining(action, answer)),
          Some(ValueAt(price, action.sizeShares)), Some(id), Some(FirstText(action.idempotencyKey, id)), NewStatus(answer))
  }

  function ReplacedPosition(p: Position, source: Option<Order>, side: Side, remaining: real): Position {
    if side == Sell then
      var size := if source.None? then 0.0 else OpenSizeOf(source.value);
      p.(openSellShares := NotNegative(p.openSellShares - size) + remaining)
    else
      var shares := if source.None? then 0.0 else OpenSharesOf(source.value).GetOr(0.0);
      var buying := NotNegative(p.openBuyShares - shares) + remaining;
      p.(openBuyShares := buying, pendingBuyShares := buying)
  }

  function ReplaceOrders(s: AccountState, action: ReplaceAction, source: Option<Order>, answer: ReplaceAnswer): AccountState {
    var removed := Step(s, RemoveOrder(action.orderId));
    if ReplaceStays(answer) then
      Step(removed, UpsertOrder(NewOrder(action, source, answer)))
    else Step(removed, RemoveOrder(NewOrderId(action, answer)))
  }

  function ReplaceApplied(s: AccountState, action: ReplaceAction, answer: ReplaceAnswer, snapshot: AccountSnapshot): AccountState {
    if !answer.Succeeded() then s
    else
      var source := SourceOrder(s, action, snapshot);
      var replaced := ReplaceOrders(s, action, source, answer);
      var current := s.Published().GetPosition(action.Key());
      var position := if current.Some? then current else snapshot.GetPosition(action.Key());
      if position.None? then replaced
      else Step(replaced, UpsertPosition(ReplacedPosition(position.value, source, NewSide(source, answer),
                                                          NewRemaining(action, answer))))
  }

  class ReconcileActionApplier {
    const store: AccountStateStore

    constructor (store: AccountStateStore)
      ensures this.store == store
    {
      this.store := store;
    }

    method ApplyResume(conditionId: string)
      requires store.Valid()
      modifies store
      ensures store.Valid() && store.State() == Step(old(store.State()), ResumeMarket(conditionId))
    {
      store.Resume(conditionId);
    }

    method ApplyCancel(action: CancelAction, cancelled: bool, snapshot: AccountSnapshot)
      requires store.Valid()
      modifies store
      ensures store.Valid()
      ensures store.State() == if cancelled then CancelApplied(old(store.State()), action, snapshot) else old(store.State())
    {
      if !cancelled {
        return;
      }
      store.RemoveOpenOrder(action.sourceOrderId);
      var position := snapshot.GetPosition(action.Key());
      if position.Some? {
        if action.sourceSide == Some(Buy) {
          store.Upsert(position.value.(openBuyShares := 0.0, pendingBuyShares := 0.0));
        } else {
          var remaining := NotNegative(position.value.openSellShares - action.targetSizeShares.GetOr(0.0));
          store.Upsert(position.value.(openSellShares := remaining));
        }
      }
    }

    method ApplySubmitOrder(intent: TradeIntent, submitted: bool, snapshot: AccountSnapshot)
      requires store.Valid()
      modifies store
      ensures store.Valid()
      ensures store.State() == if submitted then SubmittedIntent(old(store.State()), intent, snapshot) else old(store.State())
    {
      if submitted {
        var projector := new AccountStateProjector(store);
        projector.ApplySubmittedIntent(intent, snapshot);
      }
    }

    method FindOpenOrder(orders: seq<Order>, orderId: string) returns (found: Option<Order>)
      ensures found == FindNamed(orders, orderId)
    {
      for k := 0 to |orders|
        invariant FindNamed(orders, orderId) == FindNamed(orders[k..], orderId)
      {
        if Named(orders[k], orderId) {
          return Some(orders[k]);
        }
      }
      return None;
    }

    method SwapOrders(action: ReplaceAction, source: Option<Order>, answer: ReplaceAnswer)
      requires store.Valid()
      modifies store
      ensures store.Valid() && store.State() == ReplaceOrders(old(store.State()), action, source, answer)
    {
      store.RemoveOpenOrder(action.orderId);
      if ReplaceStays(answer) {
        store.UpsertOpenOrder(NewOrder(action, source, answer));
      } else {
        store.RemoveOpenOrder(NewOrderId(action, answer));
      }
    }

    method ApplyReplace(action: ReplaceAction, answer: ReplaceAnswer, snapshot: AccountSnapshot)
      requires store.Valid()
      modifies store
      ensures store.Valid() && store.State() == ReplaceApplied(old(store.State()), action, answer, snapshot)
    {
      if !answer.Succeeded() {
        return;
      }
      var current := store.snapshot;
      var source := FindOpenOrder(current.OpenOrdersForMarket(action.Key()), action.orderId);
      if source.None? {
        source := FindOpenOrder(snapshot.OpenOrdersForMarket(action.Key()), action.orderId);
      }
      SwapOrders(action, source, answer);
      var position := current.GetPosition(action.Key());
      if position.None? {
        position := snapshot.GetPosition(action.Key());
      }
      if position.None? {
        return;
      }
      store.Upsert(ReplacedPosition(position.value, source, NewSide(source, answer), NewRemaining(action, answer)));
    }
  }
}
