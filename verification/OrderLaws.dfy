/**
 * What the ledger books for each thing that reaches it: the order that is stored or removed,
 * with its size, remainder, price and status, and the shares its position says are being
 * bought and sold.
 */
module OrderLaws {
  import opened Wrappers
  import opened Dict
  import opened Domain
  import opened AccountStore
  import opened AccountLaws
  import opened Projection
  import opened ReconcileActions
  import opened LedgerLaws

  function AtLeastZero(x: real): (r: real)
    ensures r >= 0.0 && (r == 0.0 || r == x) && r >= x
  {
    if x < 0.0 then 0.0 else x
  }

  // -------------------------------------------------------------------- sums over orders

  /** An open SELL order adds what remains of it, or else its size, to the shares being sold; other orders add nothing. */
  lemma SellAdds(orders: seq<Order>, o: Order)
    ensures
      var added := SellShares(orders + [o]) - SellShares(orders);
      && (o.OpenSell() && o.remainingShares.Some? ==> added == o.remainingShares.value)
      && (o.OpenSell() && o.remainingShares.None? && o.sizeShares.Some? ==> added == o.sizeShares.value)
      && (o.OpenSell() && o.remainingShares.None? && o.sizeShares.None? ==> added == 0.0)
      && (o.side == Buy || o.status in {NoFill, Cancelled, OrderRejected, OrderFailed} ==> added == 0.0)
    ensures SellShares([]) == 0.0
  {
    assert (orders + [o])[..|orders|] == orders;
  }

  /** An open BUY order adds the same to the shares being bought, never less than nothing. */
  lemma BuyAdds(orders: seq<Order>, o: Order)
    ensures
      var added := BuyShares(orders + [o]) - BuyShares(orders);
      && (o.OpenBuy() && o.remainingShares.Some? ==> added == AtLeastZero(o.remainingShares.value))
      && (o.OpenBuy() && o.remainingShares.None? && o.sizeShares.Some? ==> added == AtLeastZero(o.sizeShares.value))
      && (o.OpenBuy() && o.remainingShares.None? && o.sizeShares.None? ==> added == 0.0)
      && (o.side == Sell || o.status in {NoFill, Cancelled, OrderRejected, OrderFailed} ==> added == 0.0)
    ensures BuyShares([]) == 0.0
  {
    assert (orders + [o])[..|orders|] == orders;
  }

  /** Recomputing a known position's coverage sets its three figures to these sums and touches nothing else of it. */
  lemma RefreshBooks(s: AccountState, key: Key)
    requires WellKeyed(s) && Get(s.positions, key).Some?
    ensures
      var orders := s.Published().OpenOrdersForMarket(key);
      var before, after := Get(s.positions, key).value, Get(RefreshCoverage(s, key).positions, key);
      && after.Some? && after.value.openBuyShares == BuyShares(orders) && after.value.pendingBuyShares == BuyShares(orders)
      && after.value.openSellShares == SellShares(orders)
      && after.value.shares == before.shares && after.value.costUsdc == before.costUsdc
      && after.value.confirmedShares == before.confirmedShares
  {
    var selling, buying := s.Published().OpenSellShares(key), BuyShares(s.Published().OpenOrdersForMarket(key));
    SnapshotShowsFigures(s, key);
    FirstPositionHasKey(s.Published().positions, key);
    var p := s.Published().GetPosition(key).value.(openBuyShares := buying, openSellShares := selling, pendingBuyShares := buying);
    GetPut(s.positions, key, p, key);
  }

  /** A token without a position is given an empty one when something of it is open, and is left alone otherwise. */
  lemma RefreshOfUnknown(s: AccountState, key: Key, buying: real, selling: real)
    requires WellKeyed(s) && Get(s.positions, key).None?
    requires buying == BuyShares(s.Published().OpenOrdersForMarket(key))
    requires selling == SellShares(s.Published().OpenOrdersForMarket(key))
    ensures buying <= 0.0 && selling <= 0.0 ==> RefreshCoverage(s, key) == s
    ensures buying > 0.0 || selling > 0.0 ==>
      Get(RefreshCoverage(s, key).positions, key) == Some(Position(key.0, key.1, 0.0, 0.0, buying, selling, buying, 0.0))
  {
    SnapshotShowsFigures(s, key);
    GetPut(s.positions, key, Position(key.0, key.1, 0.0, 0.0, buying, selling, buying, 0.0), key);
  }

  /** The size a cancel or a replace takes back: what remains of the order, or else its size, or else its amount. */
  lemma SizeTakenBack(o: Order)
    ensures o.remainingShares.Some? ==> OpenSizeOf(o) == AtLeastZero(o.remainingShares.value)
    ensures o.remainingShares.None? && o.sizeShares.Some? ==> OpenSizeOf(o) == AtLeastZero(o.sizeShares.value)
    ensures o.remainingShares.None? && o.sizeShares.None? && o.amountUsdc.Some? ==>
      OpenSizeOf(o) == AtLeastZero(o.amountUsdc.value)
    ensures o.remainingShares.None? && o.sizeShares.None? && o.amountUsdc.None? ==> OpenSizeOf(o) == 0.0
  {}

  /** The size a SELL result takes for its order: what remained of it, unless nothing, or else its size, unless nothing. */
  lemma SizeAnswered(orders: seq<Order>, r: OrderResult)
    ensures
      var o, size := AnsweredOrder(orders, r), ExistingOrderSize(orders, r);
      && (o.None? ==> size == 0.0)
      && (o.Some? ==>
           if o.value.remainingShares.Some? && o.value.remainingShares.value != 0.0 then size == o.value.remainingShares.value
           else if o.value.sizeShares.Some? then size == o.value.sizeShares.value
           else size == 0.0)
  {}

  /** What a result's flags come to: refusals let entries in again when the gate can open, a resting entry shuts them out. */
  lemma FlagsSay(s: AccountState, r: OrderResult, snapshot: Option<AccountSnapshot>, t: AccountState)
    requires t == ResultFlags(s, r, snapshot)
    ensures r.status in {Refused, Failed, UnknownTimeout} ==>
      t.allowNewEntries == (s.userWsConnected && s.lastReconcileAt.Some?) && t.marketPauses == s.marketPauses
    ensures r.status == Resting && r.orderType == Some(Fak) ==> !t.allowNewEntries
    ensures r.status !in {Refused, Failed, UnknownTimeout} && (r.status != Resting || r.orderType != Some(Fak)) ==>
      t.allowNewEntries == s.allowNewEntries && t.marketPauses == s.marketPauses
  {}

  /** The money is then what the snapshot says. */
  lemma FlagsShowMoney(s: AccountState, r: OrderResult, snapshot: Option<AccountSnapshot>, t: AccountState)
    requires t == ResultFlags(s, r, snapshot)
    ensures t.balanceUsdc == (if snapshot.Some? then snapshot.value.balanceUsdc else s.balanceUsdc)
    ensures t.allowanceUsdc == (if snapshot.Some? then snapshot.value.allowanceUsdc else s.allowanceUsdc)
  {}

  // ----------------------------------------------------------------------- submissions

  lemma BoughtFor(amount: real, price: real)
    requires price > 0.0
    ensures (amount / price) * price == amount
  {}

  /**
   * A submitted intent is an open order of its token, side, price and size, under its key or
   * one made of its trace; a BUY raises the shares being bought by what its amount buys.
   */
  lemma SubmissionBooks(s: AccountState, intent: TradeIntent, snapshot: AccountSnapshot, id: string)
    requires id == FirstText(intent.idempotencyKey, intent.traceId + ":" + intent.conditionId + ":" + intent.tokenId + ":"
                                                    + (if intent.SellTrade? then "sell" else "buy"))
    requires id != ""
    ensures
      var o := Get(SubmittedIntent(s, intent, snapshot).openOrders, id);
      && o.Some? && o.value.orderId == Some(id) && o.value.Key() == (intent.conditionId, intent.tokenId)
      && o.value.status == Submitted && o.value.Open() && o.value.price == intent.price
      && o.value.orderType == intent.orderType
      && (intent.SellTrade? ==>
           && o.value.side == Sell && o.value.sizeShares == Some(intent.sizeShares)
           && o.value.remainingShares == Some(intent.sizeShares) && o.value.amountUsdc.None?
           && o.value.notionalUsdc == Some(intent.price * intent.sizeShares))
      && (intent.BuyTrade? ==>
           && o.value.side == Buy && o.value.amountUsdc == Some(intent.amountUsdc) && o.value.sizeShares.None?
           && o.value.remainingShares.None? && o.value.notionalUsdc == Some(intent.amountUsdc))
  {
    GetPut(s.openOrders, id, SubmittedOrder(intent), id);
  }

  lemma SubmissionRaises(s: AccountState, intent: TradeIntent, snapshot: AccountSnapshot, buying: real)
    requires intent.BuyTrade? ==> (if intent.price > 0.0 then buying * intent.price == intent.amountUsdc else buying == 0.0)
    requires intent.SellTrade? ==> buying == 0.0
    ensures
      var before, after := snapshot.GetPosition(intent.Key()), Get(SubmittedIntent(s, intent, snapshot).positions, intent.Key());
      && after.Some?
      && (before.None? ==>
           && after.value.openBuyShares == buying && after.value.pendingBuyShares == buying
           && after.value.openSellShares == (if intent.SellTrade? then intent.sizeShares else 0.0)
           && after.value.shares == 0.0 && after.value.costUsdc == 0.0 && after.value.confirmedShares == 0.0)
      && (before.Some? ==>
           && after.value.openBuyShares == before.value.openBuyShares + buying
           && after.value.pendingBuyShares == before.value.pendingBuyShares + buying
           && after.value.shares == before.value.shares && after.value.costUsdc == before.value.costUsdc
           && after.value.openSellShares
              == if intent.SellTrade? then SellShares(snapshot.OpenOrdersForMarket(intent.Key())) + intent.sizeShares
                 else before.value.openSellShares)
  {
    var p := SubmittedPosition(intent, snapshot);
    FirstPositionHasKey(snapshot.positions, intent.Key());
    GetPut(s.positions, PositionKey(p), p, intent.Key());
    if intent.BuyTrade? && intent.price > 0.0 {
      BoughtFor(intent.amountUsdc, intent.price);
      SameQuotient(buying, intent.amountUsdc / intent.price, intent.price);
    }
  }

  lemma SameQuotient(a: real, b: real, price: real)
    requires price > 0.0 && a * price == b * price
    ensures a == b
  {}

  // ---------------------------------------------------------------------- SELL results

  /** What a SELL result leaves open: what it says remains, or else the size asked for less what was matched. */
  lemma SellResultBooks(s: AccountState, r: OrderResult, seen: Option<AccountSnapshot>, intent: TradeIntent, id: string)
    requires intent.SellTrade? && DistinctKeys(s.openOrders) && r.orderId == Some(id) && id != ""
    requires SellPosition(s, r, seen).Some?
    ensures
      var o := Get(SellResult(s, r, seen, intent).openOrders, id);
      && (r.status == FullFill ==> o.None?)
      && (r.status in {Resting, PartialFill} ==> o.Some? && StaysOpen(r, intent, o.value))
    ensures r.status !in {FullFill, Resting, PartialFill} ==> SellResult(s, r, seen, intent) == s
  {
    SellResultOrders(s, r, seen, intent, id);
    GetPop(s.openOrders, id, id);
    GetPut(s.openOrders, id, SellOrder(r, intent), id);
    if r.status in {Resting, PartialFill} {
      SellOrderStaysOpen(r, intent);
    }
  }

  lemma SellResultOrders(s: AccountState, r: OrderResult, seen: Option<AccountSnapshot>, intent: TradeIntent, id: string)
    requires intent.SellTrade? && r.orderId == Some(id) && id != "" && SellPosition(s, r, seen).Some?
    ensures r.status == FullFill ==> SellResult(s, r, seen, intent).openOrders == Pop(s.openOrders, id)
    ensures r.status in {Resting, PartialFill} ==>
      SellResult(s, r, seen, intent).openOrders == Put(s.openOrders, id, SellOrder(r, intent))
    ensures r.status !in {FullFill, Resting, PartialFill} ==> SellResult(s, r, seen, intent) == s
  {}

  /** The open SELL order of a result: what remains of it, its price and its size. */
  predicate StaysOpen(r: OrderResult, intent: TradeIntent, o: Order)
    requires intent.SellTrade?
  {
    && o.Key() == (r.conditionId, r.tokenId) && o.side == Sell && o.Open()
    && o.status == (if r.status == Resting then Live else PartiallyFilled)
    && o.price == (if r.price.Some? && r.price.value != 0.0 then r.price.value else intent.price)
    && (r.remainingShares > 0.0 ==> o.remainingShares == Some(r.remainingShares))
    && (r.remainingShares <= 0.0 && r.matchedShares > 0.0 ==>
         o.remainingShares == Some(AtLeastZero(intent.sizeShares - r.matchedShares)))
    && (r.requestedSizeShares.None? ==> o.sizeShares == Some(intent.sizeShares))
  }

  lemma SellOrderStaysOpen(r: OrderResult, intent: TradeIntent)
    requires intent.SellTrade? && r.status in {Resting, PartialFill}
    ensures StaysOpen(r, intent, SellOrder(r, intent))
  {}

  /** The order a result ends in: filled orders are matched, the rest say what happened. */
  lemma StatusesAre()
    ensures OrderStatusOf(FullFill) == Matched && OrderStatusOf(PartialFill) == PartiallyFilled
    ensures OrderStatusOf(Resting) == Live && OrderStatusOf(NothingFilled) == NoFill
    ensures OrderStatusOf(Refused) == OrderRejected && OrderStatusOf(CancelDone) == Cancelled
    ensures OrderStatusOf(Failed) == OrderFailed && OrderStatusOf(UnknownTimeout) == OrderFailed
  {}

  // ------------------------------------------------------------------ cancels and replaces

  /** A confirmed cancel of a BUY order takes it away and leaves no shares being bought; nothing else of its position moves. */
  lemma EntryCancelBooks(s: AccountState, action: CancelAction, snapshot: AccountSnapshot)
    requires DistinctKeys(s.openOrders) && action.sourceSide == Some(Buy) && snapshot.GetPosition(action.Key()).Some?
    ensures
      var t := CancelApplied(s, action, snapshot);
      var before, after := snapshot.GetPosition(action.Key()).value, Get(t.positions, action.Key());
      && Get(t.openOrders, action.sourceOrderId).None?
      && after.Some? && after.value.openBuyShares == 0.0 && after.value.pendingBuyShares == 0.0
      && after.value.openSellShares == before.openSellShares
      && after.value.shares == before.shares && after.value.costUsdc == before.costUsdc
  {
    var p := CancelledPosition(action, snapshot.GetPosition(action.Key()).value);
    FirstPositionHasKey(snapshot.positions, action.Key());
    GetPop(s.openOrders, action.sourceOrderId, action.sourceOrderId);
    GetPut(s.positions, PositionKey(p), p, action.Key());
  }

  /** What is left of a replacement: all of it when it was accepted silently, else what the answer says or implies. */
  predicate RemainsOf(size: real, answer: ReplaceAnswer, remaining: real) {
    && (!answer.Answered? ==> remaining == AtLeastZero(size))
    && (answer.Answered? && answer.result.remainingShares > 0.0 ==> remaining == answer.result.remainingShares)
    && (answer.Answered? && answer.result.remainingShares <= 0.0 ==>
         if answer.result.status == Resting || answer.result.status == PartialFill
         then remaining == AtLeastZero(size - answer.result.matchedShares) else remaining == 0.0)
  }

  /** The price an answer gives, when it gives one, or else the one asked for. */
  function PriceOf(action: ReplaceAction, answer: ReplaceAnswer): real {
    if answer.Answered? && answer.result.price.Some? && answer.result.price.value != 0.0 then answer.result.price.value
    else action.newPrice
  }

  lemma ReplacementPrice(action: ReplaceAction, answer: ReplaceAnswer)
    ensures PriceOf(action, answer) ==
            if answer.Answered? then NonZero(answer.result.price, action.newPrice) else action.newPrice
  {}

  lemma NotionalOf(o: Order, action: ReplaceAction, source: Option<Order>, answer: ReplaceAnswer, price: real)
    requires o == NewOrder(action, source, answer)
    requires price == if answer.Answered? then NonZero(answer.result.price, action.newPrice) else action.newPrice
    ensures o.price == price && o.notionalUsdc == Some(price * action.sizeShares)
  {
    assert o.price == price;
    assert o.notionalUsdc == Some(ValueAt(price, action.sizeShares));
    assert ValueAt(price, action.sizeShares) == price * action.sizeShares;
  }

  /** The order a replace puts in place of its source. */
  lemma ReplacementSays(action: ReplaceAction, source: Option<Order>, answer: ReplaceAnswer)
    ensures
      var o := NewOrder(action, source, answer);
      && o.Key() == (action.conditionId, action.tokenId) && o.sizeShares == Some(action.sizeShares) && o.amountUsdc.None?
      && o.remainingShares.Some? && RemainsOf(action.sizeShares, answer, o.remainingShares.value)
      && o.price == PriceOf(action, answer) && o.notionalUsdc == Some(PriceOf(action, answer) * action.sizeShares)
      && (!answer.Answered? ==> o.status == Submitted)
      && (answer.Answered? && answer.result.status == Resting ==> o.status == Live)
      && (answer.Answered? && answer.result.status == PartialFill ==> o.status == PartiallyFilled)
      && (!answer.Answered? || answer.result.side.None? ==>
           o.side == if source.Some? then source.value.side else Sell)
  {
    ReplacementPrice(action, answer);
    NotionalOf(NewOrder(action, source, answer), action, source, answer, PriceOf(action, answer));
  }

  /** The order an action names: the first current one with that name, and only without one a first one of the snapshot. */
  lemma SourceIsCurrent(s: AccountState, action: ReplaceAction, snapshot: AccountSnapshot)
    ensures
      var current, source := s.Published().OpenOrdersForMarket(action.Key()), SourceOrder(s, action, snapshot);
      && ((exists o :: o in current && Named(o, action.orderId)) ==> source.Some? && source.value in current)
      && (!(exists o :: o in current && Named(o, action.orderId)) && source.Some? ==>
           source.value in snapshot.OpenOrdersForMarket(action.Key()))
      && (source.Some? ==> Named(source.value, action.orderId))
  {
    NamedIsFound(s.Published().OpenOrdersForMarket(action.Key()), action.orderId);
    NamedIsFound(snapshot.OpenOrdersForMarket(action.Key()), action.orderId);
  }

  lemma {:induction false} NamedIsFound(orders: seq<Order>, id: string)
    ensures FindNamed(orders, id).Some? ==> FindNamed(orders, id).value in orders && Named(FindNamed(orders, id).value, id)
    ensures FindNamed(orders, id).None? ==> !exists o :: o in orders && Named(o, id)
  {
    if orders != [] && !Named(orders[0], id) {
      NamedIsFound(orders[1..], id);
      assert orders == [orders[0]] + orders[1..];
    }
  }

  /** Without a source the replacement adds what is left of it. */
  lemma UnknownSourceAdds(s: AccountState, action: ReplaceAction, answer: ReplaceAnswer, remaining: real)
    requires WellKeyed(s) && answer.Answered? && answer.Succeeded() && Get(s.positions, action.Key()).Some?
    requires SourceOrder(s, action, s.Published()).None? && answer.result.side == Some(Buy)
    requires RemainsOf(action.sizeShares, answer, remaining)
    ensures
      var before := Get(s.positions, action.Key()).value;
      var after := Get(ReplaceApplied(s, action, answer, s.Published()).positions, action.Key());
      after.Some? && EntryMoved(before, after.value, 0.0, remaining)
  {
    ReplacedIsStored(s, action, answer, None);
    RemainsOnce(action, answer, remaining);
  }

  /** A replaced BUY order: the shares being bought lose what was left of it and gain what is left of its replacement. */
  lemma EntryReplaceBooks(s: AccountState, action: ReplaceAction, answer: ReplaceAnswer, source: Order, left: real,
                          remaining: real)
    requires WellKeyed(s) && answer.Succeeded() && Get(s.positions, action.Key()).Some?
    requires SourceOrder(s, action, s.Published()) == Some(source) && source.side == Buy
    requires !answer.Answered? || answer.result.side.None?
    requires source.remainingShares.Some? && left == AtLeastZero(source.remainingShares.value)
    requires RemainsOf(action.sizeShares, answer, remaining)
    ensures
      var before := Get(s.positions, action.Key()).value;
      var after := Get(ReplaceApplied(s, action, answer, s.Published()).positions, action.Key());
      after.Some? && EntryMoved(before, after.value, left, remaining)
  {
    var before := Get(s.positions, action.Key()).value;
    ReplacedIsStored(s, action, answer, Some(source));
    RemainsOnce(action, answer, remaining);
    EntryReplaceMoves(before, source, NewSide(Some(source), answer), NewRemaining(action, answer), left);
  }

  /** The shares being bought, less what was left of an order, and with what is left of the one in its place. */
  predicate EntryMoved(before: Position, after: Position, left: real, remaining: real) {
    && after.openBuyShares == AtLeastZero(before.openBuyShares - left) + remaining
    && after.pendingBuyShares == after.openBuyShares
    && after.openSellShares == before.openSellShares && after.shares == before.shares
  }

  lemma ReplacedIsStored(s: AccountState, action: ReplaceAction, answer: ReplaceAnswer, source: Option<Order>)
    requires WellKeyed(s) && answer.Succeeded() && Get(s.positions, action.Key()).Some?
    requires SourceOrder(s, action, s.Published()) == source
    ensures Get(ReplaceApplied(s, action, answer, s.Published()).positions, action.Key())
         == Some(ReplacedPosition(Get(s.positions, action.Key()).value, source, NewSide(source, answer),
                                  NewRemaining(action, answer)))
  {
    var before := Get(s.positions, action.Key()).value;
    var p := ReplacedPosition(before, source, NewSide(source, answer), NewRemaining(action, answer));
    ReplaceAppliedIs(s, action, answer, s.Published());
    FirstPositionIsGet(s.positions, action.Key());
    FirstPositionHasKey(Values(s.positions), action.Key());
    assert PositionKey(p) == PositionKey(before) == action.Key();
    GetPut(s.positions, action.Key(), p, action.Key());
  }

  lemma RemainsOnce(action: ReplaceAction, answer: ReplaceAnswer, remaining: real)
    requires RemainsOf(action.sizeShares, answer, remaining)
    ensures remaining == NewRemaining(action, answer)
  {}

  lemma EntryReplaceMoves(p: Position, source: Order, side: Side, remaining: real, left: real)
    requires side == Buy && source.remainingShares.Some? && left == AtLeastZero(source.remainingShares.value)
    ensures EntryMoved(p, ReplacedPosition(p, Some(source), side, remaining), left, remaining)
  {}

  // ----------------------------------------------------------------- manual replacements

  /** The order a manual replacement leaves: its size is the one asked for, or else what was left of its source. */
  lemma ByHandSays(source: Order, r: OrderResult, size: real)
    requires
      if r.requestedSizeShares.Some? && r.requestedSizeShares.value != 0.0 then size == r.requestedSizeShares.value
      else source.remainingShares == Some(size) && size > 0.0
    ensures
      var o := ReplacementOrder(source, r);
      && o.Key() == (r.conditionId, r.tokenId) && o.sizeShares == Some(size) && o.remainingShares.Some?
      && o.side == (if r.side.Some? then r.side.value else source.side)
      && o.price == (if r.price.Some? && r.price.value != 0.0 then r.price.value else source.price)
      && o.orderId == Some(if r.orderId.Some? && r.orderId.value != "" then r.orderId.value else r.traceId)
      && (r.remainingShares > 0.0 ==> o.remainingShares == Some(r.remainingShares))
      && (r.remainingShares <= 0.0 ==>
           o.remainingShares.value
           == (if r.status == Resting || r.status == PartialFill then AtLeastZero(size - r.matchedShares) else 0.0))
      && (r.requestedAmountUsdc.Some? ==> o.amountUsdc == r.requestedAmountUsdc)
      && (r.requestedAmountUsdc.None? ==> o.amountUsdc == (if o.side == Buy then source.amountUsdc else None))
  {}

  /** It is worth what the result says, or else its price times its size. */
  lemma ByHandIsWorth(o: Order, source: Order, r: OrderResult, price: real, size: real)
    requires o == ReplacementOrder(source, r) && o.price == price && o.sizeShares == Some(size)
    ensures r.notionalUsdc != 0.0 ==> o.notionalUsdc == Some(r.notionalUsdc)
    ensures r.notionalUsdc == 0.0 ==> o.notionalUsdc == Some(price * size)
  {
    assert ValueAt(price, size) == price * size;
  }

  /** The source goes; the replacement is stored exactly when it rests, filled in part or filled at once. */
  lemma ByHandStaysExactlyWhen(s: AccountState, source: Order, r: OrderResult, id: string, other: string)
    requires DistinctKeys(s.openOrders) && OrderKey(ReplacementOrder(source, r)) == id
    requires other != id && other != OrderKey(source)
    ensures
      var orders := ReplaceResult(s, source, r).openOrders;
      && Get(orders, id) == (if r.status in {Resting, PartialFill, FullFill} then Some(ReplacementOrder(source, r))
                             else if id == OrderKey(source) then None else Get(s.openOrders, id))
      && (id != OrderKey(source) ==> Get(orders, OrderKey(source)).None?)
      && Get(orders, other) == Get(s.openOrders, other)
  {
    var orders, gone := ReplaceResult(s, source, r).openOrders, OrderKey(source);
    HandSwaps(s, source, r, ReplacementOrder(source, r), orders);
    Swapped(s.openOrders, gone, id, ReplacementOrder(source, r), id);
    Swapped(s.openOrders, gone, id, ReplacementOrder(source, r), gone);
    Swapped(s.openOrders, gone, id, ReplacementOrder(source, r), other);
  }

  lemma HandSwaps(s: AccountState, source: Order, r: OrderResult, o: Order, orders: Dict<string, Order>)
    requires orders == ReplaceResult(s, source, r).openOrders && o == ReplacementOrder(source, r)
    ensures orders == if r.status in {Resting, PartialFill, FullFill}
                      then Put(Pop(s.openOrders, OrderKey(source)), OrderKey(o), o) else Pop(s.openOrders, OrderKey(source))
  {
    var swapped := ReplacedOrders(s, source, r);
    HandSwapped(s, source, r, o, swapped);
    RefreshKeepsOrders(swapped, (source.conditionId, source.tokenId));
    assert orders == swapped.openOrders;
  }

  lemma HandSwapped(s: AccountState, source: Order, r: OrderResult, o: Order, swapped: AccountState)
    requires swapped == ReplacedOrders(s, source, r) && o == ReplacementOrder(source, r)
    ensures swapped.openOrders
         == if r.status in {Resting, PartialFill, FullFill}
            then Put(Pop(s.openOrders, OrderKey(source)), OrderKey(o), o) else Pop(s.openOrders, OrderKey(source))
  {
    StatusesAre();
    assert ReplacementStays(OrderStatusOf(r.status)) <==> r.status in {Resting, PartialFill, FullFill};
  }

  /** Taking one entry out and putting one in. */
  lemma Swapped(orders: Dict<string, Order>, gone: string, id: string, o: Order, k: string)
    requires DistinctKeys(orders)
    ensures Get(Pop(orders, gone), k) == if k == gone then None else Get(orders, k)
    ensures Get(Put(Pop(orders, gone), id, o), k) == if k == id then Some(o) else if k == gone then None else Get(orders, k)
  {
    GetPop(orders, gone, k);
    GetPut(Pop(orders, gone), id, o, k);
  }

  // ---------------------------------------------------------- what the exchange reports

  /** After positions are replaced each is found under its own key, the last one where two share it, and nothing else is. */
  lemma PositionsAreReplaced(s: AccountState, ps: seq<Position>, i: nat)
    requires i < |ps| && forall j :: i < j < |ps| ==> PositionKey(ps[j]) != PositionKey(ps[i])
    ensures Get(Step(s, ReplacePositions(ps)).positions, PositionKey(ps[i])) == Some(ps[i])
  {
    LastPairCounts(KeyedPositions(ps), i);
  }

  lemma UnreportedPositionIsGone(s: AccountState, ps: seq<Position>, key: Key)
    requires forall i :: 0 <= i < |ps| ==> PositionKey(ps[i]) != key
    ensures Get(Step(s, ReplacePositions(ps)).positions, key).None?
  {
    AbsentFromPairs(KeyedPositions(ps), key);
  }

  /** And the same for orders. */
  lemma OrdersAreReplaced(s: AccountState, os: seq<Order>, i: nat)
    requires i < |os| && forall j :: i < j < |os| ==> OrderKey(os[j]) != OrderKey(os[i])
    ensures Get(Step(s, ReplaceOpenOrders(os)).openOrders, OrderKey(os[i])) == Some(os[i])
  {
    LastPairCounts(KeyedOrders(os), i);
  }

  lemma UnreportedOrderIsGone(s: AccountState, os: seq<Order>, id: string)
    requires forall i :: 0 <= i < |os| ==> OrderKey(os[i]) != id
    ensures Get(Step(s, ReplaceOpenOrders(os)).openOrders, id).None?
  {
    AbsentFromPairs(KeyedOrders(os), id);
  }

  // -------------------------------------------------------------------- names and pauses

  /** The name an order is stored under: its id, or else its key, or else its token, side and status. */
  lemma StoredUnder(o: Order)
    ensures o.orderId.Some? && o.orderId.value != "" ==> OrderKey(o) == o.orderId.value
    ensures (o.orderId.None? || o.orderId.value == "") && o.idempotencyKey.Some? && o.idempotencyKey.value != "" ==>
      OrderKey(o) == o.idempotencyKey.value
  {}

  /** Who a pause is put down to when nobody is named, and whether it may be lifted by reconciling. */
  lemma PauseIs(conditionId: string, reason: string)
    ensures
      var p := BuildPause(conditionId, reason, None, None);
      && p.conditionId == conditionId && p.reason == reason
      && (reason == "manual_pause" ==> p.source == ByOperator && !p.recoverable)
      && (reason == "unexpected_resting_order" ==> p.source == ByRisk && !p.recoverable)
      && (reason == "market_not_tradable" || reason == "missing_primary_outcome" ==>
           p.source == ByReconcile && p.recoverable)
      && (reason !in {"manual_pause", "unexpected_resting_order", "market_not_tradable", "missing_primary_outcome"} ==>
           p.source == ByReconcile && !p.recoverable)
    ensures BuildPause(conditionId, reason, Some(ByRisk), None).source == ByRisk
    ensures !BuildPause(conditionId, reason, Some(ByRisk), None).recoverable
    ensures BuildPause(conditionId, reason, Some(ByRisk), Some(true)).recoverable
  {}
}
