/**
 * The shares being sold, kept up by increments, against the shares the open SELL orders
 * add up to: every well-formed event keeps the two equal, and where an event can break
 * the agreement, exactly when it does.
 */
module LedgerLaws {
  import opened Wrappers
  import opened Dict
  import opened Domain
  import opened AccountStore
  import opened AccountLaws
  import opened Projection
  import opened ReconcileActions

  /** Shares the position of a token says are being sold. */
  function OpenSell(s: AccountState, key: Key): real {
    if Get(s.positions, key).None? then 0.0 else Get(s.positions, key).value.openSellShares
  }

  /** Shares the open SELL orders of a token add up to. */
  function Cover(s: AccountState, key: Key): real {
    Total(s.openOrders, SellWeightOf(key))
  }

  /** What the order stored under `id` adds to the cover of a token. */
  function Share(s: AccountState, id: string, key: Key): real {
    WeightAt(s.openOrders, id, SellWeightOf(key))
  }

  ghost predicate Agrees(s: AccountState) {
    forall key: Key :: OpenSell(s, key) == Cover(s, key)
  }

  /** An order with an id of its own, which says what it still sells. */
  predicate CleanOrder(o: Order) {
    && o.orderId.Some? && o.orderId.value != ""
    && (o.OpenSell() ==> o.remainingShares.Some? && o.remainingShares.value >= 0.0)
  }

  predicate Sound(s: AccountState) {
    WellKeyed(s) && forall e :: e in s.openOrders ==> CleanOrder(e.1)
  }

  /** A reader of the published snapshot sees the two figures. */
  lemma SnapshotShowsFigures(s: AccountState, key: Key)
    requires WellKeyed(s)
    ensures s.Published().OpenSellShares(key) == Cover(s, key)
    ensures s.Published().GetPosition(key) == Get(s.positions, key)
  {
    SellSharesIsTotal(s.openOrders, key);
    FirstPositionIsGet(s.positions, key);
  }

  // ---------------------------------------------------------------- one order changes

  lemma ShareBounds(s: AccountState, id: string, key: Key)
    requires Sound(s)
    ensures 0.0 <= Share(s, id, key) <= Cover(s, key)
  {
    forall i | 0 <= i < |s.openOrders| ensures SellWeightOf(key)(s.openOrders[i].1) >= 0.0 {
      assert s.openOrders[i] in s.openOrders;
    }
    TotalAtLeast(s.openOrders, id, SellWeightOf(key));
    GetIsEntry(s.openOrders, id);
  }

  lemma StoredOrder(s: AccountState, id: string)
    requires Sound(s) && Get(s.openOrders, id).Some?
    ensures CleanOrder(Get(s.openOrders, id).value) && Get(s.openOrders, id).value.orderId == Some(id)
  {
    GetIsEntry(s.openOrders, id);
    var i :| 0 <= i < |s.openOrders| && s.openOrders[i] == (id, Get(s.openOrders, id).value);
    assert s.openOrders[i] in s.openOrders;
  }

  /** The order under `id`, if there is one, belongs to the token `key`. */
  predicate OwnId(s: AccountState, id: string, key: Key) {
    Get(s.openOrders, id).Some? ==>
      (Get(s.openOrders, id).value.conditionId, Get(s.openOrders, id).value.tokenId) == key
  }

  function CoverWith(s: AccountState, o: Order, k: Key): real {
    if k == (o.conditionId, o.tokenId) then Cover(s, k) - Share(s, OrderKey(o), k) + SellWeight(o) else Cover(s, k)
  }

  /** Storing an order moves the cover of its own token, by what it sells against what it replaces. */
  lemma CoverAfterUpsert(s: AccountState, o: Order)
    requires OwnId(s, OrderKey(o), (o.conditionId, o.tokenId))
    ensures forall k :: Cover(Step(s, UpsertOrder(o)), k) == CoverWith(s, o, k)
  {
    forall k ensures Cover(Step(s, UpsertOrder(o)), k) == CoverWith(s, o, k) {
      TotalPut(s.openOrders, OrderKey(o), o, SellWeightOf(k));
    }
  }

  function CoverWithout(s: AccountState, id: string, key: Key, k: Key): real {
    if k == key then Cover(s, k) - Share(s, id, k) else Cover(s, k)
  }

  lemma CoverAfterRemove(s: AccountState, id: string, key: Key)
    requires OwnId(s, id, key)
    ensures forall k :: Cover(Step(s, RemoveOrder(id)), k) == CoverWithout(s, id, key, k)
  {
    forall k ensures Cover(Step(s, RemoveOrder(id)), k) == CoverWithout(s, id, key, k) {
      TotalPop(s.openOrders, id, SellWeightOf(k));
    }
  }

  lemma SoundAfterUpsert(s: AccountState, o: Order)
    requires Sound(s) && CleanOrder(o)
    ensures Sound(Step(s, UpsertOrder(o)))
  {
    StepKeepsKeys(s, UpsertOrder(o));
    PutEntries(s.openOrders, OrderKey(o), o);
  }

  lemma SoundAfterRemove(s: AccountState, id: string)
    requires Sound(s)
    ensures Sound(Step(s, RemoveOrder(id)))
  {
    StepKeepsKeys(s, RemoveOrder(id));
    PopKeys(s.openOrders, id);
  }

  /** With the orders settled, an upserted position restores agreement exactly when it carries its token's cover. */
  lemma PositionSettles(s: AccountState, t: AccountState, p: Position)
    requires Agrees(s) && t.positions == s.positions
    requires forall k :: k != PositionKey(p) ==> Cover(t, k) == Cover(s, k)
    ensures Agrees(Step(t, UpsertPosition(p))) <==> p.openSellShares == Cover(t, PositionKey(p))
    ensures forall k :: Cover(Step(t, UpsertPosition(p)), k) == Cover(t, k)
  {
    var u := Step(t, UpsertPosition(p));
    forall k ensures OpenSell(u, k) == if k == PositionKey(p) then p.openSellShares else OpenSell(s, k) {
      GetPut(s.positions, PositionKey(p), p, k);
    }
    forall k ensures Cover(u, k) == Cover(t, k) {}
    if p.openSellShares == Cover(t, PositionKey(p)) {
      forall k ensures OpenSell(u, k) == Cover(u, k) {
        assert OpenSell(s, k) == Cover(s, k);
      }
    } else {
      assert OpenSell(u, PositionKey(p)) != Cover(u, PositionKey(p));
    }
  }

  lemma SoundAfterPosition(s: AccountState, p: Position)
    requires Sound(s)
    ensures Sound(Step(s, UpsertPosition(p)))
  {
    StepKeepsKeys(s, UpsertPosition(p));
  }

  // ------------------------------------------------------------------- BUY results

  lemma {:induction false} FirstPositionHasKey(positions: seq<Position>, key: Key)
    ensures FirstPosition(positions, key).Some? ==> PositionKey(FirstPosition(positions, key).value) == key
  {
    if positions != [] && (positions[0].conditionId, positions[0].tokenId) != key {
      FirstPositionHasKey(positions[1..], key);
    }
  }

  /**
   * A BUY result keeps the agreement exactly when the snapshot it was handled with still
   * shows the current shares being sold: a snapshot taken before a SELL was recorded does not.
   */
  lemma BuyKeepsAgreementExactlyWhen(s: AccountState, r: OrderResult, snapshot: Option<AccountSnapshot>)
    requires Sound(s) && Agrees(s) && BuyChangesPosition(r, PositionIn(snapshot, r.Key()))
    ensures Sound(BuyResult(s, r, snapshot))
    ensures Agrees(BuyResult(s, r, snapshot)) <==>
      OpenSell(s, r.Key()) == (if PositionIn(snapshot, r.Key()).None? then 0.0
                               else PositionIn(snapshot, r.Key()).value.openSellShares)
  {
    if snapshot.Some? {
      FirstPositionHasKey(snapshot.value.positions, r.Key());
    }
    var p := Bought(r, PositionIn(snapshot, r.Key()));
    assert OpenSell(s, r.Key()) == Cover(s, r.Key());
    PositionSettles(s, s, p);
    SoundAfterPosition(s, p);
    var t := Step(s, UpsertPosition(p));
    SamePartsSameLaws(t, BuyResult(s, r, snapshot));
  }

  lemma SamePartsSameLaws(s: AccountState, t: AccountState)
    requires t.positions == s.positions && t.openOrders == s.openOrders
    ensures Agrees(t) <==> Agrees(s)
    ensures forall k :: Cover(t, k) == Cover(s, k)
    ensures DistinctKeys(t.marketPauses) && (forall e :: e in t.marketPauses ==> e.0 == e.1.conditionId) && Sound(s)
            ==> Sound(t)
  {
    forall k ensures OpenSell(t, k) == OpenSell(s, k) && Cover(t, k) == Cover(s, k) {}
    if Agrees(s) {
      forall k ensures OpenSell(t, k) == Cover(t, k) {
        assert OpenSell(s, k) == Cover(s, k);
      }
    }
    if Agrees(t) {
      forall k ensures OpenSell(s, k) == Cover(s, k) {
        assert OpenSell(t, k) == Cover(t, k);
      }
    }
  }

  // ------------------------------------------------------------------- SELL results

  lemma SellPositionHasKey(s: AccountState, r: OrderResult, snapshot: Option<AccountSnapshot>)
    ensures SellPosition(s, r, snapshot).Some? ==> PositionKey(SellPosition(s, r, snapshot).value) == r.Key()
  {
    FirstPositionHasKey(s.Published().positions, r.Key());
    if snapshot.Some? {
      FirstPositionHasKey(snapshot.value.positions, r.Key());
    }
  }

  function ExistingOf(s: AccountState, r: OrderResult): real {
    ExistingOrderSize(s.Published().OpenOrdersForMarket(r.Key()), r)
  }

  /** Shares the order of a SELL result leaves open. */
  function LeftOpen(r: OrderResult, intent: TradeIntent): real
    requires intent.SellTrade?
  {
    if r.status == FullFill then 0.0 else RemainingOf(r, intent.sizeShares)
  }

  lemma SellOrdersFacts(s: AccountState, r: OrderResult, intent: TradeIntent)
    requires Sound(s) && intent.SellTrade? && OwnId(s, SellOrderId(r, intent), r.Key())
    requires SellChanges(r)
    ensures SellOrders(s, r, intent).positions == s.positions
    ensures forall k :: Cover(SellOrders(s, r, intent), k)
                     == if k == r.Key() then Cover(s, k) - Share(s, SellOrderId(r, intent), k) + LeftOpen(r, intent)
                        else Cover(s, k)
    ensures Sound(SellOrders(s, r, intent))
  {
    var id := SellOrderId(r, intent);
    if r.status == FullFill {
      CoverAfterRemove(s, id, r.Key());
      SoundAfterRemove(s, id);
    } else {
      var o := SellOrder(r, intent);
      assert OrderKey(o) == id;
      CoverAfterUpsert(s, o);
      SoundAfterUpsert(s, o);
    }
  }

  /**
   * A SELL result keeps the agreement exactly when the size it takes for the order it
   * answers is what that order, stored under the result's id, was selling. Otherwise only
   * a size beyond everything being sold does no harm, when that order was all there was.
   */
  lemma SellKeepsAgreementExactlyWhen(s: AccountState, r: OrderResult, snapshot: Option<AccountSnapshot>, intent: TradeIntent)
    requires Sound(s) && Agrees(s) && intent.SellTrade? && OwnId(s, SellOrderId(r, intent), r.Key())
    requires SellChanges(r) && RemainingOf(r, intent.sizeShares) == LeftOpen(r, intent)
    requires SellPosition(s, r, snapshot).Some?
    requires SellPosition(s, r, snapshot).value.openSellShares == OpenSell(s, r.Key())
    ensures
      var existing, share, cover := ExistingOf(s, r), Share(s, SellOrderId(r, intent), r.Key()), Cover(s, r.Key());
      Agrees(SellResult(s, r, snapshot, intent)) <==> existing == share || (existing >= cover && share == cover)
    ensures Sound(SellResult(s, r, snapshot, intent))
  {
    SellPositionHasKey(s, r, snapshot);
    SellOrdersFacts(s, r, intent);
    var id := SellOrderId(r, intent);
    ShareBounds(s, id, r.Key());
    assert OpenSell(s, r.Key()) == Cover(s, r.Key());
    var t := SellOrders(s, r, intent);
    var p := SoldPosition(s, r, SellPosition(s, r, snapshot).value, intent);
    PositionSettles(s, t, p);
    ClampIsExactWhen(Cover(s, r.Key()), ExistingOf(s, r), Share(s, id, r.Key()), LeftOpen(r, intent));
    SoundAfterPosition(t, p);
  }

  /** Subtracting `existing` and clamping is subtracting `share` just when they agree, or both leave nothing. */
  lemma ClampIsExactWhen(cover: real, existing: real, share: real, left: real)
    requires 0.0 <= share <= cover && left >= 0.0
    ensures NotNegative(NotNegative(cover - existing) + left) == cover - share + left
       <==> existing == share || (existing >= cover && share == cover)
  {}

  lemma {:induction false} OrdersForHead(o: Order, rest: seq<Order>, key: Key)
    ensures OrdersFor([o] + rest, key) == (if (o.conditionId, o.tokenId) == key then [o] else []) + OrdersFor(rest, key)
  {
    var all := [o] + rest;
    if rest == [] {
      assert all[..0] == [];
    } else {
      var n := |rest| - 1;
      assert all[..|all| - 1] == [o] + rest[..n] && all[|all| - 1] == rest[n];
      OrdersForHead(o, rest[..n], key);
    }
  }

  lemma AnsweredHead(o: Order, rest: seq<Order>, r: OrderResult)
    ensures AnsweredOrder(OrdersFor([o] + rest, r.Key()), r)
         == if (o.conditionId, o.tokenId) == r.Key() && Answers(o, r) then Some(o)
            else AnsweredOrder(OrdersFor(rest, r.Key()), r)
  {
    OrdersForHead(o, rest, r.Key());
    var kept := OrdersFor(rest, r.Key());
    if (o.conditionId, o.tokenId) == r.Key() {
      assert ([o] + kept)[0] == o && ([o] + kept)[1..] == kept;
    } else {
      assert [] + kept == kept;
    }
  }

  lemma AnsweredEntry(head: (string, Order), rest: Dict<string, Order>, r: OrderResult)
    ensures AnsweredOrder(OrdersFor(Values([head] + rest), r.Key()), r)
         == if (head.1.conditionId, head.1.tokenId) == r.Key() && Answers(head.1, r) then Some(head.1)
            else AnsweredOrder(OrdersFor(Values(rest), r.Key()), r)
  {
    assert Values([head] + rest) == [head.1] + Values(rest);
    AnsweredHead(head.1, Values(rest), r);
  }

  /** Orders stored under their own names. */
  predicate KeyedByName(orders: Dict<string, Order>) {
    forall e :: e in orders ==> e.0 == OrderKey(e.1) && CleanOrder(e.1)
  }

  lemma KeyedTail(orders: Dict<string, Order>)
    requires orders != [] && KeyedByName(orders)
    ensures orders[0].0 == OrderKey(orders[0].1) && CleanOrder(orders[0].1) && KeyedByName(orders[1..])
  {
    assert orders[0] in orders;
    forall e | e in orders[1..] ensures e in orders {}
  }

  lemma AnswersByKey(entry: (string, Order), r: OrderResult, id: string)
    requires r.orderId == Some(id) && id != "" && entry.0 == OrderKey(entry.1) && CleanOrder(entry.1)
    ensures Answers(entry.1, r) <==> entry.0 == id
  {}

  /** A result that names its order is matched with the order stored under that name. */
  lemma {:induction false} AnsweredById(orders: Dict<string, Order>, r: OrderResult, id: string)
    requires r.orderId == Some(id) && id != "" && KeyedByName(orders)
    requires Get(orders, id).Some? ==> (Get(orders, id).value.conditionId, Get(orders, id).value.tokenId) == r.Key()
    ensures AnsweredOrder(OrdersFor(Values(orders), r.Key()), r) == Get(orders, id)
  {
    if orders == [] {
      assert Values(orders) == [];
    } else {
      var head, rest := orders[0], orders[1..];
      assert orders == [head] + rest;
      KeyedTail(orders);
      GetHead(head, rest, id);
      AnswersByKey(head, r, id);
      AnsweredEntry(head, rest, r);
      if head.0 != id {
        AnsweredById(rest, r, id);
      }
    }
  }

  // ------------------------------------------------------------------ well-formed events

  /** Something happens to the ledger: a result, a submission, a replacement or an applied action. */
  datatype LedgerEvent =
    | SellAnswered(result: OrderResult, seen: Option<AccountSnapshot>, intent: TradeIntent)
    | BuyAnswered(result: OrderResult, seen: Option<AccountSnapshot>)
    | FlagsRaised(result: OrderResult, seen: Option<AccountSnapshot>)
    | IntentSubmitted(intent: TradeIntent, snapshot: AccountSnapshot)
    | OrderReplaced(source: Order, result: OrderResult)
    | CancelTaken(cancel: CancelAction, snapshot: AccountSnapshot)
    | ReplaceTaken(replace: ReplaceAction, answer: ReplaceAnswer, snapshot: AccountSnapshot)

  function Happen(s: AccountState, e: LedgerEvent): AccountState {
    match e
    case SellAnswered(r, seen, intent) => if intent.SellTrade? then SellResult(s, r, seen, intent) else s
    case BuyAnswered(r, seen) => BuyResult(s, r, seen)
    case FlagsRaised(r, seen) => ResultFlags(s, r, seen)
    case IntentSubmitted(intent, snapshot) => SubmittedIntent(s, intent, snapshot)
    case OrderReplaced(source, r) => ReplaceResult(s, source, r)
    case CancelTaken(action, snapshot) => CancelApplied(s, action, snapshot)
    case ReplaceTaken(action, answer, snapshot) => ReplaceApplied(s, action, answer, snapshot)
  }

  /** The result answers the SELL order stored under its own id, if any, and leaves nothing open when it is full. */
  predicate WellFormedSell(s: AccountState, r: OrderResult, seen: Option<AccountSnapshot>, intent: TradeIntent)
    requires intent.SellTrade?
  {
    var id := SellOrderId(r, intent);
    SellChanges(r) && SellPosition(s, r, seen).Some? ==>
      && OwnId(s, id, r.Key())
      && AnsweredOrder(s.Published().OpenOrdersForMarket(r.Key()), r) == Get(s.openOrders, id)
      && (Get(s.openOrders, id).Some? ==>
           Get(s.openOrders, id).value.OpenSell() && Get(s.openOrders, id).value.remainingShares != Some(0.0))
      && (r.status == FullFill ==> r.remainingShares <= 0.0)
      && SellPosition(s, r, seen).value.openSellShares == OpenSell(s, r.Key())
  }

  predicate WellFormedBuy(s: AccountState, r: OrderResult, seen: Option<AccountSnapshot>) {
    BuyChangesPosition(r, PositionIn(seen, r.Key())) ==>
      OpenSell(s, r.Key()) == (if PositionIn(seen, r.Key()).None? then 0.0
                               else PositionIn(seen, r.Key()).value.openSellShares)
  }

  /** An order of some size under an id that sells nothing yet, submitted against a current snapshot. */
  predicate WellFormedSubmission(s: AccountState, intent: TradeIntent, snapshot: AccountSnapshot) {
    CurrentFor(s, intent, snapshot) && Share(s, SubmittedId(intent), intent.Key()) == 0.0
  }

  /** The snapshot of a submission shows the shares being sold as they are. */
  predicate CurrentFor(s: AccountState, intent: TradeIntent, snapshot: AccountSnapshot) {
    && OwnId(s, SubmittedId(intent), intent.Key())
    && (intent.SellTrade? ==> intent.sizeShares >= 0.0)
    && (if snapshot.GetPosition(intent.Key()).None? then OpenSell(s, intent.Key()) == 0.0
        else if intent.SellTrade? then snapshot.OpenSellShares(intent.Key()) == Cover(s, intent.Key())
        else snapshot.GetPosition(intent.Key()).value.openSellShares == OpenSell(s, intent.Key()))
  }

  /** The replacement stays in the market of its source, under an id that is its own. */
  predicate WellFormedReplacement(s: AccountState, source: Order, r: OrderResult) {
    var o := ReplacementOrder(source, r);
    && (source.conditionId, source.tokenId) == r.Key()
    && OwnId(s, OrderKey(source), r.Key()) && OwnId(s, OrderKey(o), r.Key())
    && (ReplacementStays(OrderStatusOf(r.status)) ==> CleanOrder(o))
  }

  /** The cancelled order is the one stored under the id, of the size the action carries. */
  predicate WellFormedCancel(s: AccountState, action: CancelAction, snapshot: AccountSnapshot) {
    var key := action.Key();
    var share := Share(s, action.sourceOrderId, key);
    && OwnId(s, action.sourceOrderId, key)
    && (if action.sourceSide == Some(Buy) then share == 0.0 else action.targetSizeShares.GetOr(0.0) == share)
    && (if snapshot.GetPosition(key).None? then share == 0.0
        else snapshot.GetPosition(key).value.openSellShares == OpenSell(s, key))
  }

  /** A SELL order of a held token is replaced by a SELL order, under its own id or a fresh one. */
  predicate WellFormedReplace(s: AccountState, action: ReplaceAction, answer: ReplaceAnswer, snapshot: AccountSnapshot) {
    var key := action.Key();
    var source := SourceOrder(s, action, snapshot);
    var id := NewOrderId(action, answer);
    answer.Succeeded() ==>
      && action.orderId != "" && OwnId(s, action.orderId, key)
      && source == Get(s.openOrders, action.orderId)
      && (source.Some? && source.value.side == Sell ==> source.value.Open())
      && (source.Some? ==> NewSide(source, answer) == source.value.side)
      && (id != action.orderId ==> Get(s.openOrders, id).None?)
      && (NewSide(source, answer) == Sell ==>
           Get(s.positions, key).Some? && (ReplaceStays(answer) || NewRemaining(action, answer) == 0.0))
      && (Get(s.positions, key).None? && snapshot.GetPosition(key).Some? ==>
           snapshot.GetPosition(key).value.openSellShares == 0.0)
  }

  predicate WellFormed(s: AccountState, e: LedgerEvent) {
    match e
    case SellAnswered(r, seen, intent) => intent.SellTrade? ==> WellFormedSell(s, r, seen, intent)
    case BuyAnswered(r, seen) => WellFormedBuy(s, r, seen)
    case FlagsRaised(_, _) => true
    case IntentSubmitted(intent, snapshot) => WellFormedSubmission(s, intent, snapshot)
    case OrderReplaced(source, r) => WellFormedReplacement(s, source, r)
    case CancelTaken(action, snapshot) => WellFormedCancel(s, action, snapshot)
    case ReplaceTaken(action, answer, snapshot) => WellFormedReplace(s, action, answer, snapshot)
  }

  lemma SellKeeps(s: AccountState, r: OrderResult, seen: Option<AccountSnapshot>, intent: TradeIntent)
    requires Sound(s) && Agrees(s) && intent.SellTrade? && WellFormedSell(s, r, seen, intent)
    ensures Sound(SellResult(s, r, seen, intent)) && Agrees(SellResult(s, r, seen, intent))
  {
    if SellChanges(r) && SellPosition(s, r, seen).Some? {
      SellKeepsAgreementExactlyWhen(s, r, seen, intent);
      if Get(s.openOrders, SellOrderId(r, intent)).Some? {
        StoredOrder(s, SellOrderId(r, intent));
      }
    }
  }

  lemma BuyKeeps(s: AccountState, r: OrderResult, seen: Option<AccountSnapshot>)
    requires Sound(s) && Agrees(s) && WellFormedBuy(s, r, seen)
    ensures Sound(BuyResult(s, r, seen)) && Agrees(BuyResult(s, r, seen))
  {
    if BuyChangesPosition(r, PositionIn(seen, r.Key())) {
      BuyKeepsAgreementExactlyWhen(s, r, seen);
    }
  }

  function RestingPause(r: OrderResult): MarketPause {
    BuildPause(r.conditionId, UNEXPECTED_RESTING_ORDER, Some(ByRisk), None)
  }

  /** Flags touch no position and no order; a resting entry adds its pause and stops entries. */
  lemma FlagsChangeOnlyFlags(s: AccountState, r: OrderResult, seen: Option<AccountSnapshot>)
    ensures ResultFlags(s, r, seen).positions == s.positions && ResultFlags(s, r, seen).openOrders == s.openOrders
    ensures ResultFlags(s, r, seen).marketPauses
         == if HasUnexpectedRestingOrder(r) then Put(s.marketPauses, r.conditionId, RestingPause(r)) else s.marketPauses
    ensures HasUnexpectedRestingOrder(r) ==> !ResultFlags(s, r, seen).allowNewEntries
  {
    var stopped := Step(s, SetAllowNewEntries(false));
    var paused := if HasUnexpectedRestingOrder(r) then Step(stopped, PauseMarket(RestingPause(r))) else s;
    assert paused.positions == s.positions && paused.openOrders == s.openOrders;
  }

  lemma FlagsKeep(s: AccountState, r: OrderResult, seen: Option<AccountSnapshot>)
    requires Sound(s) && Agrees(s)
    ensures Sound(ResultFlags(s, r, seen)) && Agrees(ResultFlags(s, r, seen))
  {
    FlagsChangeOnlyFlags(s, r, seen);
    PutDistinct(s.marketPauses, r.conditionId, RestingPause(r));
    PutEntries(s.marketPauses, r.conditionId, RestingPause(r));
    SamePartsSameLaws(s, ResultFlags(s, r, seen));
  }

  /**
   * A submission keeps the agreement exactly when the id it stores its order under sells
   * nothing yet: an id used before, say by an earlier pass with the same trace, is overwritten.
   */
  lemma SubmissionKeepsAgreementExactlyWhen(s: AccountState, intent: TradeIntent, snapshot: AccountSnapshot)
    requires Sound(s) && Agrees(s) && CurrentFor(s, intent, snapshot)
    ensures Sound(SubmittedIntent(s, intent, snapshot))
    ensures Agrees(SubmittedIntent(s, intent, snapshot)) <==> Share(s, SubmittedId(intent), intent.Key()) == 0.0
  {
    var o := SubmittedOrder(intent);
    var p := SubmittedPosition(intent, snapshot);
    FirstPositionHasKey(snapshot.positions, intent.Key());
    assert OrderKey(o) == SubmittedId(intent);
    CoverAfterUpsert(s, o);
    SoundAfterUpsert(s, o);
    assert OpenSell(s, intent.Key()) == Cover(s, intent.Key());
    PositionSettles(s, Step(s, UpsertOrder(o)), p);
    SoundAfterPosition(Step(s, UpsertOrder(o)), p);
  }

  /** Recomputing the coverage of a token makes it agree, whatever it was before. */
  lemma RefreshRestores(s: AccountState, t: AccountState, key: Key)
    requires Agrees(s) && Sound(t) && t.positions == s.positions
    requires forall k :: k != key ==> Cover(t, k) == Cover(s, k)
    ensures Sound(RefreshCoverage(t, key)) && Agrees(RefreshCoverage(t, key))
  {
    SnapshotShowsFigures(t, key);
    FirstPositionHasKey(t.Published().positions, key);
    ShareBounds(t, "", key);
    var snapshot := t.Published();
    if snapshot.GetPosition(key).None? && BuyShares(snapshot.OpenOrdersForMarket(key)) <= 0.0 && Cover(t, key) <= 0.0 {
      forall k ensures OpenSell(t, k) == Cover(t, k) {
        assert OpenSell(s, k) == Cover(s, k);
      }
    } else {
      var position := snapshot.GetPosition(key);
      var buying := BuyShares(snapshot.OpenOrdersForMarket(key));
      var p := position.GetOr(Position(key.0, key.1, 0.0, 0.0, 0.0, 0.0, 0.0, 0.0))
               .(openBuyShares := buying, openSellShares := Cover(t, key), pendingBuyShares := buying);
      PositionSettles(s, t, p);
      SoundAfterPosition(t, p);
    }
  }

  lemma ReplacementKeeps(s: AccountState, source: Order, r: OrderResult)
    requires Sound(s) && Agrees(s) && WellFormedReplacement(s, source, r)
    ensures Sound(ReplaceResult(s, source, r)) && Agrees(ReplaceResult(s, source, r))
  {
    var removed := Step(s, RemoveOrder(OrderKey(source)));
    var o := ReplacementOrder(source, r);
    CoverAfterRemove(s, OrderKey(source), r.Key());
    SoundAfterRemove(s, OrderKey(source));
    if ReplacementStays(OrderStatusOf(r.status)) {
      GetPop(s.openOrders, OrderKey(source), OrderKey(o));
      CoverAfterUpsert(removed, o);
      SoundAfterUpsert(removed, o);
    }
    RefreshRestores(s, ReplacedOrders(s, source, r), r.Key());
  }

  lemma CancelKeeps(s: AccountState, action: CancelAction, snapshot: AccountSnapshot)
    requires Sound(s) && Agrees(s) && WellFormedCancel(s, action, snapshot)
    ensures Sound(CancelApplied(s, action, snapshot)) && Agrees(CancelApplied(s, action, snapshot))
  {
    var key := action.Key();
    var removed := Step(s, RemoveOrder(action.sourceOrderId));
    ShareBounds(s, action.sourceOrderId, key);
    CoverAfterRemove(s, action.sourceOrderId, key);
    SoundAfterRemove(s, action.sourceOrderId);
    FirstPositionHasKey(snapshot.positions, key);
    assert OpenSell(s, key) == Cover(s, key);
    if snapshot.GetPosition(key).None? {
      forall k ensures OpenSell(removed, k) == Cover(removed, k) {
        assert OpenSell(s, k) == Cover(s, k);
      }
    } else {
      var p := CancelledPosition(action, snapshot.GetPosition(key).value);
      PositionSettles(s, removed, p);
      SoundAfterPosition(removed, p);
    }
  }

  /** The order under one id gives way to another, under the same id or a free one, or to nothing. */
  function Exchanged(s: AccountState, gone: string, o: Order, stays: bool): AccountState {
    var removed := Step(s, RemoveOrder(gone));
    if stays then Step(removed, UpsertOrder(o)) else Step(removed, RemoveOrder(OrderKey(o)))
  }

  lemma FreeShare(s: AccountState, gone: string, id: string, k: Key)
    requires Sound(s) && (id != gone ==> Get(s.openOrders, id).None?)
    ensures Share(Step(s, RemoveOrder(gone)), id, k) == 0.0 && OwnId(Step(s, RemoveOrder(gone)), id, k)
  {
    GetPop(s.openOrders, gone, id);
  }

  lemma ExchangeKeepsSound(s: AccountState, gone: string, o: Order, stays: bool)
    requires Sound(s) && CleanOrder(o)
    ensures Sound(Exchanged(s, gone, o, stays)) && Exchanged(s, gone, o, stays).positions == s.positions
  {
    var removed := Step(s, RemoveOrder(gone));
    SoundAfterRemove(s, gone);
    if stays {
      SoundAfterUpsert(removed, o);
    } else {
      SoundAfterRemove(removed, OrderKey(o));
    }
  }

  lemma ExchangeFacts(s: AccountState, gone: string, o: Order, stays: bool)
    requires Sound(s) && CleanOrder(o) && OwnId(s, gone, (o.conditionId, o.tokenId))
    requires OrderKey(o) != gone ==> Get(s.openOrders, OrderKey(o)).None?
    ensures
      var t := Exchanged(s, gone, o, stays);
      && Sound(t) && t.positions == s.positions
      && forall k :: Cover(t, k)
           == if k == (o.conditionId, o.tokenId) then Cover(s, k) - Share(s, gone, k) + (if stays then SellWeight(o) else 0.0)
              else Cover(s, k)
  {
    var key := (o.conditionId, o.tokenId);
    var removed := Step(s, RemoveOrder(gone));
    ExchangeKeepsSound(s, gone, o, stays);
    CoverAfterRemove(s, gone, key);
    FreeShare(s, gone, OrderKey(o), key);
    if stays {
      CoverAfterUpsert(removed, o);
    } else {
      CoverAfterRemove(removed, OrderKey(o), key);
    }
  }

  lemma NewOrderIsClean(action: ReplaceAction, source: Option<Order>, answer: ReplaceAnswer)
    requires action.orderId != ""
    ensures
      var o := NewOrder(action, source, answer);
      CleanOrder(o) && OrderKey(o) == NewOrderId(action, answer) && (o.conditionId, o.tokenId) == action.Key()
  {}

  lemma ReplaceExchanges(s: AccountState, action: ReplaceAction, source: Option<Order>, answer: ReplaceAnswer)
    requires action.orderId != ""
    ensures ReplaceOrders(s, action, source, answer)
         == Exchanged(s, action.orderId, NewOrder(action, source, answer), ReplaceStays(answer))
  {
    NewOrderIsClean(action, source, answer);
  }

  /** What the orders of a replace add up to: the source is gone, the replacement counts what is left of it. */
  lemma ReplaceOrdersFacts(s: AccountState, action: ReplaceAction, source: Option<Order>, answer: ReplaceAnswer)
    requires Sound(s) && action.orderId != "" && OwnId(s, action.orderId, action.Key())
    requires NewOrderId(action, answer) != action.orderId ==> Get(s.openOrders, NewOrderId(action, answer)).None?
    ensures
      var t := ReplaceOrders(s, action, source, answer);
      && Sound(t) && t.positions == s.positions
      && forall k :: Cover(t, k)
           == if k == action.Key()
              then Cover(s, k) - Share(s, action.orderId, k)
                   + (if ReplaceStays(answer) then SellWeight(NewOrder(action, source, answer)) else 0.0)
              else Cover(s, k)
  {
    NewOrderIsClean(action, source, answer);
    ReplaceExchanges(s, action, source, answer);
    ExchangeFacts(s, action.orderId, NewOrder(action, source, answer), ReplaceStays(answer));
  }

  /** The order a replace starts from, and what it was selling. */
  lemma SourceShare(s: AccountState, id: string, key: Key, source: Option<Order>)
    requires Sound(s) && OwnId(s, id, key) && source == Get(s.openOrders, id)
    requires source.Some? && source.value.side == Sell ==> source.value.Open()
    ensures Share(s, id, key) == if source.Some? && source.value.side == Sell then OpenSizeOf(source.value) else 0.0
  {
    if source.Some? {
      StoredOrder(s, id);
    }
  }

  /** What the order of a replace sells, when it stays or has nothing left. */
  lemma ReplacementWeight(action: ReplaceAction, source: Option<Order>, answer: ReplaceAnswer)
    requires NewSide(source, answer) == Sell ==> ReplaceStays(answer) || NewRemaining(action, answer) == 0.0
    ensures (if ReplaceStays(answer) then SellWeight(NewOrder(action, source, answer)) else 0.0)
         == if NewSide(source, answer) == Sell then NewRemaining(action, answer) else 0.0
  {}

  lemma ReplacedFigure(p: Position, source: Option<Order>, side: Side, remaining: real)
    requires source.Some? ==> side == source.value.side
    requires source.Some? && side == Sell ==> 0.0 <= OpenSizeOf(source.value) <= p.openSellShares
    requires p.openSellShares >= 0.0
    ensures ReplacedPosition(p, source, side, remaining).openSellShares
         == p.openSellShares - (if source.Some? && source.value.side == Sell then OpenSizeOf(source.value) else 0.0)
            + (if side == Sell then remaining else 0.0)
    ensures PositionKey(ReplacedPosition(p, source, side, remaining)) == PositionKey(p)
  {}

  /** The position a replace changes: the stored one, or else the snapshot's. */
  function PositionToReplace(s: AccountState, key: Key, snapshot: AccountSnapshot): Option<Position> {
    if Get(s.positions, key).Some? then Get(s.positions, key) else snapshot.GetPosition(key)
  }

  lemma PositionToReplaceShows(s: AccountState, key: Key, snapshot: AccountSnapshot)
    requires WellKeyed(s) && PositionToReplace(s, key, snapshot).Some?
    requires Get(s.positions, key).None? ==> snapshot.GetPosition(key).value.openSellShares == 0.0
    ensures PositionToReplace(s, key, snapshot).value.openSellShares == OpenSell(s, key)
    ensures PositionKey(PositionToReplace(s, key, snapshot).value) == key
  {
    FirstPositionIsGet(s.positions, key);
    FirstPositionHasKey(Values(s.positions), key);
    FirstPositionHasKey(snapshot.positions, key);
  }

  lemma ReplaceAppliedIs(s: AccountState, action: ReplaceAction, answer: ReplaceAnswer, snapshot: AccountSnapshot)
    requires WellKeyed(s) && answer.Succeeded()
    ensures
      var source := SourceOrder(s, action, snapshot);
      var position := PositionToReplace(s, action.Key(), snapshot);
      var t := ReplaceOrders(s, action, source, answer);
      ReplaceApplied(s, action, answer, snapshot)
        == if position.None? then t
           else Step(t, UpsertPosition(ReplacedPosition(position.value, source, NewSide(source, answer),
                                                        NewRemaining(action, answer))))
  {
    SnapshotShowsFigures(s, action.Key());
  }

  lemma ReplaceSettles(s: AccountState, action: ReplaceAction, source: Option<Order>, answer: ReplaceAnswer, p: Position)
    requires Sound(s) && Agrees(s) && action.orderId != "" && OwnId(s, action.orderId, action.Key())
    requires NewOrderId(action, answer) != action.orderId ==> Get(s.openOrders, NewOrderId(action, answer)).None?
    requires source == Get(s.openOrders, action.orderId) && (source.Some? ==> NewSide(source, answer) == source.value.side)
    requires source.Some? && source.value.side == Sell ==> source.value.Open()
    requires NewSide(source, answer) == Sell ==> ReplaceStays(answer) || NewRemaining(action, answer) == 0.0
    requires PositionKey(p) == action.Key() && p.openSellShares == OpenSell(s, action.Key())
    ensures
      var t := ReplaceOrders(s, action, source, answer);
      var u := Step(t, UpsertPosition(ReplacedPosition(p, source, NewSide(source, answer), NewRemaining(action, answer))));
      Sound(u) && Agrees(u)
  {
    var key := action.Key();
    var t := ReplaceOrders(s, action, source, answer);
    var q := ReplacedPosition(p, source, NewSide(source, answer), NewRemaining(action, answer));
    ReplaceOrdersFacts(s, action, source, answer);
    ShareBounds(s, action.orderId, key);
    SourceShare(s, action.orderId, key, source);
    ReplacementWeight(action, source, answer);
    assert OpenSell(s, key) == Cover(s, key);
    ReplacedFigure(p, source, NewSide(source, answer), NewRemaining(action, answer));
    PositionSettles(s, t, q);
    SoundAfterPosition(t, q);
  }

  lemma NothingToReplace(s: AccountState, action: ReplaceAction, source: Option<Order>, answer: ReplaceAnswer)
    requires Sound(s) && Agrees(s) && action.orderId != "" && OwnId(s, action.orderId, action.Key())
    requires NewOrderId(action, answer) != action.orderId ==> Get(s.openOrders, NewOrderId(action, answer)).None?
    requires Get(s.positions, action.Key()).None? && NewSide(source, answer) != Sell
    ensures Sound(ReplaceOrders(s, action, source, answer)) && Agrees(ReplaceOrders(s, action, source, answer))
  {
    var t := ReplaceOrders(s, action, source, answer);
    ReplaceOrdersFacts(s, action, source, answer);
    ShareBounds(s, action.orderId, action.Key());
    forall k ensures OpenSell(t, k) == Cover(t, k) {
      assert OpenSell(s, k) == Cover(s, k);
    }
  }

  lemma ReplaceKeeps(s: AccountState, action: ReplaceAction, answer: ReplaceAnswer, snapshot: AccountSnapshot)
    requires Sound(s) && Agrees(s) && WellFormedReplace(s, action, answer, snapshot)
    ensures Sound(ReplaceApplied(s, action, answer, snapshot)) && Agrees(ReplaceApplied(s, action, answer, snapshot))
  {
    if answer.Succeeded() {
      var source := SourceOrder(s, action, snapshot);
      var position := PositionToReplace(s, action.Key(), snapshot);
      ReplaceAppliedIs(s, action, answer, snapshot);
      if position.None? {
        NothingToReplace(s, action, source, answer);
      } else {
        PositionToReplaceShows(s, action.Key(), snapshot);
        ReplaceSettles(s, action, source, answer, position.value);
      }
    }
  }

  lemma HappenKeeps(s: AccountState, e: LedgerEvent)
    requires Sound(s) && Agrees(s) && WellFormed(s, e)
    ensures Sound(Happen(s, e)) && Agrees(Happen(s, e))
  {
    match e
    case SellAnswered(r, seen, intent) =>
      if intent.SellTrade? {
        SellKeeps(s, r, seen, intent);
      }
    case BuyAnswered(r, seen) => BuyKeeps(s, r, seen);
    case FlagsRaised(r, seen) => FlagsKeep(s, r, seen);
    case IntentSubmitted(intent, snapshot) => SubmissionKeepsAgreementExactlyWhen(s, intent, snapshot);
    case OrderReplaced(source, r) => ReplacementKeeps(s, source, r);
    case CancelTaken(action, snapshot) => CancelKeeps(s, action, snapshot);
    case ReplaceTaken(action, answer, snapshot) => ReplaceKeeps(s, action, answer, snapshot);
  }

  function History(s: AccountState, events: seq<LedgerEvent>): AccountState {
    if events == [] then s else Happen(History(s, events[..|events| - 1]), events[|events| - 1])
  }

  predicate WellFormedHistory(s: AccountState, events: seq<LedgerEvent>) {
    forall i :: 0 <= i < |events| ==> WellFormed(History(s, events[..i]), events[i])
  }

  /**
   * Over every history of well-formed events, the shares a position says are being sold
   * are the shares its open SELL orders add up to, for every token.
   */
  lemma {:induction false} IncrementsAgreeWithRecompute(s: AccountState, events: seq<LedgerEvent>)
    requires Sound(s) && Agrees(s) && WellFormedHistory(s, events)
    ensures Sound(History(s, events)) && Agrees(History(s, events))
    ensures forall key :: History(s, events).Published().OpenSellShares(key) == OpenSell(History(s, events), key)
  {
    if events != [] {
      var front := events[..|events| - 1];
      forall i | 0 <= i < |front| ensures WellFormed(History(s, front[..i]), front[i]) {
        assert front[..i] == events[..i];
      }
      IncrementsAgreeWithRecompute(s, front);
      HappenKeeps(History(s, front), events[|events| - 1]);
    }
    forall key ensures History(s, events).Published().OpenSellShares(key) == OpenSell(History(s, events), key) {
      SnapshotShowsFigures(History(s, events), key);
    }
  }

  /** The empty account agrees with itself, so every history from the start does. */
  lemma InitialLedger()
    ensures Sound(INITIAL) && Agrees(INITIAL)
  {
    forall key: Key ensures OpenSell(INITIAL, key) == Cover(INITIAL, key) {}
  }

  /**
   * A replacement that was filled at once stays behind as an open order with nothing left.
   * A later SELL result under its id takes the whole size for it, and breaks the agreement
   * exactly when anything else of the token is being sold.
   */
  lemma FilledReplacementMisleadsExactlyWhen(s: AccountState, r: OrderResult, seen: Option<AccountSnapshot>,
                                             intent: TradeIntent)
    requires Sound(s) && Agrees(s) && intent.SellTrade?
    requires r.status == FullFill && r.remainingShares == 0.0 && Get(s.positions, r.Key()).Some?
    requires
      var id := SellOrderId(r, intent);
      && r.orderId == Some(id) && Get(s.openOrders, id).Some? && OwnId(s, id, r.Key())
      && var left := Get(s.openOrders, id).value;
      left.status == Matched && left.side == Sell && left.remainingShares == Some(0.0)
      && left.sizeShares.Some? && left.sizeShares.value > 0.0
    ensures Agrees(SellResult(s, r, seen, intent)) <==> Cover(s, r.Key()) == 0.0
  {
    SnapshotShowsFigures(s, r.Key());
    AnsweredById(s.openOrders, r, SellOrderId(r, intent));
    SellKeepsAgreementExactlyWhen(s, r, seen, intent);
    ShareBounds(s, SellOrderId(r, intent), r.Key());
  }

  lemma RefreshKeepsOrders(s: AccountState, key: Key)
    ensures RefreshCoverage(s, key).openOrders == s.openOrders
  {}

  lemma RefreshKeepsPosition(s: AccountState, key: Key)
    requires WellKeyed(s) && Get(s.positions, key).Some?
    ensures Get(RefreshCoverage(s, key).positions, key).Some?
  {
    var selling, buying := s.Published().OpenSellShares(key), BuyShares(s.Published().OpenOrdersForMarket(key));
    SnapshotShowsFigures(s, key);
    FirstPositionHasKey(s.Published().positions, key);
    var p := s.Published().GetPosition(key).value.(openBuyShares := buying, openSellShares := selling, pendingBuyShares := buying);
    GetPut(s.positions, key, p, key);
  }

  /** A manual replacement answered by a full fill, for a SELL order of some size, under its own id or a new one. */
  predicate FilledByHand(s: AccountState, source: Order, fill: OrderResult, id: string) {
    && fill.status == FullFill && fill.remainingShares <= 0.0 && fill.orderId == Some(id) && id != ""
    && source.Key() == fill.Key() && fill.side.GetOr(source.side) == Sell
    && ReplacementSize(source, fill).Some? && ReplacementSize(source, fill).value > 0.0
    && OwnId(s, OrderKey(source), fill.Key()) && (id == OrderKey(source) || Get(s.openOrders, id).None?)
  }

  lemma FilledOrderIs(source: Order, fill: OrderResult, id: string)
    requires fill.status == FullFill && fill.remainingShares <= 0.0 && fill.orderId == Some(id) && id != ""
    requires source.Key() == fill.Key() && fill.side.GetOr(source.side) == Sell
    ensures
      var o := ReplacementOrder(source, fill);
      && OrderKey(o) == id && o.orderId == Some(id) && o.status == Matched && o.side == Sell
      && o.remainingShares == Some(0.0) && o.sizeShares == ReplacementSize(source, fill) && o.Key() == fill.Key()
      && CleanOrder(o) && SellWeight(o) == 0.0
  {}

  /** It leaves its order behind, matched and with nothing remaining; what the source was selling is no longer sold. */
  lemma FilledByHandIsLeftOpen(s: AccountState, source: Order, fill: OrderResult, id: string)
    requires Sound(s) && Agrees(s) && FilledByHand(s, source, fill, id)
    ensures
      var t := ReplaceResult(s, source, fill);
      && Sound(t) && Agrees(t) && Get(t.openOrders, id) == Some(ReplacementOrder(source, fill))
      && ReplacementOrder(source, fill).Open() && ReplacementOrder(source, fill).remainingShares == Some(0.0)
      && Cover(t, fill.Key()) == Cover(s, fill.Key()) - Share(s, OrderKey(source), fill.Key())
      && (Get(s.positions, fill.Key()).Some? ==> Get(t.positions, fill.Key()).Some?)
  {
    var key, o := fill.Key(), ReplacementOrder(source, fill);
    FilledOrderIs(source, fill, id);
    FilledExchanges(s, source, fill);
    GetPut(Pop(s.openOrders, OrderKey(source)), id, o, id);
    ExchangeFacts(s, OrderKey(source), o, true);
    FilledIsWellFormed(s, source, fill, id);
    ReplacementKeeps(s, source, fill);
    RefreshKeepsOrders(Exchanged(s, OrderKey(source), o, true), key);
    if Get(s.positions, key).Some? {
      RefreshKeepsPosition(Exchanged(s, OrderKey(source), o, true), key);
    }
  }

  lemma FilledExchanges(s: AccountState, source: Order, fill: OrderResult)
    requires fill.status == FullFill && source.Key() == fill.Key()
    ensures
      var exchanged := Exchanged(s, OrderKey(source), ReplacementOrder(source, fill), true);
      && ReplaceResult(s, source, fill) == RefreshCoverage(exchanged, fill.Key())
      && exchanged.openOrders == Put(Pop(s.openOrders, OrderKey(source)), OrderKey(ReplacementOrder(source, fill)),
                                     ReplacementOrder(source, fill))
  {}

  lemma FilledIsWellFormed(s: AccountState, source: Order, fill: OrderResult, id: string)
    requires FilledByHand(s, source, fill, id)
    ensures WellFormedReplacement(s, source, fill)
  {
    FilledOrderIs(source, fill, id);
  }

  /**
   * So after a manual replacement that was filled at once, a later full fill reported under
   * the same id breaks the agreement exactly when the replaced order was not all that was
   * being sold of the token.
   */
  lemma FilledByHandMisleadsExactlyWhen(s: AccountState, source: Order, fill: OrderResult, later: OrderResult,
                                        seen: Option<AccountSnapshot>, intent: TradeIntent, id: string)
    requires Sound(s) && Agrees(s) && FilledByHand(s, source, fill, id) && Get(s.positions, fill.Key()).Some?
    requires later.status == FullFill && later.remainingShares == 0.0 && later.orderId == Some(id)
    requires later.Key() == fill.Key() && intent.SellTrade?
    ensures Agrees(SellResult(ReplaceResult(s, source, fill), later, seen, intent))
       <==> Cover(s, fill.Key()) == Share(s, OrderKey(source), fill.Key())
  {
    FilledOrderIs(source, fill, id);
    FilledByHandIsLeftOpen(s, source, fill, id);
    FilledReplacementMisleadsExactlyWhen(ReplaceResult(s, source, fill), later, seen, intent);
  }
}
