/**
 * Whole runs of the ledger, from what can be told of their events alone: every order id
 * belongs to one side of one token, new orders get new ids, results say what is left of
 * their orders, and everything is handled with the account as it is. No such run makes
 * the shares a position says are being sold differ from what its open SELL orders add up to.
 */
module LedgerRuns {
  import opened Wrappers
  import opened Dict
  import opened Domain
  import opened AccountStore
  import opened AccountLaws
  import opened Projection
  import opened ReconcileActions
  import opened Reconcile
  import opened LedgerLaws

  /** What reaches the ledger: results, submissions, confirmed cancels and answered replaces. */
  datatype Report =
    | SellReported(result: OrderResult, intent: TradeIntent)
    | BuyReported(result: OrderResult)
    | FlagsReported(result: OrderResult)
    | Sent(intent: TradeIntent)
    | CancelConfirmed(key: Key, orderId: string)
    | ReplaceReported(key: Key, orderId: string, newPrice: real, sizeShares: real, answer: ReplaceAnswer)
    | ReplacedByHand(source: Order, result: OrderResult)

  /** The event a report causes on an account, handled with the current snapshot and the current orders. */
  function EventOf(s: AccountState, h: Report): LedgerEvent {
    match h
    case SellReported(r, intent) => SellAnswered(r, Some(s.Published()), intent)
    case BuyReported(r) => BuyAnswered(r, Some(s.Published()))
    case FlagsReported(r) => FlagsRaised(r, Some(s.Published()))
    case Sent(intent) => IntentSubmitted(intent, s.Published())
    case CancelConfirmed(key, id) => CancelTaken(CancelFrom(s, key, id), s.Published())
    case ReplaceReported(key, id, price, size, answer) =>
      ReplaceTaken(ReplaceAction(key.0, key.1, id, price, size, None), answer, s.Published())
    case ReplacedByHand(source, r) => OrderReplaced(source, r)
  }

  /** The cancel a plan builds from the order stored under an id. */
  function CancelFrom(s: AccountState, key: Key, orderId: string): CancelAction {
    ActionOf(key.0, CancelOf(key.1, orderId), s.openOrders).cancel
  }

  function Ran(s: AccountState, run: seq<Report>): AccountState {
    if run == [] then s
    else
      var before := Ran(s, run[..|run| - 1]);
      Happen(before, EventOf(before, run[|run| - 1]))
  }

  // ------------------------------------------------------------------- what reports keep to

  /** The token and side an order id belongs to. */
  type Owner = string -> (Key, Side)

  /** A result says what is left of its order: something while it is open, nothing once it ended. */
  predicate SaysWhatIsLeft(r: OrderResult) {
    && (r.status in {Resting, PartialFill} ==> r.remainingShares > 0.0)
    && (r.status !in {Resting, PartialFill} ==> r.remainingShares <= 0.0)
  }

  predicate AnswerSaysWhatIsLeft(size: real, answer: ReplaceAnswer) {
    && (answer.AcceptedSilently? ==> size > 0.0)
    && (answer.Answered? && answer.Succeeded() ==> SaysWhatIsLeft(answer.result))
  }

  /** The id a replace stores its order under. */
  function ReplaceId(orderId: string, answer: ReplaceAnswer): string {
    if answer.Answered? then FirstText(answer.result.orderId, orderId) else orderId
  }

  /** What a report keeps to whatever the account is. */
  predicate KeepsTo(h: Report, owner: Owner) {
    match h
    case SellReported(r, intent) =>
      && intent.SellTrade? && (SellChanges(r) ==> SaysWhatIsLeft(r))
      && r.orderId.Some? && r.orderId.value != "" && owner(r.orderId.value) == (r.Key(), Sell)
    case BuyReported(_) => true
    case FlagsReported(_) => true
    case Sent(intent) =>
      owner(SubmittedId(intent)) == (intent.Key(), intent.Side()) && (intent.SellTrade? ==> intent.sizeShares > 0.0)
    case CancelConfirmed(key, id) => owner(id).0 == key
    case ReplaceReported(key, id, _, size, answer) =>
      && id != "" && owner(id).0 == key && owner(ReplaceId(id, answer)) == owner(id)
      && (answer.Answered? ==> answer.result.side.GetOr(owner(id).1) == owner(id).1)
      && AnswerSaysWhatIsLeft(size, answer)
    case ReplacedByHand(source, r) =>
      && source.Key() == r.Key() && (ReplacementStays(OrderStatusOf(r.status)) ==> SaysWhatIsLeft(r) && r.status != FullFill)
      && r.orderId.Some? && r.orderId.value != "" && owner(r.orderId.value) == owner(OrderKey(source))
      && r.side.GetOr(source.side) == source.side
  }

  /** The id a report brings into play for a new order, if it does. */
  function NewId(h: Report): Option<string> {
    match h
    case Sent(intent) => Some(SubmittedId(intent))
    case ReplaceReported(_, id, _, _, answer) => if ReplaceId(id, answer) == id then None else Some(ReplaceId(id, answer))
    case ReplacedByHand(source, r) => if r.orderId == Some(OrderKey(source)) then None else r.orderId
    case _ => None
  }

  /** The ids a report stores an order under. */
  function StoredId(h: Report): set<string> {
    match h
    case SellReported(r, _) => {r.orderId.GetOr("")}
    case Sent(intent) => {SubmittedId(intent)}
    case ReplaceReported(_, id, _, _, answer) => {ReplaceId(id, answer)}
    case ReplacedByHand(_, r) => {r.orderId.GetOr("")}
    case _ => {}
  }

  function IdsOf(s: AccountState): set<string> { set e | e in s.openOrders :: e.0 }

  /** Every id in play so far. */
  function Used(s: AccountState, run: seq<Report>): set<string> {
    if run == [] then IdsOf(s) else Used(s, run[..|run| - 1]) + StoredId(run[|run| - 1])
  }

  /** Only stored orders are replaced. */
  predicate SourceIsStored(s: AccountState, h: Report) {
    match h
    case ReplaceReported(_, id, _, _, _) => Get(s.openOrders, id).Some?
    case ReplacedByHand(source, _) => Get(s.openOrders, OrderKey(source)) == Some(source)
    case _ => true
  }

  /** A run whose reports keep to their ids, bring in new ones for new orders, and replace stored ones. */
  predicate WellFormedRun(s: AccountState, run: seq<Report>, owner: Owner) {
    forall i :: 0 <= i < |run| ==>
      && KeepsTo(run[i], owner)
      && (NewId(run[i]).Some? ==> NewId(run[i]).value !in Used(s, run[..i]))
      && SourceIsStored(Ran(s, run[..i]), run[i])
  }

  // ------------------------------------------------------------------------- tidy accounts

  /** An order stored under an id of its own token and side, still open, and with something left if it sells. */
  predicate TidyEntry(id: string, o: Order, owner: Owner) {
    && owner(id) == (o.Key(), o.side) && o.Open()
    && (o.side == Sell ==> o.remainingShares.Some? && o.remainingShares.value > 0.0)
  }

  predicate TidyOrders(orders: Dict<string, Order>, owner: Owner) {
    forall e :: e in orders ==> TidyEntry(e.0, e.1, owner)
  }

  predicate Tidy(s: AccountState, owner: Owner) { Sound(s) && TidyOrders(s.openOrders, owner) }

  lemma TidyGet(s: AccountState, id: string, owner: Owner)
    requires Tidy(s, owner) && Get(s.openOrders, id).Some?
    ensures TidyEntry(id, Get(s.openOrders, id).value, owner)
  {
    GetIsEntry(s.openOrders, id);
    var i :| 0 <= i < |s.openOrders| && s.openOrders[i] == (id, Get(s.openOrders, id).value);
    assert s.openOrders[i] in s.openOrders;
  }

  /** An id that is not in play is free. */
  lemma UnusedIsFree(s: AccountState, id: string)
    requires id !in IdsOf(s)
    ensures Get(s.openOrders, id).None?
  {
    GetIsEntry(s.openOrders, id);
    assert forall i :: 0 <= i < |s.openOrders| ==> s.openOrders[i] in s.openOrders && s.openOrders[i].0 in IdsOf(s);
  }

  // -------------------------------------------------------------- what a report does to the orders

  /** Ids that go, then an order that is stored. */
  datatype Edit = Edit(gone: seq<string>, stored: Option<Order>)

  const NOTHING := Edit([], None)

  function Without(orders: Dict<string, Order>, gone: seq<string>): Dict<string, Order> {
    if gone == [] then orders else Pop(Without(orders, gone[..|gone| - 1]), gone[|gone| - 1])
  }

  function Edited(orders: Dict<string, Order>, edit: Edit): Dict<string, Order> {
    if edit.stored.None? then Without(orders, edit.gone)
    else Put(Without(orders, edit.gone), OrderKey(edit.stored.value), edit.stored.value)
  }

  lemma {:induction false} WithoutIsWithin(orders: Dict<string, Order>, gone: seq<string>)
    ensures forall e :: e in Without(orders, gone) ==> e in orders
  {
    if gone != [] {
      WithoutIsWithin(orders, gone[..|gone| - 1]);
      PopKeys(Without(orders, gone[..|gone| - 1]), gone[|gone| - 1]);
    }
  }

  /** An edited dictionary holds what it held before, and the order stored. */
  lemma EditedEntries(orders: Dict<string, Order>, edit: Edit)
    ensures forall e :: e in Edited(orders, edit) ==>
      e in orders || (edit.stored.Some? && e == (OrderKey(edit.stored.value), edit.stored.value))
  {
    WithoutIsWithin(orders, edit.gone);
    if edit.stored.Some? {
      PutEntries(Without(orders, edit.gone), OrderKey(edit.stored.value), edit.stored.value);
    }
  }

  /** What a replace does to the orders, as an edit. */
  function ReplaceEdit(s: AccountState, action: ReplaceAction, answer: ReplaceAnswer): Edit {
    if !answer.Succeeded() then NOTHING
    else if ReplaceStays(answer) then
      Edit([action.orderId], Some(NewOrder(action, SourceOrder(s, action, s.Published()), answer)))
    else Edit([action.orderId, NewOrderId(action, answer)], None)
  }

  function EditOf(s: AccountState, h: Report): Edit {
    match h
    case SellReported(r, intent) =>
      if !intent.SellTrade? || !SellChanges(r) || Get(s.positions, r.Key()).None? then NOTHING
      else if r.status == FullFill then Edit([SellOrderId(r, intent)], None)
      else Edit([], Some(SellOrder(r, intent)))
    case BuyReported(_) => NOTHING
    case FlagsReported(_) => NOTHING
    case Sent(intent) => Edit([], Some(SubmittedOrder(intent)))
    case CancelConfirmed(_, id) => Edit([id], None)
    case ReplaceReported(key, id, price, size, answer) =>
      ReplaceEdit(s, ReplaceAction(key.0, key.1, id, price, size, None), answer)
    case ReplacedByHand(source, r) =>
      Edit([OrderKey(source)], if ReplacementStays(OrderStatusOf(r.status)) then Some(ReplacementOrder(source, r)) else None)
  }

  lemma WithoutOne(orders: Dict<string, Order>, id: string)
    ensures Without(orders, [id]) == Pop(orders, id)
  {
    assert [id][..0] == [];
  }

  lemma WithoutTwo(orders: Dict<string, Order>, id: string, other: string)
    ensures Without(orders, [id, other]) == Pop(Pop(orders, id), other)
  {
    assert [id, other][..1] == [id];
    WithoutOne(orders, id);
  }

  lemma ReplaceEdits(s: AccountState, action: ReplaceAction, source: Option<Order>, answer: ReplaceAnswer)
    ensures ReplaceOrders(s, action, source, answer).openOrders
         == if ReplaceStays(answer)
            then Put(Pop(s.openOrders, action.orderId), OrderKey(NewOrder(action, source, answer)), NewOrder(action, source, answer))
            else Pop(Pop(s.openOrders, action.orderId), NewOrderId(action, answer))
  {}

  lemma AppliedIsReplaced(s: AccountState, action: ReplaceAction, answer: ReplaceAnswer, snapshot: AccountSnapshot)
    requires answer.Succeeded()
    ensures ReplaceApplied(s, action, answer, snapshot).openOrders
         == ReplaceOrders(s, action, SourceOrder(s, action, snapshot), answer).openOrders
  {}

  lemma SellOrdersAre(s: AccountState, r: OrderResult, intent: TradeIntent)
    requires intent.SellTrade?
    ensures SellOrders(s, r, intent).openOrders
         == if r.status in {Resting, PartialFill} then Put(s.openOrders, OrderKey(SellOrder(r, intent)), SellOrder(r, intent))
            else Pop(s.openOrders, SellOrderId(r, intent))
  {}

  /** The report edits the orders, and only so. */
  predicate Edits(s: AccountState, h: Report) {
    Happen(s, EventOf(s, h)).openOrders == Edited(s.openOrders, EditOf(s, h))
  }

  lemma SellEdits(s: AccountState, r: OrderResult, intent: TradeIntent)
    requires WellKeyed(s)
    ensures Edits(s, SellReported(r, intent))
  {
    if intent.SellTrade? {
      FirstPositionIsGet(s.positions, r.Key());
      SellOrdersAre(s, r, intent);
      WithoutOne(s.openOrders, SellOrderId(r, intent));
    }
  }

  lemma ReplacedEdit(s: AccountState, action: ReplaceAction, source: Option<Order>, answer: ReplaceAnswer)
    ensures ReplaceOrders(s, action, source, answer).openOrders
         == Edited(s.openOrders, if ReplaceStays(answer) then Edit([action.orderId], Some(NewOrder(action, source, answer)))
                                 else Edit([action.orderId, NewOrderId(action, answer)], None))
  {
    ReplaceEdits(s, action, source, answer);
    WithoutOne(s.openOrders, action.orderId);
    WithoutTwo(s.openOrders, action.orderId, NewOrderId(action, answer));
  }

  lemma AppliedReplaceEdits(s: AccountState, action: ReplaceAction, answer: ReplaceAnswer)
    ensures ReplaceApplied(s, action, answer, s.Published()).openOrders == Edited(s.openOrders, ReplaceEdit(s, action, answer))
  {
    if answer.Succeeded() {
      AppliedIsReplaced(s, action, answer, s.Published());
      ReplacedEdit(s, action, SourceOrder(s, action, s.Published()), answer);
    } else {
      assert Without(s.openOrders, []) == s.openOrders;
    }
  }

  lemma ReplaceReportEdits(s: AccountState, h: Report)
    requires h.ReplaceReported?
    ensures Edits(s, h)
  {
    var action := ReplaceAction(h.key.0, h.key.1, h.orderId, h.newPrice, h.sizeShares, None);
    assert EventOf(s, h) == ReplaceTaken(action, h.answer, s.Published());
    assert EditOf(s, h) == ReplaceEdit(s, action, h.answer);
    AppliedReplaceEdits(s, action, h.answer);
  }

  lemma ByHandEdits(s: AccountState, source: Order, r: OrderResult)
    ensures Edits(s, ReplacedByHand(source, r))
  {
    var t := ReplacedOrders(s, source, r);
    WithoutOne(s.openOrders, OrderKey(source));
    assert t.openOrders == Edited(s.openOrders, EditOf(s, ReplacedByHand(source, r)));
    RefreshKeepsOrders(t, (source.conditionId, source.tokenId));
  }

  lemma SubmissionEdits(s: AccountState, intent: TradeIntent)
    ensures Edits(s, Sent(intent))
  {}

  lemma CancelEdits(s: AccountState, key: Key, id: string)
    ensures Edits(s, CancelConfirmed(key, id))
  {
    WithoutOne(s.openOrders, id);
  }

  lemma BuyEdits(s: AccountState, r: OrderResult)
    ensures Edits(s, BuyReported(r))
  {}

  lemma FlagsEdit(s: AccountState, r: OrderResult)
    ensures Edits(s, FlagsReported(r))
  {
    FlagsChangeOnlyFlags(s, r, Some(s.Published()));
  }

  lemma ReportEdits(s: AccountState, h: Report)
    requires WellKeyed(s)
    ensures Edits(s, h)
  {
    match h
    case SellReported(r, intent) => SellEdits(s, r, intent);
    case BuyReported(r) => BuyEdits(s, r);
    case FlagsReported(r) => FlagsEdit(s, r);
    case Sent(intent) => SubmissionEdits(s, intent);
    case CancelConfirmed(key, id) => CancelEdits(s, key, id);
    case ReplaceReported(_, _, _, _, _) => ReplaceReportEdits(s, h);
    case ReplacedByHand(source, r) => ByHandEdits(s, source, r);
  }

  /** Sold shares of an order belong to a position that says so. */
  lemma SellingIsHeld(s: AccountState, id: string, key: Key)
    requires Sound(s) && Agrees(s) && Share(s, id, key) > 0.0
    ensures Get(s.positions, key).Some?
  {
    ShareBounds(s, id, key);
    assert OpenSell(s, key) == Cover(s, key);
  }

  // --------------------------------------------------------------- one report at a time

  lemma SellIsWellFormed(s: AccountState, r: OrderResult, intent: TradeIntent, owner: Owner)
    requires Tidy(s, owner) && Agrees(s) && KeepsTo(SellReported(r, intent), owner)
    ensures WellFormedSell(s, r, Some(s.Published()), intent)
  {
    var id := r.orderId.value;
    SnapshotShowsFigures(s, r.Key());
    if Get(s.openOrders, id).Some? {
      TidyGet(s, id, owner);
    }
    AnsweredById(s.openOrders, r, id);
  }

  lemma SubmissionIsWellFormed(s: AccountState, intent: TradeIntent, owner: Owner)
    requires Tidy(s, owner) && KeepsTo(Sent(intent), owner) && SubmittedId(intent) !in IdsOf(s)
    ensures WellFormedSubmission(s, intent, s.Published())
  {
    UnusedIsFree(s, SubmittedId(intent));
    SnapshotShowsFigures(s, intent.Key());
  }

  /** What a plan builds from the current orders takes an order away as it is stored. */
  lemma CancelIsWellFormed(s: AccountState, key: Key, id: string, owner: Owner)
    requires Tidy(s, owner) && Agrees(s) && KeepsTo(CancelConfirmed(key, id), owner)
    ensures WellFormedCancel(s, CancelFrom(s, key, id), s.Published())
  {
    SnapshotShowsFigures(s, key);
    if Get(s.openOrders, id).Some? {
      TidyGet(s, id, owner);
    }
    if Share(s, id, key) > 0.0 {
      SellingIsHeld(s, id, key);
    }
  }

  lemma FoundHead(o: Order, rest: seq<Order>, key: Key, id: string)
    ensures FindNamed(OrdersFor([o] + rest, key), id)
         == if o.Key() == key && Named(o, id) then Some(o) else FindNamed(OrdersFor(rest, key), id)
  {
    OrdersForHead(o, rest, key);
    var kept := OrdersFor(rest, key);
    if o.Key() == key {
      assert ([o] + kept)[0] == o && ([o] + kept)[1..] == kept;
    } else {
      assert [] + kept == kept;
    }
  }

  lemma FoundEntry(head: (string, Order), rest: Dict<string, Order>, key: Key, id: string)
    ensures FindNamed(OrdersFor(Values([head] + rest), key), id)
         == if head.1.Key() == key && Named(head.1, id) then Some(head.1) else FindNamed(OrdersFor(Values(rest), key), id)
  {
    assert Values([head] + rest) == [head.1] + Values(rest);
    FoundHead(head.1, Values(rest), key, id);
  }

  lemma NamedByKey(entry: (string, Order), id: string)
    requires entry.0 == OrderKey(entry.1) && CleanOrder(entry.1)
    ensures Named(entry.1, id) <==> entry.0 == id
  {}

  /** Looking an order up by its name among those of its token finds the one stored under it. */
  lemma {:induction false} FoundByName(orders: Dict<string, Order>, key: Key, id: string)
    requires KeyedByName(orders) && (Get(orders, id).Some? ==> Get(orders, id).value.Key() == key)
    ensures FindNamed(OrdersFor(Values(orders), key), id) == Get(orders, id)
  {
    if orders == [] {
      assert Values(orders) == [];
    } else {
      var head, rest := orders[0], orders[1..];
      assert orders == [head] + rest;
      KeyedTail(orders);
      GetHead(head, rest, id);
      NamedByKey(head, id);
      FoundEntry(head, rest, key, id);
      if head.0 != id {
        FoundByName(rest, key, id);
      }
    }
  }

  lemma SourceIsFound(s: AccountState, action: ReplaceAction, o: Order)
    requires Sound(s) && Get(s.openOrders, action.orderId) == Some(o) && o.Key() == action.Key()
    ensures SourceOrder(s, action, s.Published()) == Some(o)
  {
    FoundByName(s.openOrders, action.Key(), action.orderId);
  }

  lemma NothingLeftUnlessItStays(action: ReplaceAction, answer: ReplaceAnswer)
    requires answer.Succeeded() && AnswerSaysWhatIsLeft(action.sizeShares, answer)
    ensures ReplaceStays(answer) || NewRemaining(action, answer) == 0.0
  {}

  /** A stored order is replaced under its own id or a free one, by an order of its side. */
  lemma StoredReplace(s: AccountState, action: ReplaceAction, answer: ReplaceAnswer, o: Order)
    requires Sound(s) && Agrees(s) && action.orderId != "" && AnswerSaysWhatIsLeft(action.sizeShares, answer)
    requires Get(s.openOrders, action.orderId) == Some(o) && o.Key() == action.Key() && o.Open()
    requires answer.Answered? ==> answer.result.side.GetOr(o.side) == o.side
    requires NewOrderId(action, answer) == action.orderId || Get(s.openOrders, NewOrderId(action, answer)).None?
    requires o.side == Sell ==> Get(s.positions, action.Key()).Some?
    ensures WellFormedReplace(s, action, answer, s.Published())
  {
    SourceIsFound(s, action, o);
    SnapshotShowsFigures(s, action.Key());
    if answer.Succeeded() {
      NothingLeftUnlessItStays(action, answer);
    }
  }

  lemma ReplaceIsWellFormed(s: AccountState, h: Report, owner: Owner)
    requires h.ReplaceReported? && Tidy(s, owner) && Agrees(s) && KeepsTo(h, owner) && SourceIsStored(s, h)
    requires NewId(h).Some? ==> NewId(h).value !in IdsOf(s)
    ensures
      var e := EventOf(s, h);
      WellFormedReplace(s, e.replace, e.answer, e.snapshot)
  {
    var o := Get(s.openOrders, h.orderId).value;
    TidyGet(s, h.orderId, owner);
    if NewId(h).Some? {
      UnusedIsFree(s, NewId(h).value);
    }
    if o.side == Sell {
      assert Share(s, h.orderId, h.key) == o.remainingShares.value;
      SellingIsHeld(s, h.orderId, h.key);
    }
    StoredReplace(s, EventOf(s, h).replace, h.answer, o);
  }

  lemma ByHandIsWellFormed(s: AccountState, source: Order, r: OrderResult, owner: Owner)
    requires Tidy(s, owner) && KeepsTo(ReplacedByHand(source, r), owner) && SourceIsStored(s, ReplacedByHand(source, r))
    ensures WellFormedReplacement(s, source, r)
  {
    TidyGet(s, OrderKey(source), owner);
    if Get(s.openOrders, r.orderId.value).Some? {
      TidyGet(s, r.orderId.value, owner);
    }
  }

  lemma ReportIsWellFormed(s: AccountState, h: Report, owner: Owner)
    requires Tidy(s, owner) && Agrees(s) && KeepsTo(h, owner) && SourceIsStored(s, h)
    requires NewId(h).Some? ==> NewId(h).value !in IdsOf(s)
    ensures WellFormed(s, EventOf(s, h))
  {
    match h
    case SellReported(r, intent) => SellIsWellFormed(s, r, intent, owner);
    case BuyReported(r) => SnapshotShowsFigures(s, r.Key());
    case FlagsReported(_) =>
    case Sent(intent) => SubmissionIsWellFormed(s, intent, owner);
    case CancelConfirmed(key, id) => CancelIsWellFormed(s, key, id, owner);
    case ReplaceReported(_, _, _, _, _) => ReplaceIsWellFormed(s, h, owner);
    case ReplacedByHand(source, r) => ByHandIsWellFormed(s, source, r, owner);
  }

  lemma SellOrderIsTidy(r: OrderResult, intent: TradeIntent, owner: Owner)
    requires KeepsTo(SellReported(r, intent), owner) && r.status in {Resting, PartialFill}
    ensures
      var o := SellOrder(r, intent);
      TidyEntry(OrderKey(o), o, owner) && OrderKey(o) == r.orderId.value
  {}

  lemma SubmittedIsTidy(intent: TradeIntent, owner: Owner)
    requires KeepsTo(Sent(intent), owner)
    ensures
      var o := SubmittedOrder(intent);
      TidyEntry(OrderKey(o), o, owner) && OrderKey(o) == SubmittedId(intent)
  {
    assert SubmittedId(intent) != "";
  }

  lemma NewOrderIsTidy(action: ReplaceAction, source: Order, answer: ReplaceAnswer, owner: Owner)
    requires action.orderId != "" && ReplaceStays(answer) && AnswerSaysWhatIsLeft(action.sizeShares, answer)
    requires owner(ReplaceId(action.orderId, answer)) == (action.Key(), source.side)
    requires answer.Answered? ==> answer.result.side.GetOr(source.side) == source.side
    requires answer.Succeeded()
    ensures
      var o := NewOrder(action, Some(source), answer);
      TidyEntry(OrderKey(o), o, owner) && OrderKey(o) == ReplaceId(action.orderId, answer)
  {}

  lemma ReplacementIsTidy(source: Order, r: OrderResult, owner: Owner)
    requires KeepsTo(ReplacedByHand(source, r), owner) && ReplacementStays(OrderStatusOf(r.status))
    requires owner(OrderKey(source)) == (source.Key(), source.side)
    ensures
      var o := ReplacementOrder(source, r);
      TidyEntry(OrderKey(o), o, owner) && OrderKey(o) == r.orderId.value
  {}

  lemma ReplaceStoresTidy(s: AccountState, h: Report, owner: Owner)
    requires h.ReplaceReported? && Tidy(s, owner) && KeepsTo(h, owner) && SourceIsStored(s, h)
    requires EditOf(s, h).stored.Some?
    ensures
      var o := EditOf(s, h).stored.value;
      TidyEntry(OrderKey(o), o, owner) && OrderKey(o) in StoredId(h)
  {
    TidyGet(s, h.orderId, owner);
    FoundByName(s.openOrders, h.key, h.orderId);
    NewOrderIsTidy(ReplaceAction(h.key.0, h.key.1, h.orderId, h.newPrice, h.sizeShares, None),
                   Get(s.openOrders, h.orderId).value, h.answer, owner);
  }

  /** What a report stores is tidy, and stored under an id it names. */
  lemma StoredIsTidy(s: AccountState, h: Report, owner: Owner)
    requires Tidy(s, owner) && KeepsTo(h, owner) && SourceIsStored(s, h) && EditOf(s, h).stored.Some?
    ensures
      var o := EditOf(s, h).stored.value;
      TidyEntry(OrderKey(o), o, owner) && OrderKey(o) in StoredId(h)
  {
    match h
    case SellReported(r, intent) => SellOrderIsTidy(r, intent, owner);
    case Sent(intent) => SubmittedIsTidy(intent, owner);
    case ReplaceReported(_, _, _, _, _) => ReplaceStoresTidy(s, h, owner);
    case ReplacedByHand(source, r) =>
      TidyGet(s, OrderKey(source), owner);
      ReplacementIsTidy(source, r, owner);
  }

  lemma ReportStaysTidy(s: AccountState, h: Report, owner: Owner)
    requires Tidy(s, owner) && KeepsTo(h, owner) && SourceIsStored(s, h)
    ensures TidyOrders(Happen(s, EventOf(s, h)).openOrders, owner)
    ensures IdsOf(Happen(s, EventOf(s, h))) <= IdsOf(s) + StoredId(h)
  {
    ReportEdits(s, h);
    EditedEntries(s.openOrders, EditOf(s, h));
    if EditOf(s, h).stored.Some? {
      StoredIsTidy(s, h, owner);
    }
  }

  lemma FrontIsWellFormed(s: AccountState, run: seq<Report>, owner: Owner)
    requires run != [] && WellFormedRun(s, run, owner)
    ensures WellFormedRun(s, run[..|run| - 1], owner)
  {
    var front := run[..|run| - 1];
    forall i | 0 <= i < |front|
      ensures KeepsTo(front[i], owner) && SourceIsStored(Ran(s, front[..i]), front[i])
      ensures NewId(front[i]).Some? ==> NewId(front[i]).value !in Used(s, front[..i])
    {
      assert front[..i] == run[..i];
    }
  }

  /**
   * Over every such run, from an account whose figures agree, the shares a position says are
   * being sold are the shares its open SELL orders add up to, for every token.
   */
  lemma {:induction false} DistinctIdsKeepAgreement(s: AccountState, run: seq<Report>, owner: Owner)
    requires Tidy(s, owner) && Agrees(s) && WellFormedRun(s, run, owner)
    ensures Tidy(Ran(s, run), owner) && Agrees(Ran(s, run)) && IdsOf(Ran(s, run)) <= Used(s, run)
    ensures forall key :: Ran(s, run).Published().OpenSellShares(key) == OpenSell(Ran(s, run), key)
  {
    if run != [] {
      var n := |run| - 1;
      var before := Ran(s, run[..n]);
      FrontIsWellFormed(s, run, owner);
      DistinctIdsKeepAgreement(s, run[..n], owner);
      ReportIsWellFormed(before, run[n], owner);
      HappenKeeps(before, EventOf(before, run[n]));
      ReportStaysTidy(before, run[n], owner);
    }
    forall key ensures Ran(s, run).Published().OpenSellShares(key) == OpenSell(Ran(s, run), key) {
      SnapshotShowsFigures(Ran(s, run), key);
    }
  }

  /** So every such run from the start agrees. */
  lemma RunsFromTheStartAgree(run: seq<Report>, owner: Owner)
    requires WellFormedRun(INITIAL, run, owner)
    ensures Agrees(Ran(INITIAL, run))
  {
    InitialLedger();
    DistinctIdsKeepAgreement(INITIAL, run, owner);
  }
}
