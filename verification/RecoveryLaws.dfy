/** One accepted recovery leaves nothing to recover, and when it does not. */
module RecoveryLaws {
  import opened Wrappers
  import opened Dict
  import opened Domain
  import opened AccountStore
  import opened AccountLaws
  import opened Projection
  import opened ReconcileActions
  import opened Reconcile
  import opened EntrySizing
  import opened Recovery
  import opened LedgerLaws
  import PauseLaws

  function OrdersOf(s: AccountState, key: Key): seq<Order> {
    OrdersFor(Values(s.openOrders), key)
  }

  // ------------------------------------------------- what the strategy reads from the account

  lemma {:induction false} OfTokenAppend(a: seq<Order>, b: seq<Order>, tokenId: string)
    ensures OfToken(a + b, tokenId) == OfToken(a, tokenId) + OfToken(b, tokenId)
  {
    if b == [] {
      assert a + b == a;
    } else {
      var n := |b| - 1;
      assert (a + b)[..|a + b| - 1] == a + b[..n];
      OfTokenAppend(a, b[..n], tokenId);
    }
  }

  lemma {:induction false} OfTokenOfMarket(orders: seq<Order>, key: Key, tokenId: string)
    ensures OfToken(OrdersFor(orders, key), tokenId) == if key.1 == tokenId then OrdersFor(orders, key) else []
  {
    if orders != [] {
      var n := |orders| - 1;
      OfTokenOfMarket(orders[..n], key, tokenId);
      if (orders[n].conditionId, orders[n].tokenId) == key {
        OfTokenAppend(OrdersFor(orders[..n], key), [orders[n]], tokenId);
        assert [orders[n]][..0] == [];
      } else {
        assert OrdersFor(orders, key) == OrdersFor(orders[..n], key);
      }
    }
  }

  predicate HasToken(m: Market, n: nat, tokenId: string)
    requires n <= |m.outcomes|
  {
    n > 0 && (m.outcomes[n - 1].tokenId == tokenId || HasToken(m, n - 1, tokenId))
  }

  /** No outcome before the k-th has its token. */
  lemma {:induction false} TokenIsNew(m: Market, n: nat, k: nat)
    requires DistinctTokens(m) && n <= k < |m.outcomes|
    ensures !HasToken(m, n, m.outcomes[k].tokenId)
  {
    if n > 0 {
      TokenIsNew(m, n - 1, k);
    }
  }

  lemma {:induction false} OutcomeHasToken(m: Market, n: nat, i: nat)
    requires i < n <= |m.outcomes|
    ensures HasToken(m, n, m.outcomes[i].tokenId)
  {
    if i < n - 1 {
      OutcomeHasToken(m, n - 1, i);
    }
  }

  lemma MarketOrdersStep(m: Market, snapshot: AccountSnapshot, n: nat, tokenId: string)
    requires 0 < n <= |m.outcomes|
    ensures OfToken(MarketOrders(m, snapshot, n), tokenId)
         == OfToken(MarketOrders(m, snapshot, n - 1), tokenId)
            + When(m.outcomes[n - 1].tokenId == tokenId, snapshot.OpenOrdersForMarket((m.conditionId, tokenId)))
  {
    var last := m.outcomes[n - 1].tokenId;
    OfTokenAppend(MarketOrders(m, snapshot, n - 1), snapshot.OpenOrdersForMarket((m.conditionId, last)), tokenId);
    OfTokenOfMarket(snapshot.openOrders, (m.conditionId, last), tokenId);
  }

  function When<T>(holds: bool, items: seq<T>): seq<T> { if holds then items else [] }

  lemma WhenEither<T>(first: bool, second: bool, items: seq<T>)
    requires !(first && second)
    ensures When(first, items) + When(second, items) == When(first || second, items)
  {}

  lemma NextToken(m: Market, snapshot: AccountSnapshot, n: nat, tokenId: string, before: seq<Order>, own: seq<Order>)
    requires DistinctTokens(m) && 0 < n <= |m.outcomes| && own == snapshot.OpenOrdersForMarket((m.conditionId, tokenId))
    requires before == OfToken(MarketOrders(m, snapshot, n - 1), tokenId) && before == When(HasToken(m, n - 1, tokenId), own)
    ensures OfToken(MarketOrders(m, snapshot, n), tokenId) == When(HasToken(m, n, tokenId), own)
  {
    var last := m.outcomes[n - 1].tokenId == tokenId;
    MarketOrdersStep(m, snapshot, n, tokenId);
    assert OfToken(MarketOrders(m, snapshot, n), tokenId) == before + When(last, own);
    TokenIsNew(m, n - 1, n - 1);
    WhenEither(HasToken(m, n - 1, tokenId), last, own);
  }

  /** Collecting the orders of all tokens and keeping those of one is asking for that one. */
  lemma {:induction false} MarketOrdersOfToken(m: Market, snapshot: AccountSnapshot, n: nat, tokenId: string)
    requires DistinctTokens(m) && n <= |m.outcomes|
    ensures OfToken(MarketOrders(m, snapshot, n), tokenId)
         == When(HasToken(m, n, tokenId), snapshot.OpenOrdersForMarket((m.conditionId, tokenId)))
  {
    if n == 0 {
      assert MarketOrders(m, snapshot, n) == [];
    } else {
      MarketOrdersOfToken(m, snapshot, n - 1, tokenId);
      NextToken(m, snapshot, n, tokenId, OfToken(MarketOrders(m, snapshot, n - 1), tokenId),
                snapshot.OpenOrdersForMarket((m.conditionId, tokenId)));
    }
  }

  lemma {:induction false} ExitIsSell(orders: seq<Order>)
    requires forall i :: 0 <= i < |orders| ==> CleanOrder(orders[i])
    ensures ExitShares(orders) == SellShares(orders)
  {
    if orders != [] {
      ExitIsSell(orders[..|orders| - 1]);
    }
  }

  predicate Stored(orders: Dict<string, Order>, o: Order) {
    exists j :: 0 <= j < |orders| && orders[j].1 == o
  }

  lemma StoredHead(orders: Dict<string, Order>, o: Order)
    requires orders != []
    ensures Stored(orders, o) <==> o == orders[0].1 || Stored(orders[1..], o)
  {
    if j :| 0 <= j < |orders[1..]| && orders[1..][j].1 == o {
      assert orders[j + 1].1 == o;
    }
    if j :| 1 <= j < |orders| && orders[j].1 == o {
      assert orders[1..][j - 1].1 == o;
    }
  }

  lemma {:induction false} OrdersOfEntries(orders: Dict<string, Order>, key: Key)
    ensures forall o :: o in OrdersFor(Values(orders), key) <==> (o.conditionId, o.tokenId) == key && Stored(orders, o)
  {
    if orders != [] {
      assert Values(orders) == [orders[0].1] + Values(orders[1..]);
      OrdersForHead(orders[0].1, Values(orders[1..]), key);
      OrdersOfEntries(orders[1..], key);
      forall o ensures Stored(orders, o) <==> o == orders[0].1 || Stored(orders[1..], o) {
        StoredHead(orders, o);
      }
    }
  }

  lemma OrdersAreClean(s: AccountState, key: Key)
    requires Sound(s)
    ensures forall i :: 0 <= i < |OrdersOf(s, key)| ==> CleanOrder(OrdersOf(s, key)[i])
  {
    OrdersOfEntries(s.openOrders, key);
    forall i | 0 <= i < |OrdersOf(s, key)| ensures CleanOrder(OrdersOf(s, key)[i]) {
      assert OrdersOf(s, key)[i] in OrdersOf(s, key);
      var j :| 0 <= j < |s.openOrders| && s.openOrders[j].1 == OrdersOf(s, key)[i];
      assert s.openOrders[j] in s.openOrders;
    }
  }

  predicate Manages(m: Market, tokenId: string) {
    DistinctTokens(m) && m.FindTokenId(PRIMARY_OUTCOME) == Some(tokenId) && tokenId != ""
  }

  function Needed(s: AccountState, key: Key, exitPrice: real): seq<Decision> {
    EntryCancels(OrdersOf(s, key)) + ShortageSale(Get(s.positions, key), Cover(s, key), exitPrice)
  }

  lemma ManagedIsOwn(s: AccountState, m: Market, tokenId: string)
    requires Manages(m, tokenId)
    ensures
      var context := ContextFor(m, s.Published());
      && ManagedOrders(context, m, tokenId) == OrdersOf(s, (m.conditionId, tokenId))
      && ManagedPosition(context, m, tokenId) == s.Published().GetPosition((m.conditionId, tokenId))
  {
    MarketOrdersOfToken(m, s.Published(), |m.outcomes|, tokenId);
  }

  /** What the strategy asks for, in terms of the account state. */
  lemma RecoverAsks(s: AccountState, m: Market, tokenId: string, exitPrice: real)
    requires Sound(s) && Manages(m, tokenId)
    ensures Recover(exitPrice, ContextFor(m, s.Published())).actions == Needed(s, (m.conditionId, tokenId), exitPrice)
  {
    var key := (m.conditionId, tokenId);
    ManagedIsOwn(s, m, tokenId);
    OrdersAreClean(s, key);
    ExitIsSell(OrdersOf(s, key));
    SnapshotShowsFigures(s, key);
  }

  // ---------------------------------------------------------------------- settled accounts

  predicate NoOpenEntries(s: AccountState, key: Key) {
    forall e :: e in s.openOrders && (e.1.conditionId, e.1.tokenId) == key ==> !e.1.OpenBuy()
  }

  function Shortage(s: AccountState, key: Key): real {
    if Get(s.positions, key).None? then 0.0 else Get(s.positions, key).value.shares - Cover(s, key)
  }

  /** No entry order rests, and exit orders cover the position. */
  predicate Settled(s: AccountState, key: Key) {
    NoOpenEntries(s, key) && Shortage(s, key) <= 0.0
  }

  lemma {:induction false} NoCancelsExactlyWhen(orders: seq<Order>)
    requires forall i :: 0 <= i < |orders| ==> CleanOrder(orders[i])
    ensures EntryCancels(orders) == [] <==> forall i :: 0 <= i < |orders| ==> !orders[i].OpenBuy()
  {
    if orders != [] {
      NoCancelsExactlyWhen(orders[..|orders| - 1]);
    }
  }

  lemma EntriesRestExactlyWhen(s: AccountState, key: Key)
    requires Sound(s)
    ensures NoOpenEntries(s, key) <==> EntryCancels(OrdersOf(s, key)) == []
  {
    var orders := OrdersOf(s, key);
    OrdersAreClean(s, key);
    NoCancelsExactlyWhen(orders);
    OrdersOfEntries(s.openOrders, key);
    if EntryCancels(orders) == [] {
      forall e | e in s.openOrders && (e.1.conditionId, e.1.tokenId) == key ensures !e.1.OpenBuy() {
        var j :| 0 <= j < |s.openOrders| && s.openOrders[j] == e;
        assert Stored(s.openOrders, e.1);
        assert e.1 in orders;
      }
    } else {
      var i :| 0 <= i < |orders| && orders[i].OpenBuy();
      assert orders[i] in orders;
      var j :| 0 <= j < |s.openOrders| && s.openOrders[j].1 == orders[i];
      assert s.openOrders[j] in s.openOrders;
    }
  }

  /** The strategy asks for nothing exactly when the account is settled. */
  lemma NothingToRecoverExactlyWhen(s: AccountState, m: Market, tokenId: string, exitPrice: real)
    requires Sound(s) && Manages(m, tokenId)
    ensures Recover(exitPrice, ContextFor(m, s.Published())).actions == [] <==> Settled(s, (m.conditionId, tokenId))
  {
    var key := (m.conditionId, tokenId);
    var cancels := EntryCancels(OrdersOf(s, key));
    var sale := ShortageSale(Get(s.positions, key), Cover(s, key), exitPrice);
    RecoverAsks(s, m, tokenId, exitPrice);
    EntriesRestExactlyWhen(s, key);
    assert cancels + sale == [] <==> cancels == [] && sale == [];
  }

  // ----------------------------------------------------------------------------- the cancels

  /** Every token holds and sells the same shares in both. */
  ghost predicate SameShares(s: AccountState, t: AccountState) {
    forall k: Key ::
      (Get(t.positions, k).Some? <==> Get(s.positions, k).Some?)
      && (Get(s.positions, k).Some? ==>
           && Get(t.positions, k).value.shares == Get(s.positions, k).value.shares
           && Get(t.positions, k).value.openSellShares == Get(s.positions, k).value.openSellShares)
  }

  lemma CancelKeepsShares(s: AccountState, action: CancelAction)
    requires WellKeyed(s) && action.sourceSide == Some(Buy)
    ensures
      var t := CancelApplied(s, action, s.Published());
      && WellKeyed(t) && SameShares(s, t) && t.openOrders == Pop(s.openOrders, action.sourceOrderId)
  {
    StepKeepsKeys(s, RemoveOrder(action.sourceOrderId));
    FirstPositionIsGet(s.positions, action.Key());
    FirstPositionHasKey(s.Published().positions, action.Key());
    var found := s.Published().GetPosition(action.Key());
    if found.Some? {
      var p := CancelledPosition(action, found.value);
      StepKeepsKeys(Step(s, RemoveOrder(action.sourceOrderId)), UpsertPosition(p));
      forall k: Key ensures Get(Put(s.positions, PositionKey(p), p), k) == if k == action.Key() then Some(p) else Get(s.positions, k) {
        GetPut(s.positions, PositionKey(p), p, k);
      }
    }
  }

  predicate Dropped(s: AccountState, t: AccountState, key: Key, id: string) {
    && Get(t.openOrders, id).None? && Get(s.openOrders, id).Some?
    && Get(s.openOrders, id).value.OpenBuy() && Get(s.openOrders, id).value.Key() == key
  }

  /** `t` is `s` without some entry orders of a token: what is held and sold is as before. */
  ghost predicate WithoutEntries(s: AccountState, t: AccountState, key: Key) {
    && WellKeyed(t) && SameShares(s, t)
    && (forall id: string :: Get(t.openOrders, id) == Get(s.openOrders, id) || Dropped(s, t, key, id))
    && (forall k: Key :: Cover(t, k) == Cover(s, k))
  }

  lemma CancelKeepsCover(t: AccountState, action: CancelAction)
    requires Get(t.openOrders, action.sourceOrderId).Some? ==> Get(t.openOrders, action.sourceOrderId).value.side == Buy
    ensures forall k: Key :: Cover(CancelApplied(t, action, t.Published()), k) == Cover(t, k)
  {
    forall k: Key ensures Cover(CancelApplied(t, action, t.Published()), k) == Cover(t, k) {
      TotalPop(t.openOrders, action.sourceOrderId, SellWeightOf(k));
    }
  }

  lemma SharesCompose(s: AccountState, t: AccountState, u: AccountState)
    requires SameShares(s, t) && SameShares(t, u)
    ensures SameShares(s, u)
  {}

  /** An action of a plan before its sale: it resumes or pauses, or cancels an entry order of the token stored in `s`. */
  predicate Clears(s: AccountState, action: ReconcileAction, key: Key) {
    match action
    case ResumeTrading => true
    case PauseTrading => true
    case CancelOrder(cancel) =>
      var source := Get(s.openOrders, cancel.sourceOrderId);
      && cancel.Key() == key && cancel.sourceSide == Some(Buy)
      && source.Some? && source.value.OpenBuy() && source.value.Key() == key
    case ReplaceOrder(_) => false
    case SubmitOrder(_) => false
  }

  lemma CancelClears(s: AccountState, t: AccountState, cancel: CancelAction, key: Key)
    requires WithoutEntries(s, t, key) && Clears(s, CancelOrder(cancel), key)
    ensures WithoutEntries(s, CancelApplied(t, cancel, t.Published()), key)
  {
    var u := CancelApplied(t, cancel, t.Published());
    CancelKeepsShares(t, cancel);
    SharesCompose(s, t, u);
    CancelKeepsCover(t, cancel);
    forall id: string ensures Get(u.openOrders, id) == Get(s.openOrders, id) || Dropped(s, u, key, id) {
      GetPop(t.openOrders, cancel.sourceOrderId, id);
    }
  }

  lemma ActionClears(s: AccountState, t: AccountState, conditionId: string, action: ReconcileAction, answer: Answer, key: Key)
    requires WithoutEntries(s, t, key) && Clears(s, action, key)
    ensures WithoutEntries(s, ApplyAction(t, conditionId, action, answer), key)
  {
    match action
    case ResumeTrading => StepKeepsKeys(t, ResumeMarket(conditionId));
    case PauseTrading =>
    case CancelOrder(cancel) => CancelClears(s, t, cancel, key);
  }

  /** No such action brings an order back, and an accepted cancel takes its own away. */
  lemma ActionTakesAway(t: AccountState, conditionId: string, action: ReconcileAction, answer: Answer, id: string)
    requires WellKeyed(t) && (action.ResumeTrading? || action.PauseTrading? || action.CancelOrder?)
    requires Get(t.openOrders, id).None?
          || (action.CancelOrder? && action.cancel.sourceOrderId == id && answer.Answer? && answer.cancelled)
    ensures Get(ApplyAction(t, conditionId, action, answer).openOrders, id).None?
  {
    if action.CancelOrder? {
      GetPop(t.openOrders, action.cancel.sourceOrderId, id);
    }
  }

  /** The exchange accepts every cancel and every submission for this market. */
  ghost predicate Accepts(exchange: Exchange, conditionId: string) {
    forall n: nat :: exchange(conditionId, n).Answer? && exchange(conditionId, n).cancelled && exchange(conditionId, n).submitted
  }

  predicate AllClear(s: AccountState, actions: seq<ReconcileAction>, key: Key) {
    forall i :: 0 <= i < |actions| ==> Clears(s, actions[i], key)
  }

  /** Whatever the exchange answers, only entry orders of the token go. */
  lemma {:induction false} ActionsClear(s: AccountState, t: AccountState, conditionId: string, actions: seq<ReconcileAction>,
                                        exchange: Exchange, key: Key)
    requires WithoutEntries(s, t, key) && AllClear(s, actions, key)
    ensures WithoutEntries(s, ApplyActions(t, conditionId, actions, exchange), key)
  {
    if actions != [] {
      var n := |actions| - 1;
      ActionsClear(s, t, conditionId, actions[..n], exchange, key);
      ActionClears(s, ApplyActions(t, conditionId, actions[..n], exchange), conditionId, actions[n], exchange(conditionId, n), key);
    }
  }

  predicate NothingStored(actions: seq<ReconcileAction>) {
    forall i :: 0 <= i < |actions| ==> !actions[i].SubmitOrder? && !actions[i].ReplaceOrder?
  }

  /** An order that is gone before the last action, or that it cancels, is gone after it. */
  lemma LastTakesAway(t: AccountState, conditionId: string, front: seq<ReconcileAction>, last: ReconcileAction,
                      actions: seq<ReconcileAction>, exchange: Exchange, id: string)
    requires WellKeyed(t) && Accepts(exchange, conditionId) && actions == front + [last]
    requires last.ResumeTrading? || last.PauseTrading? || last.CancelOrder?
    requires Get(ApplyActions(t, conditionId, front, exchange).openOrders, id).None?
          || (last.CancelOrder? && last.cancel.sourceOrderId == id)
    ensures Get(ApplyActions(t, conditionId, actions, exchange).openOrders, id).None?
  {
    var answer := exchange(conditionId, |front|);
    assert answer.Answer? && answer.cancelled;
    assert actions[..|front|] == front;
    PauseLaws.ActionsKeepKeys(t, conditionId, front, exchange);
    ActionTakesAway(ApplyActions(t, conditionId, front, exchange), conditionId, last, answer, id);
  }

  /** With every cancel accepted, every order that one names is gone. */
  lemma {:induction false} CancelledIsGone(t: AccountState, conditionId: string, actions: seq<ReconcileAction>,
                                           exchange: Exchange, i: nat)
    requires WellKeyed(t) && NothingStored(actions) && Accepts(exchange, conditionId)
    requires i < |actions| && actions[i].CancelOrder?
    ensures Get(ApplyActions(t, conditionId, actions, exchange).openOrders, actions[i].cancel.sourceOrderId).None?
  {
    var n := |actions| - 1;
    var front := actions[..n];
    forall k | 0 <= k < n ensures !front[k].SubmitOrder? && !front[k].ReplaceOrder? {
      assert front[k] == actions[k];
    }
    if i < n {
      assert front[i] == actions[i];
      CancelledIsGone(t, conditionId, front, exchange, i);
    }
    LastTakesAway(t, conditionId, front, actions[n], actions, exchange, actions[i].cancel.sourceOrderId);
  }

  /** These are orders of the token `key`, stored in `s`. */
  predicate StoredEntries(s: AccountState, orders: seq<Order>, key: Key) {
    key.1 != "" && forall i :: 0 <= i < |orders| ==>
      && CleanOrder(orders[i]) && orders[i].Key() == key
      && Get(s.openOrders, orders[i].orderId.value) == Some(orders[i])
  }

  function CancelActions(conditionId: string, orders: seq<Order>, index: Dict<string, Order>): (actions: seq<ReconcileAction>)
    ensures forall i :: 0 <= i < |actions| ==> actions[i].CancelOrder?
  {
    if orders == [] then []
    else
      var last := orders[|orders| - 1];
      CancelActions(conditionId, orders[..|orders| - 1], index)
      + (if last.OpenBuy() && last.orderId.Some?
         then [ActionOf(conditionId, CancelOf(last.tokenId, last.orderId.value), index)] else [])
  }

  lemma ActionsOfSnoc(traceId: string, conditionId: string, front: seq<Decision>, last: Decision, index: Dict<string, Order>)
    ensures ActionsOf(traceId, conditionId, front + [last], index)
         == ActionsOf(traceId, conditionId, front, index)
            + (if IntentOf(traceId, conditionId, last).None? then []
               else [ActionOf(conditionId, IntentOf(traceId, conditionId, last).value, index)])
  {
    assert (front + [last])[..|front|] == front;
  }

  lemma {:induction false} CancelsBecomeActions(s: AccountState, traceId: string, conditionId: string, orders: seq<Order>,
                                                index: Dict<string, Order>, key: Key)
    requires StoredEntries(s, orders, key)
    ensures ActionsOf(traceId, conditionId, EntryCancels(orders), index) == CancelActions(conditionId, orders, index)
  {
    if orders != [] {
      var n := |orders| - 1;
      CancelsBecomeActions(s, traceId, conditionId, orders[..n], index, key);
      if orders[n].OpenBuy() {
        ActionsOfSnoc(traceId, conditionId, EntryCancels(orders[..n]), CancelDecision(orders[n]), index);
      } else {
        assert EntryCancels(orders) == EntryCancels(orders[..n]);
      }
    }
  }

  /** The index a plan looks its orders up in finds each of them. */
  predicate Indexes(index: Dict<string, Order>, orders: seq<Order>) {
    forall i :: 0 <= i < |orders| && orders[i].orderId.Some? ==> Get(index, orders[i].orderId.value) == Some(orders[i])
  }

  predicate Cancels(actions: seq<ReconcileAction>, id: string) {
    exists i :: 0 <= i < |actions| && actions[i].CancelOrder? && actions[i].cancel.sourceOrderId == id
  }

  /** Each of the entry orders is named by a cancel. */
  predicate AllNamed(actions: seq<ReconcileAction>, orders: seq<Order>) {
    forall i :: 0 <= i < |orders| && orders[i].OpenBuy() && orders[i].orderId.Some? ==>
      Cancels(actions, orders[i].orderId.value)
  }

  lemma CancelsAppend(actions: seq<ReconcileAction>, more: seq<ReconcileAction>, id: string)
    requires Cancels(actions, id) || Cancels(more, id)
    ensures Cancels(actions + more, id)
  {
    if Cancels(actions, id) {
      var i :| 0 <= i < |actions| && actions[i].CancelOrder? && actions[i].cancel.sourceOrderId == id;
      assert (actions + more)[i] == actions[i];
    } else {
      var i :| 0 <= i < |more| && more[i].CancelOrder? && more[i].cancel.sourceOrderId == id;
      assert (actions + more)[|actions| + i] == more[i];
    }
  }

  /** The cancels of a plan are of entry orders, and every entry order has its own. */
  lemma {:induction false} CancelActionsClear(s: AccountState, orders: seq<Order>, index: Dict<string, Order>, key: Key)
    requires StoredEntries(s, orders, key) && Indexes(index, orders)
    ensures AllClear(s, CancelActions(key.0, orders, index), key)
    ensures AllNamed(CancelActions(key.0, orders, index), orders)
  {
    if orders != [] {
      var n := |orders| - 1;
      var front := CancelActions(key.0, orders[..n], index);
      var own := [ActionOf(key.0, CancelOf(orders[n].tokenId, orders[n].orderId.value), index)];
      CancelActionsClear(s, orders[..n], index, key);
      forall i | 0 <= i < |orders| && orders[i].OpenBuy() && orders[i].orderId.Some?
        ensures Cancels(CancelActions(key.0, orders, index), orders[i].orderId.value)
      {
        assert i < n ==> orders[..n][i] == orders[i];
        assert Cancels(own, orders[n].orderId.value) by {
          assert own[0].CancelOrder?;
        }
        CancelsAppend(front, if orders[n].OpenBuy() then own else [], orders[i].orderId.value);
      }
    }
  }

  /** None of the entry orders is left. */
  predicate Gone(t: AccountState, orders: seq<Order>) {
    forall i :: 0 <= i < |orders| && orders[i].OpenBuy() && orders[i].orderId.Some? ==>
      Get(t.openOrders, orders[i].orderId.value).None?
  }

  // ------------------------------------------------------------------- what is left of it

  lemma EntryOf(orders: Dict<string, Order>, id: string)
    requires Get(orders, id).Some?
    ensures (id, Get(orders, id).value) in orders
  {
    GetIsEntry(orders, id);
    var i :| 0 <= i < |orders| && orders[i] == (id, Get(orders, id).value);
    assert orders[i] in orders;
  }

  lemma OrdersAreStored(s: AccountState, key: Key)
    requires Sound(s) && key.1 != ""
    ensures StoredEntries(s, OrdersOf(s, key), key)
  {
    var orders := OrdersOf(s, key);
    OrdersAreClean(s, key);
    OrdersOfEntries(s.openOrders, key);
    forall i | 0 <= i < |orders|
      ensures (orders[i].conditionId, orders[i].tokenId) == key && Get(s.openOrders, orders[i].orderId.value) == Some(orders[i])
    {
      assert orders[i] in orders;
      var j :| 0 <= j < |s.openOrders| && s.openOrders[j].1 == orders[i];
      assert s.openOrders[j] in s.openOrders;
      EntryIsGot(s.openOrders, j);
    }
  }

  /** Without entry orders of a token, its shortage is as before; with all of them gone, none is left. */
  lemma EntriesAreGone(s: AccountState, u: AccountState, key: Key)
    requires Sound(s) && WithoutEntries(s, u, key)
    ensures Sound(u) && Shortage(u, key) == Shortage(s, key)
    ensures Gone(u, OrdersOf(s, key)) ==> NoOpenEntries(u, key)
  {
    OrdersOfEntries(s.openOrders, key);
    forall e | e in u.openOrders
      ensures CleanOrder(e.1) && (Gone(u, OrdersOf(s, key)) && (e.1.conditionId, e.1.tokenId) == key ==> !e.1.OpenBuy())
    {
      var i :| 0 <= i < |u.openOrders| && u.openOrders[i] == e;
      EntryIsGot(u.openOrders, i);
      assert Get(s.openOrders, e.0) == Some(e.1);
      EntryOf(s.openOrders, e.0);
      if (e.1.conditionId, e.1.tokenId) == key {
        var j :| 0 <= j < |s.openOrders| && s.openOrders[j] == e;
        assert Stored(s.openOrders, e.1);
        var n :| 0 <= n < |OrdersOf(s, key)| && OrdersOf(s, key)[n] == e.1;
      }
    }
  }

  lemma ShareIsKept(s: AccountState, u: AccountState, id: string, key: Key)
    requires WithoutEntries(s, u, key) && OwnId(s, id, key)
    ensures Share(u, id, key) == Share(s, id, key) && OwnId(u, id, key)
  {
    assert Get(u.openOrders, id) == Get(s.openOrders, id) || Dropped(s, u, key, id);
  }

  // -------------------------------------------------------------------------------- the sale

  /** The id a recovery sale is stored under: the strategy gives it no key of its own. */
  function ExitId(traceId: string, key: Key): string {
    traceId + ":" + key.0 + ":" + key.1 + ":" + "sell"
  }

  function ExitIntent(traceId: string, key: Key, exitPrice: real, size: real): TradeIntent {
    SellTrade(traceId, key.0, key.1, exitPrice, size, Gtc, None)
  }

  lemma SubmissionKeepsNoEntries(u: AccountState, intent: TradeIntent, snapshot: AccountSnapshot, key: Key)
    requires NoOpenEntries(u, key) && intent.SellTrade?
    ensures NoOpenEntries(SubmittedIntent(u, intent, snapshot), key)
  {
    PutEntries(u.openOrders, OrderKey(SubmittedOrder(intent)), SubmittedOrder(intent));
  }

  lemma ExitIdIs(traceId: string, key: Key, exitPrice: real, size: real)
    ensures OrderKey(SubmittedOrder(ExitIntent(traceId, key, exitPrice, size))) == ExitId(traceId, key)
    ensures CleanOrder(SubmittedOrder(ExitIntent(traceId, key, exitPrice, size))) <==> size >= 0.0
  {
    var intent := ExitIntent(traceId, key, exitPrice, size);
    assert SubmittedId(intent) == ExitId(traceId, key);
  }

  predicate AgreesAt(s: AccountState, key: Key) { OpenSell(s, key) == Cover(s, key) }

  lemma SaleOnOrders(u: AccountState, traceId: string, key: Key, exitPrice: real, size: real)
    requires Sound(u) && size >= 0.0 && OwnId(u, ExitId(traceId, key), key)
    ensures
      var v := Step(u, UpsertOrder(SubmittedOrder(ExitIntent(traceId, key, exitPrice, size))));
      Sound(v) && Cover(v, key) == Cover(u, key) - Share(u, ExitId(traceId, key), key) + size
  {
    var o := SubmittedOrder(ExitIntent(traceId, key, exitPrice, size));
    ExitIdIs(traceId, key, exitPrice, size);
    CoverAfterUpsert(u, o);
    SoundAfterUpsert(u, o);
  }

  lemma SaleOnPosition(u: AccountState, v: AccountState, intent: TradeIntent)
    requires WellKeyed(u) && Sound(v) && v.positions == u.positions && intent.SellTrade?
    requires Get(u.positions, intent.Key()).Some?
    ensures
      var w := Step(v, UpsertPosition(SubmittedPosition(intent, u.Published())));
      && Sound(w) && w.openOrders == v.openOrders && Get(w.positions, intent.Key()).Some?
      && Get(w.positions, intent.Key()).value.shares == Get(u.positions, intent.Key()).value.shares
      && Get(w.positions, intent.Key()).value.openSellShares == Cover(u, intent.Key()) + intent.sizeShares
  {
    var p := SubmittedPosition(intent, u.Published());
    SnapshotShowsFigures(u, intent.Key());
    FirstPositionHasKey(u.Published().positions, intent.Key());
    SoundAfterPosition(v, p);
    GetPut(v.positions, PositionKey(p), p, intent.Key());
  }

  /**
   * Offering the shortage for sale leaves as shortage what the id it is stored under was
   * already selling, and the figures agree exactly when that was nothing.
   */
  lemma SaleLeaves(u: AccountState, traceId: string, key: Key, exitPrice: real)
    requires Sound(u) && Get(u.positions, key).Some? && Shortage(u, key) > 0.0 && OwnId(u, ExitId(traceId, key), key)
    ensures
      var v := SubmittedIntent(u, ExitIntent(traceId, key, exitPrice, Shortage(u, key)), u.Published());
      && Sound(v) && Shortage(v, key) == Share(u, ExitId(traceId, key), key)
      && (AgreesAt(v, key) <==> Share(u, ExitId(traceId, key), key) == 0.0)
  {
    var intent := ExitIntent(traceId, key, exitPrice, Shortage(u, key));
    SaleOnOrders(u, traceId, key, exitPrice, Shortage(u, key));
    SaleOnPosition(u, Step(u, UpsertOrder(SubmittedOrder(intent))), intent);
  }

  lemma SoldSettles(u: AccountState, traceId: string, key: Key, exitPrice: real)
    requires Sound(u) && Shortage(u, key) > 0.0 && OwnId(u, ExitId(traceId, key), key)
    ensures
      var t := SubmittedIntent(u, ExitIntent(traceId, key, exitPrice, Shortage(u, key)), u.Published());
      && (NoOpenEntries(u, key) ==> (Settled(t, key) <==> Share(u, ExitId(traceId, key), key) == 0.0))
      && (AgreesAt(t, key) <==> Share(u, ExitId(traceId, key), key) == 0.0)
  {
    SaleLeaves(u, traceId, key, exitPrice);
    ShareBounds(u, ExitId(traceId, key), key);
    if NoOpenEntries(u, key) {
      SubmissionKeepsNoEntries(u, ExitIntent(traceId, key, exitPrice, Shortage(u, key)), u.Published(), key);
    }
  }

  function SaleActions(s: AccountState, traceId: string, key: Key, exitPrice: real): seq<ReconcileAction> {
    if Shortage(s, key) > 0.0 then [SubmitOrder(ExitIntent(traceId, key, exitPrice, Shortage(s, key)))] else []
  }

  lemma PositionIsOwn(s: AccountState, key: Key)
    requires WellKeyed(s)
    ensures Get(s.positions, key).Some? ==> Get(s.positions, key).value.tokenId == key.1
  {
    FirstPositionIsGet(s.positions, key);
    FirstPositionHasKey(Values(s.positions), key);
  }

  lemma SaleIntent(traceId: string, key: Key, exitPrice: real, size: real, index: Dict<string, Order>)
    requires key.1 != "" && size > 0.0
    ensures
      var intent := IntentOf(traceId, key.0, SellDecision(key.1, exitPrice, size));
      intent.Some? && ActionOf(key.0, intent.value, index) == SubmitOrder(ExitIntent(traceId, key, exitPrice, size))
  {}

  lemma SaleBecomesAction(s: AccountState, traceId: string, key: Key, exitPrice: real, cancels: seq<Decision>,
                          index: Dict<string, Order>)
    requires WellKeyed(s) && key.1 != ""
    ensures ActionsOf(traceId, key.0, cancels + ShortageSale(Get(s.positions, key), Cover(s, key), exitPrice), index)
         == ActionsOf(traceId, key.0, cancels, index) + SaleActions(s, traceId, key, exitPrice)
  {
    var size := Shortage(s, key);
    var sale := ShortageSale(Get(s.positions, key), Cover(s, key), exitPrice);
    PositionIsOwn(s, key);
    if size > 0.0 {
      assert sale == [SellDecision(key.1, exitPrice, size)];
      ActionsOfSnoc(traceId, key.0, cancels, SellDecision(key.1, exitPrice, size), index);
      SaleIntent(traceId, key, exitPrice, size, index);
    } else {
      assert sale == [] && cancels + sale == cancels;
    }
  }

  // ----------------------------------------------------------------- the index of its orders

  lemma IndexSnoc(front: seq<Order>, last: Order, id: string)
    ensures Get(OrderIndex(front + [last]), id)
         == if id == OrderKey(last) then Some(last) else Get(OrderIndex(front), id)
  {
    var orders := front + [last];
    assert KeyedOrders(orders) == KeyedOrders(front) + [(OrderKey(last), last)];
    assert KeyedOrders(orders)[..|front|] == KeyedOrders(front);
    GetPut(OrderIndex(front), OrderKey(last), last, id);
  }

  lemma {:induction false} IndexGets(orders: seq<Order>, o: Order)
    requires o in orders && forall x :: x in orders && OrderKey(x) == OrderKey(o) ==> x == o
    ensures Get(OrderIndex(orders), OrderKey(o)) == Some(o)
  {
    var n := |orders| - 1;
    var front, last := orders[..n], orders[n];
    assert orders == front + [last];
    IndexSnoc(front, last, OrderKey(o));
    if OrderKey(last) == OrderKey(o) {
      assert last in orders;
    } else {
      assert o in front;
      forall x | x in front && OrderKey(x) == OrderKey(o) ensures x == o {
        assert x in orders;
      }
      IndexGets(front, o);
    }
  }

  lemma {:induction false} OfTokenIsWithin(orders: seq<Order>, tokenId: string)
    ensures forall o :: o in OfToken(orders, tokenId) ==> o in orders
  {
    if orders != [] {
      OfTokenIsWithin(orders[..|orders| - 1], tokenId);
      assert orders == orders[..|orders| - 1] + [orders[|orders| - 1]];
    }
  }

  lemma {:induction false} MarketOrdersAreStored(s: AccountState, m: Market, n: nat)
    requires n <= |m.outcomes|
    ensures forall o :: o in MarketOrders(m, s.Published(), n) ==> Stored(s.openOrders, o)
  {
    if n > 0 {
      MarketOrdersAreStored(s, m, n - 1);
      OrdersOfEntries(s.openOrders, (m.conditionId, m.outcomes[n - 1].tokenId));
    }
  }

  lemma StoredOnce(s: AccountState, a: Order, b: Order)
    requires WellKeyed(s) && Stored(s.openOrders, a) && Stored(s.openOrders, b) && OrderKey(a) == OrderKey(b)
    ensures a == b
  {
    var i :| 0 <= i < |s.openOrders| && s.openOrders[i].1 == a;
    var j :| 0 <= j < |s.openOrders| && s.openOrders[j].1 == b;
    assert s.openOrders[i] in s.openOrders && s.openOrders[j] in s.openOrders;
    EntryIsGot(s.openOrders, i);
    EntryIsGot(s.openOrders, j);
  }

  lemma {:induction false} NamedIsAmong(outcomes: seq<MarketOutcome>, name: string)
    ensures FirstNamed(outcomes, name).Some? ==>
      exists i :: 0 <= i < |outcomes| && outcomes[i].tokenId == FirstNamed(outcomes, name).value
  {
    if outcomes != [] {
      if outcomes[0].name == name {
        assert outcomes[0].tokenId == FirstNamed(outcomes, name).value;
      } else {
        NamedIsAmong(outcomes[1..], name);
        if FirstNamed(outcomes, name).Some? {
          var i :| 0 <= i < |outcomes[1..]| && outcomes[1..][i].tokenId == FirstNamed(outcomes, name).value;
          assert outcomes[i + 1] == outcomes[1..][i];
        }
      }
    }
  }

  lemma PrimaryIsOutcome(m: Market, tokenId: string)
    requires Manages(m, tokenId)
    ensures HasToken(m, |m.outcomes|, tokenId)
  {
    NamedIsAmong(m.outcomes, PRIMARY_OUTCOME);
    var i :| 0 <= i < |m.outcomes| && m.outcomes[i].tokenId == tokenId;
    OutcomeHasToken(m, |m.outcomes|, i);
  }

  function RecoveryIndex(s: AccountState, m: Market): Dict<string, Order> {
    OrderIndex(ContextFor(m, s.Published()).openOrders)
  }

  /** A plan looks the orders of its token up among all orders of its market, and finds them. */
  lemma RecoveryIndexes(s: AccountState, m: Market, tokenId: string)
    requires Sound(s) && Manages(m, tokenId)
    ensures Indexes(RecoveryIndex(s, m), OrdersOf(s, (m.conditionId, tokenId)))
  {
    var key := (m.conditionId, tokenId);
    var all, own := MarketOrders(m, s.Published(), |m.outcomes|), OrdersOf(s, key);
    MarketOrdersAreStored(s, m, |m.outcomes|);
    MarketOrdersOfToken(m, s.Published(), |m.outcomes|, tokenId);
    PrimaryIsOutcome(m, tokenId);
    OfTokenIsWithin(all, tokenId);
    OrdersAreClean(s, key);
    OrdersOfEntries(s.openOrders, key);
    forall i | 0 <= i < |own| ensures Get(RecoveryIndex(s, m), own[i].orderId.value) == Some(own[i]) {
      assert own[i] in own && own[i] in OfToken(all, tokenId);
      forall x | x in all && OrderKey(x) == OrderKey(own[i]) ensures x == own[i] {
        StoredOnce(s, x, own[i]);
      }
      IndexGets(all, own[i]);
    }
  }

  // ------------------------------------------------------------------------- the whole plan

  function ResumePart(s: AccountState, plan: MarketPlan): seq<ReconcileAction> {
    if s.Published().PauseForMarket(plan.market.conditionId).Some? && !plan.pauseTrading then [ResumeTrading] else []
  }

  function PausePart(plan: MarketPlan): seq<ReconcileAction> {
    if plan.pauseTrading then [PauseTrading] else []
  }

  lemma RecoveryActionsAre(s: AccountState, m: Market, tokenId: string, exitPrice: real, traceId: string,
                           index: Dict<string, Order>)
    requires Sound(s) && Manages(m, tokenId)
    ensures
      var key := (m.conditionId, tokenId);
      ActionsOf(traceId, m.conditionId, Recover(exitPrice, ContextFor(m, s.Published())).actions, index)
        == CancelActions(key.0, OrdersOf(s, key), index) + SaleActions(s, traceId, key, exitPrice)
  {
    var key := (m.conditionId, tokenId);
    RecoverAsks(s, m, tokenId, exitPrice);
    OrdersAreStored(s, key);
    CancelsBecomeActions(s, traceId, key.0, OrdersOf(s, key), index, key);
    SaleBecomesAction(s, traceId, key, exitPrice, EntryCancels(OrdersOf(s, key)), index);
  }

  /** The actions of a plan before its sale. */
  function ClearingActions(s: AccountState, plan: MarketPlan, key: Key): seq<ReconcileAction> {
    ResumePart(s, plan) + CancelActions(key.0, OrdersOf(s, key), RecoveryIndex(s, plan.market))
  }

  lemma PlanActionsAre(s: AccountState, m: Market, exitPrice: real, traceId: string)
    ensures
      var plan := PlanFor(m, s.Published(), RecoveryHook(exitPrice), traceId);
      && plan.market == m
      && plan.actions
        == ResumePart(s, plan)
           + ActionsOf(traceId, m.conditionId, Recover(exitPrice, ContextFor(m, s.Published())).actions, RecoveryIndex(s, m))
           + PausePart(plan)
  {}

  lemma Regroup<T>(a: seq<T>, b: seq<T>, c: seq<T>, d: seq<T>)
    ensures a + (b + c) + d == a + b + c + d
  {}

  /** A recovery plan resumes or pauses its market, cancels its entries and offers its shortage. */
  lemma RecoveryPlanIs(s: AccountState, m: Market, tokenId: string, exitPrice: real, traceId: string)
    requires Sound(s) && Manages(m, tokenId)
    ensures
      var key := (m.conditionId, tokenId);
      var plan := PlanFor(m, s.Published(), RecoveryHook(exitPrice), traceId);
      && plan.market == m
      && plan.actions == ClearingActions(s, plan, key) + SaleActions(s, traceId, key, exitPrice) + PausePart(plan)
  {
    var key := (m.conditionId, tokenId);
    var plan := PlanFor(m, s.Published(), RecoveryHook(exitPrice), traceId);
    RecoveryActionsAre(s, m, tokenId, exitPrice, traceId, RecoveryIndex(s, m));
    PlanActionsAre(s, m, exitPrice, traceId);
    Regroup(ResumePart(s, plan), CancelActions(key.0, OrdersOf(s, key), RecoveryIndex(s, m)),
            SaleActions(s, traceId, key, exitPrice), PausePart(plan));
  }

  lemma OneMoreAction(s: AccountState, conditionId: string, actions: seq<ReconcileAction>, last: ReconcileAction,
                      exchange: Exchange)
    ensures ApplyActions(s, conditionId, actions + [last], exchange)
         == ApplyAction(ApplyActions(s, conditionId, actions, exchange), conditionId, last, exchange(conditionId, |actions|))
  {
    assert (actions + [last])[..|actions|] == actions;
  }

  /** Applying actions that end with the part that says a plan pauses: that part does nothing. */
  lemma PausePartDoesNothing(s: AccountState, plan: MarketPlan, actions: seq<ReconcileAction>, exchange: Exchange)
    ensures ApplyActions(s, plan.market.conditionId, actions + PausePart(plan), exchange)
         == ApplyActions(s, plan.market.conditionId, actions, exchange)
  {
    if plan.pauseTrading {
      OneMoreAction(s, plan.market.conditionId, actions, PauseTrading, exchange);
    } else {
      assert actions + PausePart(plan) == actions;
    }
  }

  /** Such a plan without a sale is what precedes it. */
  lemma PlanIsCleared(t: AccountState, plan: MarketPlan, clear: seq<ReconcileAction>, exchange: Exchange)
    requires plan.actions == clear + [] + PausePart(plan)
    ensures ApplyPlan(t, plan, exchange) == ApplyActions(PauseFor(t, plan), plan.market.conditionId, clear, exchange)
  {
    assert clear + [] == clear;
    PausePartDoesNothing(PauseFor(t, plan), plan, clear, exchange);
  }

  /** And with one, the sale on top of it. */
  lemma PlanIsSold(t: AccountState, plan: MarketPlan, clear: seq<ReconcileAction>, sale: ReconcileAction, exchange: Exchange)
    requires plan.actions == clear + [sale] + PausePart(plan)
    ensures
      var id := plan.market.conditionId;
      ApplyPlan(t, plan, exchange)
        == ApplyAction(ApplyActions(PauseFor(t, plan), id, clear, exchange), id, sale, exchange(id, |clear|))
  {
    PausePartDoesNothing(PauseFor(t, plan), plan, clear + [sale], exchange);
    OneMoreAction(PauseFor(t, plan), plan.market.conditionId, clear, sale, exchange);
  }

  /** The orders and the position of a token are the same in both. */
  predicate SameToken(s: AccountState, t: AccountState, key: Key) {
    OrdersOf(t, key) == OrdersOf(s, key) && Get(t.positions, key) == Get(s.positions, key)
  }

  lemma SameTokenSameFigures(s: AccountState, t: AccountState, key: Key)
    requires SameToken(s, t, key)
    ensures Cover(t, key) == Cover(s, key) && Shortage(t, key) == Shortage(s, key) && OpenSell(t, key) == OpenSell(s, key)
  {
    SellSharesIsTotal(s.openOrders, key);
    SellSharesIsTotal(t.openOrders, key);
  }

  lemma PausingKeeps(t: AccountState, plan: MarketPlan, key: Key)
    requires Sound(t)
    ensures WithoutEntries(t, PauseFor(t, plan), key)
  {
    StepKeepsKeys(t, PauseMarket(PausedBy(plan)));
  }

  lemma ClearingActionsClear(s: AccountState, t: AccountState, plan: MarketPlan, key: Key)
    requires Sound(s) && Sound(t) && SameToken(s, t, key) && key.1 != ""
    requires Indexes(RecoveryIndex(s, plan.market), OrdersOf(s, key))
    ensures AllClear(t, ClearingActions(s, plan, key), key)
    ensures AllNamed(ClearingActions(s, plan, key), OrdersOf(t, key))
  {
    var orders := OrdersOf(t, key);
    var index := RecoveryIndex(s, plan.market);
    OrdersAreStored(t, key);
    CancelActionsClear(t, orders, index, key);
    ResumedFirst(t, ResumePart(s, plan), CancelActions(key.0, orders, index), orders, key);
  }

  lemma ResumedFirst(t: AccountState, resume: seq<ReconcileAction>, cancels: seq<ReconcileAction>, orders: seq<Order>, key: Key)
    requires forall i :: 0 <= i < |resume| ==> resume[i].ResumeTrading?
    requires AllClear(t, cancels, key) && AllNamed(cancels, orders)
    ensures AllClear(t, resume + cancels, key) && AllNamed(resume + cancels, orders)
  {
    forall i | 0 <= i < |resume + cancels| ensures Clears(t, (resume + cancels)[i], key) {
      if i >= |resume| {
        assert (resume + cancels)[i] == cancels[i - |resume|];
      }
    }
    forall i | 0 <= i < |orders| && orders[i].OpenBuy() && orders[i].orderId.Some?
      ensures Cancels(resume + cancels, orders[i].orderId.value)
    {
      CancelsAppend(resume, cancels, orders[i].orderId.value);
    }
  }

  /** The account `t` once a plan made from `s` has paused or resumed its market and cancelled its entries. */
  function Cleared(s: AccountState, t: AccountState, plan: MarketPlan, key: Key, exchange: Exchange): AccountState {
    ApplyActions(PauseFor(t, plan), key.0, ClearingActions(s, plan, key), exchange)
  }

  lemma AllAreGone(t: AccountState, conditionId: string, actions: seq<ReconcileAction>, exchange: Exchange, orders: seq<Order>)
    requires WellKeyed(t) && NothingStored(actions) && Accepts(exchange, conditionId)
    requires AllNamed(actions, orders)
    ensures Gone(ApplyActions(t, conditionId, actions, exchange), orders)
  {
    var u := ApplyActions(t, conditionId, actions, exchange);
    forall i | 0 <= i < |orders| && orders[i].OpenBuy() && orders[i].orderId.Some?
      ensures Get(u.openOrders, orders[i].orderId.value).None?
    {
      var j :| 0 <= j < |actions| && actions[j].CancelOrder? && actions[j].cancel.sourceOrderId == orders[i].orderId.value;
      CancelledIsGone(t, conditionId, actions, exchange, j);
    }
  }

  lemma ClearingStoresNothing(s: AccountState, actions: seq<ReconcileAction>, key: Key)
    requires AllClear(s, actions, key)
    ensures NothingStored(actions)
  {
    forall i | 0 <= i < |actions| ensures !actions[i].SubmitOrder? && !actions[i].ReplaceOrder? {
      assert Clears(s, actions[i], key);
    }
  }

  /** It is `t` without entries of the token; when the exchange accepts, without any. */
  lemma PlanClears(s: AccountState, t: AccountState, plan: MarketPlan, key: Key, exchange: Exchange)
    requires Sound(s) && Sound(t) && SameToken(s, t, key) && key.1 != ""
    requires Indexes(RecoveryIndex(s, plan.market), OrdersOf(s, key))
    ensures
      var u := Cleared(s, t, plan, key, exchange);
      && WithoutEntries(t, u, key) && Sound(u) && Shortage(u, key) == Shortage(t, key)
      && (Accepts(exchange, key.0) ==> NoOpenEntries(u, key))
  {
    var clear, paused := ClearingActions(s, plan, key), PauseFor(t, plan);
    PausingKeeps(t, plan, key);
    ClearingActionsClear(s, t, plan, key);
    ClearingStoresNothing(t, clear, key);
    ActionsClear(t, paused, key.0, clear, exchange, key);
    EntriesAreGone(t, ApplyActions(paused, key.0, clear, exchange), key);
    if Accepts(exchange, key.0) {
      AllAreGone(paused, key.0, clear, exchange, OrdersOf(t, key));
    }
  }

  /**
   * What came of recovering a token from `s`. Accepted, it is settled exactly when nothing
   * was short or the id the sale is stored under was selling nothing, and the figures still
   * agree exactly when it is settled. Accepted or not, with nothing under that id they agree.
   */
  predicate Recovered(s: AccountState, t: AccountState, traceId: string, key: Key, accepted: bool) {
    var share := Share(s, ExitId(traceId, key), key);
    && (accepted ==> (Settled(t, key) <==> Shortage(s, key) <= 0.0 || share == 0.0))
    && (accepted && AgreesAt(s, key) ==> (AgreesAt(t, key) <==> Settled(t, key)))
    && (share == 0.0 && AgreesAt(s, key) ==> AgreesAt(t, key))
  }

  /** Clearing alone recovers a token with nothing to sell; its figures agree as they did. */
  lemma ClearedRecovers(t: AccountState, u: AccountState, traceId: string, key: Key, accepted: bool)
    requires WithoutEntries(t, u, key) && Shortage(u, key) == Shortage(t, key) && (accepted ==> NoOpenEntries(u, key))
    ensures AgreesAt(u, key) <==> AgreesAt(t, key)
    ensures Shortage(t, key) <= 0.0 || !accepted ==> Recovered(t, u, traceId, key, accepted)
  {}

  /** A sale that goes through recovers what is left. */
  lemma SoldRecovers(t: AccountState, u: AccountState, traceId: string, key: Key, exitPrice: real, accepted: bool)
    requires WithoutEntries(t, u, key) && Sound(u) && Shortage(u, key) == Shortage(t, key) && Shortage(u, key) > 0.0
    requires accepted ==> NoOpenEntries(u, key)
    requires OwnId(t, ExitId(traceId, key), key)
    ensures Recovered(t, SubmittedIntent(u, ExitIntent(traceId, key, exitPrice, Shortage(u, key)), u.Published()),
                      traceId, key, accepted)
  {
    ShareIsKept(t, u, ExitId(traceId, key), key);
    SoldSettles(u, traceId, key, exitPrice);
  }

  /** What one market's plan, made from `s`, comes to when it is carried out on an account with the same token. */
  lemma PlanRecovers(s: AccountState, t: AccountState, m: Market, tokenId: string, exitPrice: real, traceId: string,
                     exchange: Exchange)
    requires Sound(s) && Sound(t) && Manages(m, tokenId) && SameToken(s, t, (m.conditionId, tokenId))
    requires OwnId(t, ExitId(traceId, (m.conditionId, tokenId)), (m.conditionId, tokenId))
    ensures
      var key := (m.conditionId, tokenId);
      var plan := PlanFor(m, s.Published(), RecoveryHook(exitPrice), traceId);
      Recovered(t, ApplyPlan(t, plan, exchange), traceId, key, Accepts(exchange, m.conditionId))
  {
    var key := (m.conditionId, tokenId);
    var plan := PlanFor(m, s.Published(), RecoveryHook(exitPrice), traceId);
    var clear := ClearingActions(s, plan, key);
    var u := Cleared(s, t, plan, key, exchange);
    var accepted := Accepts(exchange, key.0);
    RecoveryPlanIs(s, m, tokenId, exitPrice, traceId);
    SameTokenSameFigures(s, t, key);
    RecoveryIndexes(s, m, tokenId);
    PlanClears(s, t, plan, key, exchange);
    PlanEnds(s, t, plan, key, exitPrice, traceId, exchange);
    ClearedRecovers(t, u, traceId, key, accepted);
    if Sold(s, key, exchange, |clear|) {
      SoldRecovers(t, u, traceId, key, exitPrice, accepted);
    }
  }

  /** The sale of a plan goes through: there is one, after `n` other actions, and the exchange takes it. */
  predicate Sold(s: AccountState, key: Key, exchange: Exchange, n: nat) {
    Shortage(s, key) > 0.0 && exchange(key.0, n).Answer? && exchange(key.0, n).submitted
  }

  lemma PlanEnds(s: AccountState, t: AccountState, plan: MarketPlan, key: Key, exitPrice: real, traceId: string,
                 exchange: Exchange)
    requires plan.market.conditionId == key.0
    requires plan.actions == ClearingActions(s, plan, key) + SaleActions(s, traceId, key, exitPrice) + PausePart(plan)
    ensures
      var u := Cleared(s, t, plan, key, exchange);
      ApplyPlan(t, plan, exchange)
        == if Sold(s, key, exchange, |ClearingActions(s, plan, key)|)
           then SubmittedIntent(u, ExitIntent(traceId, key, exitPrice, Shortage(s, key)), u.Published()) else u
  {
    var clear := ClearingActions(s, plan, key);
    if Shortage(s, key) > 0.0 {
      PlanIsSold(t, plan, clear, SubmitOrder(ExitIntent(traceId, key, exitPrice, Shortage(s, key))), exchange);
    } else {
      PlanIsCleared(t, plan, clear, exchange);
    }
  }
}
