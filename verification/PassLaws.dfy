/**
 * A whole reconcile pass under the current strategy. Every market's plan is made from the
 * same snapshot, and all plans act on one dictionary of orders in turn: what the plans of
 * the other markets leave alone, and what the pass comes to for each market.
 */
module PassLaws {
  import opened Wrappers
  import opened Dict
  import opened Domain
  import opened AccountStore
  import opened AccountLaws
  import opened Projection
  import opened ReconcileActions
  import opened Reconcile
  import opened EntrySizing
  import opened Recovery
  import opened LedgerLaws
  import opened PauseLaws
  import opened RecoveryLaws

  /** A market whose primary outcome, if it has one, the strategy manages. */
  predicate Recoverable(m: Market) {
    m.FindTokenId(PRIMARY_OUTCOME).Some? ==> Manages(m, m.FindTokenId(PRIMARY_OUTCOME).value)
  }

  predicate AllRecoverable(markets: seq<Market>) {
    forall i :: 0 <= i < |markets| ==> Recoverable(markets[i])
  }

  predicate Managed(m: Market) { m.FindTokenId(PRIMARY_OUTCOME).Some? }

  function ManagedKey(m: Market): Key { (m.conditionId, m.FindTokenId(PRIMARY_OUTCOME).GetOr("")) }

  function SaleId(m: Market, traceId: string): string { ExitId(traceId, ManagedKey(m)) }

  /** The ids the sales of a pass are stored under differ. */
  predicate SalesApart(markets: seq<Market>, traceId: string) {
    forall i, j :: 0 <= i < j < |markets| ==> SaleId(markets[i], traceId) != SaleId(markets[j], traceId)
  }

  /** An order stored under the id of a sale is an order of the same token. */
  predicate SalesOwn(s: AccountState, markets: seq<Market>, traceId: string) {
    forall i :: 0 <= i < |markets| ==> OwnId(s, SaleId(markets[i], traceId), ManagedKey(markets[i]))
  }

  // ------------------------------------------------------------------- ids of the sales

  predicate Plain(id: string) { ':' !in id }

  lemma ColonAfterPlain(a: string, x: string)
    requires Plain(a)
    ensures (a + ":" + x)[|a|] == ':' && forall i :: 0 <= i < |a| ==> (a + ":" + x)[i] != ':'
    ensures (a + ":" + x)[..|a|] == a
  {}

  lemma FirstColon(a: string, b: string, x: string, y: string)
    requires Plain(a) && Plain(b) && a + ":" + x == b + ":" + y
    ensures a == b
  {
    ColonAfterPlain(a, x);
    ColonAfterPlain(b, y);
  }

  lemma SamePrefix(p: string, x: string, y: string)
    requires p + x == p + y
    ensures x == y
  {
    assert (p + x)[|p|..] == x && (p + y)[|p|..] == y;
  }

  /** Sales of different markets have different ids, when condition ids hold no colon. */
  lemma PlainIdsKeepSalesApart(markets: seq<Market>, traceId: string)
    requires DistinctIds(markets) && forall i :: 0 <= i < |markets| ==> Plain(markets[i].conditionId)
    ensures SalesApart(markets, traceId)
  {
    forall i, j | 0 <= i < j < |markets| ensures SaleId(markets[i], traceId) != SaleId(markets[j], traceId) {
      var a, b := ManagedKey(markets[i]), ManagedKey(markets[j]);
      if ExitId(traceId, a) == ExitId(traceId, b) {
        var p := traceId + ":";
        var x, y := a.1 + ":" + "sell", b.1 + ":" + "sell";
        assert ExitId(traceId, a) == p + (a.0 + ":" + x);
        assert ExitId(traceId, b) == p + (b.0 + ":" + y);
        SamePrefix(p, a.0 + ":" + x, b.0 + ":" + y);
        FirstColon(a.0, b.0, x, y);
      }
    }
  }

  // --------------------------------------------------------- what other markets leave alone

  lemma TokenOrdersHead(head: (string, Order), rest: Dict<string, Order>, key: Key)
    ensures OrdersFor(Values([head] + rest), key)
         == (if head.1.Key() == key then [head.1] else []) + OrdersFor(Values(rest), key)
  {
    assert Values([head] + rest) == [head.1] + Values(rest);
    OrdersForHead(head.1, Values(rest), key);
  }

  lemma {:induction false} PutElsewhere(orders: Dict<string, Order>, id: string, o: Order, key: Key)
    requires o.Key() != key && (Get(orders, id).Some? ==> Get(orders, id).value.Key() != key)
    ensures OrdersFor(Values(Put(orders, id, o)), key) == OrdersFor(Values(orders), key)
  {
    if orders == [] {
      TokenOrdersHead((id, o), [], key);
    } else {
      var rest := orders[1..];
      assert orders == [orders[0]] + rest;
      TokenOrdersHead(orders[0], rest, key);
      if orders[0].0 == id {
        TokenOrdersHead((id, o), rest, key);
      } else {
        PutElsewhere(rest, id, o, key);
        TokenOrdersHead(orders[0], Put(rest, id, o), key);
      }
    }
  }

  lemma {:induction false} PopElsewhere(orders: Dict<string, Order>, id: string, key: Key)
    requires Get(orders, id).Some? ==> Get(orders, id).value.Key() != key
    ensures OrdersFor(Values(Pop(orders, id)), key) == OrdersFor(Values(orders), key)
  {
    if orders != [] {
      var rest := orders[1..];
      assert orders == [orders[0]] + rest;
      TokenOrdersHead(orders[0], rest, key);
      if orders[0].0 != id {
        PopElsewhere(rest, id, key);
        TokenOrdersHead(orders[0], Pop(rest, id), key);
      }
    }
  }

  /** An action on a token: it cancels an order of the token stored in `s`, or submits the token's sale. */
  predicate ActsOn(s: AccountState, action: ReconcileAction, traceId: string, key: Key) {
    match action
    case ResumeTrading => true
    case PauseTrading => true
    case CancelOrder(cancel) =>
      cancel.Key() == key && Get(s.openOrders, cancel.sourceOrderId).Some? && OwnId(s, cancel.sourceOrderId, key)
    case SubmitOrder(intent) =>
      && intent.SellTrade? && intent.Key() == key && CleanOrder(SubmittedOrder(intent))
      && OrderKey(SubmittedOrder(intent)) == ExitId(traceId, key)
    case ReplaceOrder(_) => false
  }

  /** In `t`, every id of `s` is still of the token it was of, and every sale's id of its own. */
  ghost predicate IdsKept(s: AccountState, t: AccountState, markets: seq<Market>, traceId: string) {
    && SalesOwn(t, markets, traceId)
    && (forall id: string :: Get(s.openOrders, id).Some? ==> OwnId(t, id, Get(s.openOrders, id).value.Key()))
  }

  lemma CancelActs(t: AccountState, cancel: CancelAction)
    requires Sound(t)
    ensures
      var u := CancelApplied(t, cancel, t.Published());
      && Sound(u) && u.openOrders == Pop(t.openOrders, cancel.sourceOrderId)
      && forall key: Key :: key != cancel.Key() ==> Get(u.positions, key) == Get(t.positions, key)
  {
    var removed := Step(t, RemoveOrder(cancel.sourceOrderId));
    SoundAfterRemove(t, cancel.sourceOrderId);
    FirstPositionHasKey(t.Published().positions, cancel.Key());
    var position := t.Published().GetPosition(cancel.Key());
    if position.Some? {
      var p := CancelledPosition(cancel, position.value);
      SoundAfterPosition(removed, p);
      forall key: Key ensures key != cancel.Key() ==> Get(Put(t.positions, PositionKey(p), p), key) == Get(t.positions, key) {
        GetPut(t.positions, PositionKey(p), p, key);
      }
    }
  }

  lemma SubmissionActs(t: AccountState, intent: TradeIntent)
    requires Sound(t) && CleanOrder(SubmittedOrder(intent))
    ensures
      var o := SubmittedOrder(intent);
      var u := SubmittedIntent(t, intent, t.Published());
      && Sound(u) && u.openOrders == Put(t.openOrders, OrderKey(o), o)
      && forall key: Key :: key != intent.Key() ==> Get(u.positions, key) == Get(t.positions, key)
  {
    var o, p := SubmittedOrder(intent), SubmittedPosition(intent, t.Published());
    SoundAfterUpsert(t, o);
    FirstPositionHasKey(t.Published().positions, intent.Key());
    SoundAfterPosition(Step(t, UpsertOrder(o)), p);
    forall key: Key ensures key != intent.Key() ==> Get(Put(t.positions, PositionKey(p), p), key) == Get(t.positions, key) {
      GetPut(t.positions, PositionKey(p), p, key);
    }
  }

  lemma CancelKeepsIds(s: AccountState, t: AccountState, u: AccountState, markets: seq<Market>, traceId: string, id: string)
    requires WellKeyed(t) && IdsKept(s, t, markets, traceId) && u.openOrders == Pop(t.openOrders, id)
    ensures IdsKept(s, u, markets, traceId)
  {
    forall other: string ensures Get(u.openOrders, other).Some? ==> Get(u.openOrders, other) == Get(t.openOrders, other) {
      GetPop(t.openOrders, id, other);
    }
  }

  /** Among the sales of `markets` only the token's own has the id its sale is stored under. */
  predicate ApartFrom(markets: seq<Market>, traceId: string, key: Key) {
    forall i :: 0 <= i < |markets| && SaleId(markets[i], traceId) == ExitId(traceId, key) ==> ManagedKey(markets[i]) == key
  }

  lemma OwnIsApart(markets: seq<Market>, traceId: string, k: nat)
    requires SalesApart(markets, traceId) && k < |markets|
    ensures ApartFrom(markets, traceId, ManagedKey(markets[k]))
  {
    forall i | 0 <= i < |markets| && i != k ensures SaleId(markets[i], traceId) != SaleId(markets[k], traceId) {}
  }

  lemma SaleKeepsIds(s: AccountState, t: AccountState, u: AccountState, markets: seq<Market>, traceId: string, key: Key, o: Order)
    requires IdsKept(s, t, markets, traceId) && ApartFrom(markets, traceId, key) && OwnId(s, ExitId(traceId, key), key)
    requires o.Key() == key && u.openOrders == Put(t.openOrders, ExitId(traceId, key), o)
    ensures IdsKept(s, u, markets, traceId)
  {
    var sale := ExitId(traceId, key);
    forall id: string ensures Get(u.openOrders, id) == if id == sale then Some(o) else Get(t.openOrders, id) {
      GetPut(t.openOrders, sale, o, id);
    }
    forall i | 0 <= i < |markets| ensures OwnId(u, SaleId(markets[i], traceId), ManagedKey(markets[i])) {
      assert OwnId(t, SaleId(markets[i], traceId), ManagedKey(markets[i]));
    }
    forall id: string | Get(s.openOrders, id).Some? ensures OwnId(u, id, Get(s.openOrders, id).value.Key()) {
      assert OwnId(t, id, Get(s.openOrders, id).value.Key());
    }
  }

  /** With the same orders, the same ids. */
  lemma SameOrdersKeepIds(s: AccountState, t: AccountState, u: AccountState, markets: seq<Market>, traceId: string)
    requires IdsKept(s, t, markets, traceId) && u.openOrders == t.openOrders
    ensures IdsKept(s, u, markets, traceId)
  {
    forall i | 0 <= i < |markets| ensures OwnId(u, SaleId(markets[i], traceId), ManagedKey(markets[i])) {
      assert OwnId(t, SaleId(markets[i], traceId), ManagedKey(markets[i]));
    }
  }

  /** Whatever the exchange answers, an action on one market's token keeps the account sound and its ids in place. */
  lemma ActionKeepsIds(s: AccountState, t: AccountState, markets: seq<Market>, traceId: string, key: Key,
                       conditionId: string, action: ReconcileAction, answer: Answer)
    requires ApartFrom(markets, traceId, key) && OwnId(s, ExitId(traceId, key), key)
    requires Sound(t) && IdsKept(s, t, markets, traceId) && ActsOn(s, action, traceId, key)
    ensures
      var u := ApplyAction(t, conditionId, action, answer);
      Sound(u) && IdsKept(s, u, markets, traceId)
  {
    match action
    case PauseTrading =>
    case ResumeTrading =>
      StepKeepsKeys(t, ResumeMarket(conditionId));
      SameOrdersKeepIds(s, t, Step(t, ResumeMarket(conditionId)), markets, traceId);
    case CancelOrder(cancel) =>
      CancelActs(t, cancel);
      CancelKeepsIds(s, t, CancelApplied(t, cancel, t.Published()), markets, traceId, cancel.sourceOrderId);
    case SubmitOrder(intent) =>
      SubmissionActs(t, intent);
      SaleKeepsIds(s, t, SubmittedIntent(t, intent, t.Published()), markets, traceId, key, SubmittedOrder(intent));
  }

  /** And leaves every other token alone. */
  lemma ActionSpares(s: AccountState, t: AccountState, markets: seq<Market>, traceId: string, k: nat,
                     conditionId: string, action: ReconcileAction, answer: Answer, key: Key)
    requires k < |markets| && Sound(t) && IdsKept(s, t, markets, traceId)
    requires ActsOn(s, action, traceId, ManagedKey(markets[k])) && key != ManagedKey(markets[k])
    ensures SameToken(t, ApplyAction(t, conditionId, action, answer), key)
  {
    match action
    case PauseTrading =>
    case ResumeTrading =>
    case CancelOrder(cancel) =>
      assert OwnId(t, cancel.sourceOrderId, Get(s.openOrders, cancel.sourceOrderId).value.Key());
      CancelSpares(t, cancel, key);
    case SubmitOrder(intent) =>
      assert OwnId(t, SaleId(markets[k], traceId), ManagedKey(markets[k]));
      SubmissionSpares(t, intent, key);
  }

  lemma CancelSpares(t: AccountState, cancel: CancelAction, key: Key)
    requires Sound(t) && OwnId(t, cancel.sourceOrderId, cancel.Key()) && key != cancel.Key()
    ensures SameToken(t, CancelApplied(t, cancel, t.Published()), key)
  {
    CancelActs(t, cancel);
    PopElsewhere(t.openOrders, cancel.sourceOrderId, key);
  }

  lemma SubmissionSpares(t: AccountState, intent: TradeIntent, key: Key)
    requires Sound(t) && CleanOrder(SubmittedOrder(intent)) && key != intent.Key()
    requires OwnId(t, OrderKey(SubmittedOrder(intent)), intent.Key())
    ensures SameToken(t, SubmittedIntent(t, intent, t.Published()), key)
  {
    SubmissionActs(t, intent);
    PutElsewhere(t.openOrders, OrderKey(SubmittedOrder(intent)), SubmittedOrder(intent), key);
  }

  predicate AllActOn(s: AccountState, actions: seq<ReconcileAction>, traceId: string, key: Key) {
    forall i :: 0 <= i < |actions| ==> ActsOn(s, actions[i], traceId, key)
  }

  lemma {:induction false} ActionsKeepIds(s: AccountState, t: AccountState, markets: seq<Market>, traceId: string, key: Key,
                                          conditionId: string, actions: seq<ReconcileAction>, exchange: Exchange)
    requires ApartFrom(markets, traceId, key) && OwnId(s, ExitId(traceId, key), key)
    requires Sound(t) && IdsKept(s, t, markets, traceId) && AllActOn(s, actions, traceId, key)
    ensures
      var u := ApplyActions(t, conditionId, actions, exchange);
      Sound(u) && IdsKept(s, u, markets, traceId)
  {
    if actions != [] {
      var n := |actions| - 1;
      ActionsKeepIds(s, t, markets, traceId, key, conditionId, actions[..n], exchange);
      ActionKeepsIds(s, ApplyActions(t, conditionId, actions[..n], exchange), markets, traceId, key, conditionId, actions[n],
                     exchange(conditionId, n));
    }
  }

  lemma {:induction false} ActionsSpare(s: AccountState, t: AccountState, markets: seq<Market>, traceId: string, k: nat,
                                        conditionId: string, actions: seq<ReconcileAction>, exchange: Exchange, key: Key)
    requires SalesApart(markets, traceId) && SalesOwn(s, markets, traceId) && k < |markets|
    requires Sound(t) && IdsKept(s, t, markets, traceId) && AllActOn(s, actions, traceId, ManagedKey(markets[k]))
    requires key != ManagedKey(markets[k])
    ensures SameToken(t, ApplyActions(t, conditionId, actions, exchange), key)
  {
    if actions != [] {
      var n := |actions| - 1;
      ActionsSpare(s, t, markets, traceId, k, conditionId, actions[..n], exchange, key);
      OwnIsApart(markets, traceId, k);
      ActionsKeepIds(s, t, markets, traceId, ManagedKey(markets[k]), conditionId, actions[..n], exchange);
      ActionSpares(s, ApplyActions(t, conditionId, actions[..n], exchange), markets, traceId, k, conditionId, actions[n],
                   exchange(conditionId, n), key);
    }
  }

  // -------------------------------------------------------------------- the plans of a pass

  function PlanOf(s: AccountState, m: Market, exitPrice: real, traceId: string): MarketPlan {
    PlanFor(m, s.Published(), RecoveryHook(exitPrice), traceId)
  }

  lemma ClearingActs(s: AccountState, action: ReconcileAction, traceId: string, key: Key)
    requires Clears(s, action, key)
    ensures ActsOn(s, action, traceId, key)
  {}

  lemma JoinedActs(s: AccountState, clear: seq<ReconcileAction>, sale: seq<ReconcileAction>, plan: MarketPlan,
                   traceId: string, key: Key)
    requires AllActOn(s, clear, traceId, key) && AllActOn(s, sale, traceId, key)
    ensures AllActOn(s, clear + sale + PausePart(plan), traceId, key)
  {}

  lemma SaleActs(s: AccountState, traceId: string, key: Key, exitPrice: real)
    ensures AllActOn(s, SaleActions(s, traceId, key, exitPrice), traceId, key)
  {
    ExitIdIs(traceId, key, exitPrice, Shortage(s, key));
  }

  lemma ClearingPartActs(s: AccountState, m: Market, plan: MarketPlan, traceId: string)
    requires Sound(s) && Managed(m) && Recoverable(m) && plan.market == m
    ensures AllActOn(s, ClearingActions(s, plan, ManagedKey(m)), traceId, ManagedKey(m))
  {
    var key := ManagedKey(m);
    var clear := ClearingActions(s, plan, key);
    RecoveryIndexes(s, m, key.1);
    ClearingActionsClear(s, s, plan, key);
    forall i | 0 <= i < |clear| ensures ActsOn(s, clear[i], traceId, key) {
      ClearingActs(s, clear[i], traceId, key);
    }
  }

  /** Every action of a recovery plan acts on the market's own token. */
  lemma PlanActsOnOwn(s: AccountState, m: Market, exitPrice: real, traceId: string)
    requires Sound(s) && Recoverable(m)
    ensures AllActOn(s, PlanOf(s, m, exitPrice, traceId).actions, traceId, ManagedKey(m))
  {
    var key := ManagedKey(m);
    var plan := PlanOf(s, m, exitPrice, traceId);
    PlanActionsAre(s, m, exitPrice, traceId);
    if Managed(m) {
      RecoveryPlanIs(s, m, key.1, exitPrice, traceId);
      ClearingPartActs(s, m, plan, traceId);
      SaleActs(s, traceId, key, exitPrice);
      JoinedActs(s, ClearingActions(s, plan, key), SaleActions(s, traceId, key, exitPrice), plan, traceId, key);
    }
  }

  lemma PausingChangesNothing(t: AccountState, plan: MarketPlan)
    requires Sound(t)
    ensures
      var paused := PauseFor(t, plan);
      Sound(paused) && paused.openOrders == t.openOrders && paused.positions == t.positions
  {
    StepKeepsKeys(t, PauseMarket(PausedBy(plan)));
  }

  lemma AppliedKeepsIds(s: AccountState, t: AccountState, markets: seq<Market>, traceId: string, key: Key, plan: MarketPlan,
                        exchange: Exchange)
    requires ApartFrom(markets, traceId, key) && OwnId(s, ExitId(traceId, key), key)
    requires Sound(t) && IdsKept(s, t, markets, traceId) && AllActOn(s, plan.actions, traceId, key)
    ensures Sound(ApplyPlan(t, plan, exchange)) && IdsKept(s, ApplyPlan(t, plan, exchange), markets, traceId)
  {
    PausingChangesNothing(t, plan);
    SameOrdersKeepIds(s, t, PauseFor(t, plan), markets, traceId);
    ActionsKeepIds(s, PauseFor(t, plan), markets, traceId, key, plan.market.conditionId, plan.actions, exchange);
  }

  lemma AppliedSpares(s: AccountState, t: AccountState, markets: seq<Market>, traceId: string, k: nat, plan: MarketPlan,
                      exchange: Exchange, key: Key)
    requires SalesApart(markets, traceId) && SalesOwn(s, markets, traceId) && k < |markets|
    requires Sound(t) && IdsKept(s, t, markets, traceId) && AllActOn(s, plan.actions, traceId, ManagedKey(markets[k]))
    requires key != ManagedKey(markets[k])
    ensures SameToken(t, ApplyPlan(t, plan, exchange), key)
  {
    var paused := PauseFor(t, plan);
    PausingChangesNothing(t, plan);
    SameOrdersKeepIds(s, t, paused, markets, traceId);
    ActionsSpare(s, paused, markets, traceId, k, plan.market.conditionId, plan.actions, exchange, key);
    assert SameToken(t, paused, key);
  }

  /** Plans that each act on their own market's token. */
  predicate OwnPlans(s: AccountState, plans: seq<MarketPlan>, markets: seq<Market>, traceId: string) {
    |plans| == |markets| &&
    forall i :: 0 <= i < |markets| ==> AllActOn(s, plans[i].actions, traceId, ManagedKey(markets[i]))
  }

  /** The account after the first `n` plans of a pass. */
  function After(s: AccountState, plans: seq<MarketPlan>, exchange: Exchange, n: nat): AccountState
    requires n <= |plans|
  {
    ApplyPlans(s, plans[..n], exchange)
  }

  lemma AfterOneMore(s: AccountState, plans: seq<MarketPlan>, exchange: Exchange, n: nat)
    requires n < |plans|
    ensures After(s, plans, exchange, n + 1) == ApplyPlan(After(s, plans, exchange, n), plans[n], exchange)
  {
    assert plans[..n + 1][..n] == plans[..n];
  }

  lemma StartIsKept(s: AccountState, markets: seq<Market>, traceId: string)
    requires SalesOwn(s, markets, traceId)
    ensures IdsKept(s, s, markets, traceId)
  {}

  lemma OwnPlanKeepsIds(s: AccountState, t: AccountState, plans: seq<MarketPlan>, markets: seq<Market>, traceId: string,
                        exchange: Exchange, k: nat)
    requires SalesApart(markets, traceId) && SalesOwn(s, markets, traceId) && OwnPlans(s, plans, markets, traceId)
    requires k < |plans| && Sound(t) && IdsKept(s, t, markets, traceId)
    ensures Sound(ApplyPlan(t, plans[k], exchange)) && IdsKept(s, ApplyPlan(t, plans[k], exchange), markets, traceId)
  {
    var m := markets[k];
    OwnIsApart(markets, traceId, k);
    assert OwnId(s, SaleId(m, traceId), ManagedKey(m));
    AppliedKeepsIds(s, t, markets, traceId, ManagedKey(m), plans[k], exchange);
  }

  lemma {:induction false} PlansKeepIds(s: AccountState, t: AccountState, plans: seq<MarketPlan>, markets: seq<Market>,
                                        traceId: string, exchange: Exchange, n: nat)
    requires SalesApart(markets, traceId) && SalesOwn(s, markets, traceId) && Sound(t) && IdsKept(s, t, markets, traceId)
    requires OwnPlans(s, plans, markets, traceId) && n <= |plans|
    ensures Sound(After(t, plans, exchange, n)) && IdsKept(s, After(t, plans, exchange, n), markets, traceId)
  {
    if n == 0 {
      assert plans[..n] == [];
    } else {
      PlansKeepIds(s, t, plans, markets, traceId, exchange, n - 1);
      OwnPlanKeepsIds(s, After(t, plans, exchange, n - 1), plans, markets, traceId, exchange, n - 1);
      AfterOneMore(t, plans, exchange, n - 1);
    }
  }

  /** Between two points of a pass, the tokens of no plan in between stay as they are. */
  lemma {:induction false} PlansSpare(s: AccountState, t: AccountState, plans: seq<MarketPlan>, markets: seq<Market>,
                                      traceId: string, exchange: Exchange, lo: nat, hi: nat, key: Key)
    requires SalesApart(markets, traceId) && SalesOwn(s, markets, traceId) && Sound(t) && IdsKept(s, t, markets, traceId)
    requires OwnPlans(s, plans, markets, traceId)
    requires lo <= hi <= |plans| && forall i :: lo <= i < hi ==> ManagedKey(markets[i]) != key
    ensures SameToken(After(t, plans, exchange, lo), After(t, plans, exchange, hi), key)
  {
    if lo < hi {
      var before := After(t, plans, exchange, hi - 1);
      PlansSpare(s, t, plans, markets, traceId, exchange, lo, hi - 1, key);
      PlansKeepIds(s, t, plans, markets, traceId, exchange, hi - 1);
      AfterOneMore(t, plans, exchange, hi - 1);
      AppliedSpares(s, before, markets, traceId, hi - 1, plans[hi - 1], exchange, key);
    }
  }

  function PlansOf(s: AccountState, markets: seq<Market>, exitPrice: real, traceId: string): (plans: seq<MarketPlan>)
    ensures |plans| == |markets|
    ensures forall i :: 0 <= i < |markets| ==> plans[i] == PlanOf(s, markets[i], exitPrice, traceId)
  {
    PlansFor(markets, s.Published(), RecoveryHook(exitPrice), traceId)
  }

  lemma PlansAreOwn(s: AccountState, markets: seq<Market>, exitPrice: real, traceId: string)
    requires Sound(s) && AllRecoverable(markets)
    ensures OwnPlans(s, PlansOf(s, markets, exitPrice, traceId), markets, traceId)
  {
    var plans := PlansOf(s, markets, exitPrice, traceId);
    forall i | 0 <= i < |markets| ensures AllActOn(s, plans[i].actions, traceId, ManagedKey(markets[i])) {
      PlanActsOnOwn(s, markets[i], exitPrice, traceId);
    }
  }

  // -------------------------------------------------------------------------- a whole pass

  lemma SameTokenSameShare(s: AccountState, t: AccountState, id: string, key: Key)
    requires Sound(s) && Sound(t) && SameToken(s, t, key) && key.1 != ""
    ensures Share(t, id, key) == Share(s, id, key)
  {
    SameOrderStored(s, t, id, key);
    SameOrderStored(t, s, id, key);
  }

  lemma SameOrderStored(s: AccountState, t: AccountState, id: string, key: Key)
    requires Sound(s) && Sound(t) && SameToken(s, t, key) && key.1 != ""
    ensures Get(s.openOrders, id).Some? && Get(s.openOrders, id).value.Key() == key ==>
      Get(t.openOrders, id) == Get(s.openOrders, id)
  {
    if Get(s.openOrders, id).Some? && Get(s.openOrders, id).value.Key() == key {
      var o := Get(s.openOrders, id).value;
      StoredOrder(s, id);
      GetIsEntry(s.openOrders, id);
      OrdersOfEntries(s.openOrders, key);
      assert Stored(s.openOrders, o);
      OrdersAreStored(t, key);
      var i :| 0 <= i < |OrdersOf(t, key)| && OrdersOf(t, key)[i] == o;
    }
  }

  lemma SameTokenSettled(s: AccountState, t: AccountState, key: Key)
    requires SameToken(s, t, key)
    ensures Settled(t, key) <==> Settled(s, key)
    ensures AgreesAt(t, key) <==> AgreesAt(s, key)
  {
    SameTokenSameFigures(s, t, key);
    EntriesOf(s, key);
    EntriesOf(t, key);
  }

  lemma EntriesOf(s: AccountState, key: Key)
    ensures NoOpenEntries(s, key) <==> forall o :: o in OrdersOf(s, key) ==> !o.OpenBuy()
  {
    OrdersOfEntries(s.openOrders, key);
    if forall o :: o in OrdersOf(s, key) ==> !o.OpenBuy() {
      forall e | e in s.openOrders && (e.1.conditionId, e.1.tokenId) == key ensures !e.1.OpenBuy() {
        var j :| 0 <= j < |s.openOrders| && s.openOrders[j] == e;
        assert Stored(s.openOrders, e.1);
      }
    } else {
      var o :| o in OrdersOf(s, key) && o.OpenBuy();
      var j :| 0 <= j < |s.openOrders| && s.openOrders[j].1 == o;
      assert s.openOrders[j] in s.openOrders;
    }
  }

  lemma KeysApart(markets: seq<Market>, traceId: string, i: nat, j: nat)
    requires SalesApart(markets, traceId) && i < |markets| && j < |markets| && i != j
    ensures ManagedKey(markets[i]) != ManagedKey(markets[j])
  {
    assert SaleId(markets[i], traceId) != SaleId(markets[j], traceId);
  }

  /** For one market: the plans before its own leave its token alone, its own recovers it, the rest leave it so. */
  lemma PlansRecover(s: AccountState, plans: seq<MarketPlan>, markets: seq<Market>, traceId: string, exchange: Exchange,
                     k: nat, accepted: bool)
    requires Sound(s) && SalesApart(markets, traceId) && SalesOwn(s, markets, traceId) && OwnPlans(s, plans, markets, traceId)
    requires k < |markets| && ManagedKey(markets[k]).1 != ""
    requires Recovered(After(s, plans, exchange, k), After(s, plans, exchange, k + 1), traceId, ManagedKey(markets[k]), accepted)
    ensures Recovered(s, After(s, plans, exchange, |plans|), traceId, ManagedKey(markets[k]), accepted)
  {
    var key := ManagedKey(markets[k]);
    var before := After(s, plans, exchange, k);
    OwnTokenOnly(markets, traceId, k);
    StartIsKept(s, markets, traceId);
    PlansSpare(s, s, plans, markets, traceId, exchange, 0, k, key);
    PlansSpare(s, s, plans, markets, traceId, exchange, k + 1, |plans|, key);
    PlansKeepIds(s, s, plans, markets, traceId, exchange, k);
    SameTokenSameFigures(s, before, key);
    SameTokenSameShare(s, before, ExitId(traceId, key), key);
    SameTokenSettled(After(s, plans, exchange, k + 1), After(s, plans, exchange, |plans|), key);
  }

  lemma OwnTokenOnly(markets: seq<Market>, traceId: string, k: nat)
    requires SalesApart(markets, traceId) && k < |markets|
    ensures forall i :: 0 <= i < |markets| && i != k ==> ManagedKey(markets[i]) != ManagedKey(markets[k])
  {
    forall i | 0 <= i < |markets| && i != k ensures ManagedKey(markets[i]) != ManagedKey(markets[k]) {
      KeysApart(markets, traceId, i, k);
    }
  }

  /** The account when a pass has applied all its plans; marking it reconciled touches no order and no position. */
  function End(s: AccountState, markets: seq<Market>, exitPrice: real, traceId: string, exchange: Exchange): AccountState {
    After(s, PlansOf(s, markets, exitPrice, traceId), exchange, |markets|)
  }

  lemma PassIsEnd(s: AccountState, markets: seq<Market>, exitPrice: real, traceId: string, exchange: Exchange, at: int)
    ensures Pass(s, markets, RecoveryHook(exitPrice), traceId, exchange, at)
         == Step(End(s, markets, exitPrice, traceId, exchange), MarkReconciled(at))
  {
    var plans := PlansOf(s, markets, exitPrice, traceId);
    assert plans[..|markets|] == plans;
  }

  lemma MarkingKeeps(s: AccountState, at: int, key: Key)
    ensures SameToken(s, Step(s, MarkReconciled(at)), key)
    ensures Sound(s) ==> Sound(Step(s, MarkReconciled(at)))
  {}

  lemma PassRecovers(s: AccountState, markets: seq<Market>, exitPrice: real, traceId: string, exchange: Exchange, at: int,
                     k: nat)
    requires Sound(s) && AllRecoverable(markets) && SalesApart(markets, traceId) && SalesOwn(s, markets, traceId)
    requires k < |markets| && Managed(markets[k])
    ensures
      var t := Pass(s, markets, RecoveryHook(exitPrice), traceId, exchange, at);
      Sound(t) && Recovered(s, t, traceId, ManagedKey(markets[k]), Accepts(exchange, markets[k].conditionId))
  {
    var key, plans := ManagedKey(markets[k]), PlansOf(s, markets, exitPrice, traceId);
    var end := End(s, markets, exitPrice, traceId, exchange);
    PlansAreOwn(s, markets, exitPrice, traceId);
    OwnPlanRecovers(s, markets, exitPrice, traceId, exchange, k);
    PlansRecover(s, plans, markets, traceId, exchange, k, Accepts(exchange, markets[k].conditionId));
    StartIsKept(s, markets, traceId);
    PlansKeepIds(s, s, plans, markets, traceId, exchange, |markets|);
    PassIsEnd(s, markets, exitPrice, traceId, exchange, at);
    MarkingKeeps(end, at, key);
    SameTokenSettled(end, Step(end, MarkReconciled(at)), key);
  }

  lemma OwnPlanRecovers(s: AccountState, markets: seq<Market>, exitPrice: real, traceId: string, exchange: Exchange, k: nat)
    requires Sound(s) && AllRecoverable(markets) && SalesApart(markets, traceId) && SalesOwn(s, markets, traceId)
    requires k < |markets| && Managed(markets[k])
    ensures
      var plans := PlansOf(s, markets, exitPrice, traceId);
      Recovered(After(s, plans, exchange, k), After(s, plans, exchange, k + 1), traceId, ManagedKey(markets[k]),
                Accepts(exchange, markets[k].conditionId))
  {
    var plans := PlansOf(s, markets, exitPrice, traceId);
    PlansAreOwn(s, markets, exitPrice, traceId);
    StartIsKept(s, markets, traceId);
    PlansKeepIds(s, s, plans, markets, traceId, exchange, k);
    OwnTokenOnly(markets, traceId, k);
    PlansSpare(s, s, plans, markets, traceId, exchange, 0, k, ManagedKey(markets[k]));
    AfterOneMore(s, plans, exchange, k);
    PlanRecovers(s, After(s, plans, exchange, k), markets[k], ManagedKey(markets[k]).1, exitPrice, traceId, exchange);
  }

  /**
   * One accepted pass is a fixpoint: of every market the exchange accepts, the strategy run
   * again asks for nothing, no cancel and no sale, and exit orders cover the position,
   * exactly when nothing was short, or the id the market's sale is stored under, made of
   * the pass's trace, was selling nothing. What the exchange answers for other markets
   * makes no difference.
   */
  lemma PassIsFixpointExactlyWhen(s: AccountState, markets: seq<Market>, exitPrice: real, traceId: string,
                                  exchange: Exchange, at: int, k: nat)
    requires Sound(s) && AllRecoverable(markets) && SalesApart(markets, traceId) && SalesOwn(s, markets, traceId)
    requires k < |markets| && Managed(markets[k]) && Accepts(exchange, markets[k].conditionId)
    ensures
      var key := ManagedKey(markets[k]);
      var t := Pass(s, markets, RecoveryHook(exitPrice), traceId, exchange, at);
      && (Settled(t, key) <==> Shortage(s, key) <= 0.0 || Share(s, SaleId(markets[k], traceId), key) == 0.0)
      && (Recover(exitPrice, ContextFor(markets[k], t.Published())).actions == [] <==> Settled(t, key))
  {
    PassRecovers(s, markets, exitPrice, traceId, exchange, at, k);
    NothingToRecoverExactlyWhen(Pass(s, markets, RecoveryHook(exitPrice), traceId, exchange, at), markets[k],
                                ManagedKey(markets[k]).1, exitPrice);
  }

  // ------------------------------------------------------------ the figures, and a second pass

  predicate AllSettled(s: AccountState, markets: seq<Market>) {
    forall k :: 0 <= k < |markets| && Managed(markets[k]) ==> Settled(s, ManagedKey(markets[k]))
  }

  ghost predicate AcceptsAll(exchange: Exchange, markets: seq<Market>) {
    forall k :: 0 <= k < |markets| ==> Accepts(exchange, markets[k].conditionId)
  }

  /** No order is stored yet under an id of this pass's sales. */
  predicate SalesFresh(s: AccountState, markets: seq<Market>, traceId: string) {
    forall k :: 0 <= k < |markets| ==> Get(s.openOrders, SaleId(markets[k], traceId)).None?
  }

  /** A plan for which the strategy asks for nothing touches no order and no position. */
  lemma IdlePlanDoesNothing(s: AccountState, t: AccountState, m: Market, exitPrice: real, traceId: string, exchange: Exchange)
    requires Recover(exitPrice, ContextFor(m, s.Published())).actions == []
    ensures
      var u := ApplyPlan(t, PlanOf(s, m, exitPrice, traceId), exchange);
      u.openOrders == t.openOrders && u.positions == t.positions
  {
    var plan := PlanOf(s, m, exitPrice, traceId);
    PlanActionsAre(s, m, exitPrice, traceId);
    assert ActionsOf(traceId, m.conditionId, [], RecoveryIndex(s, m)) == [];
    Regroup(ResumePart(s, plan), [], [], PausePart(plan));
    ResumingPlanDoesNothing(t, plan, ResumePart(s, plan), exchange);
  }

  lemma ResumingPlanDoesNothing(t: AccountState, plan: MarketPlan, resume: seq<ReconcileAction>, exchange: Exchange)
    requires plan.actions == resume + PausePart(plan) && (resume == [] || resume == [ResumeTrading])
    ensures
      var u := ApplyPlan(t, plan, exchange);
      u.openOrders == t.openOrders && u.positions == t.positions
  {
    var paused := PauseFor(t, plan);
    assert paused.openOrders == t.openOrders && paused.positions == t.positions;
    PausePartDoesNothing(paused, plan, resume, exchange);
    if resume != [] {
      OneMoreAction(paused, plan.market.conditionId, [], ResumeTrading, exchange);
      assert [] + [ResumeTrading] == resume;
    }
  }

  predicate ManagesKey(markets: seq<Market>, key: Key) {
    exists k :: 0 <= k < |markets| && Managed(markets[k]) && ManagedKey(markets[k]) == key
  }

  lemma UnmanagedPlanSpares(s: AccountState, markets: seq<Market>, exitPrice: real, traceId: string, exchange: Exchange, k: nat,
                            key: Key)
    requires k < |markets| && !Managed(markets[k])
    ensures
      var plans := PlansOf(s, markets, exitPrice, traceId);
      SameToken(After(s, plans, exchange, k), After(s, plans, exchange, k + 1), key)
  {
    var plans := PlansOf(s, markets, exitPrice, traceId);
    AfterOneMore(s, plans, exchange, k);
    IdlePlanDoesNothing(s, After(s, plans, exchange, k), markets[k], exitPrice, traceId, exchange);
  }

  lemma PlansSpareAround(s: AccountState, plans: seq<MarketPlan>, markets: seq<Market>, traceId: string, exchange: Exchange, k: nat)
    requires SalesApart(markets, traceId) && SalesOwn(s, markets, traceId) && Sound(s)
    requires OwnPlans(s, plans, markets, traceId) && k < |markets|
    requires SameToken(After(s, plans, exchange, k), After(s, plans, exchange, k + 1), ManagedKey(markets[k]))
    ensures SameToken(s, After(s, plans, exchange, |plans|), ManagedKey(markets[k]))
  {
    var key := ManagedKey(markets[k]);
    OwnTokenOnly(markets, traceId, k);
    StartIsKept(s, markets, traceId);
    PlansSpare(s, s, plans, markets, traceId, exchange, 0, k, key);
    PlansSpare(s, s, plans, markets, traceId, exchange, k + 1, |plans|, key);
  }

  lemma EndSpares(s: AccountState, markets: seq<Market>, exitPrice: real, traceId: string, exchange: Exchange, key: Key)
    requires Sound(s) && AllRecoverable(markets) && SalesApart(markets, traceId) && SalesOwn(s, markets, traceId)
    requires !ManagesKey(markets, key)
    ensures SameToken(s, End(s, markets, exitPrice, traceId, exchange), key)
  {
    var plans := PlansOf(s, markets, exitPrice, traceId);
    PlansAreOwn(s, markets, exitPrice, traceId);
    if k: nat :| k < |markets| && ManagedKey(markets[k]) == key {
      UnmanagedPlanSpares(s, markets, exitPrice, traceId, exchange, k, key);
      PlansSpareAround(s, plans, markets, traceId, exchange, k);
    } else {
      StartIsKept(s, markets, traceId);
      PlansSpare(s, s, plans, markets, traceId, exchange, 0, |markets|, key);
    }
  }

  /** Tokens that no market of the pass manages stay as they are. */
  lemma PassSpares(s: AccountState, markets: seq<Market>, exitPrice: real, traceId: string, exchange: Exchange, at: int, key: Key)
    requires Sound(s) && AllRecoverable(markets) && SalesApart(markets, traceId) && SalesOwn(s, markets, traceId)
    requires !ManagesKey(markets, key)
    ensures SameToken(s, Pass(s, markets, RecoveryHook(exitPrice), traceId, exchange, at), key)
  {
    EndSpares(s, markets, exitPrice, traceId, exchange, key);
    PassIsEnd(s, markets, exitPrice, traceId, exchange, at);
    MarkingKeeps(End(s, markets, exitPrice, traceId, exchange), at, key);
  }

  lemma AgreesAfterPass(s: AccountState, markets: seq<Market>, exitPrice: real, traceId: string, exchange: Exchange, at: int,
                        key: Key)
    requires Sound(s) && AllRecoverable(markets) && SalesApart(markets, traceId) && SalesOwn(s, markets, traceId)
    requires AgreesAt(s, key)
    ensures
      var t := Pass(s, markets, RecoveryHook(exitPrice), traceId, exchange, at);
      && (!ManagesKey(markets, key) ==> AgreesAt(t, key))
      && (ManagesKey(markets, key) && AcceptsAll(exchange, markets) ==> (AgreesAt(t, key) <==> Settled(t, key)))
      && (ManagesKey(markets, key) && Share(s, ExitId(traceId, key), key) == 0.0 ==> AgreesAt(t, key))
  {
    if ManagesKey(markets, key) {
      var k: nat :| k < |markets| && Managed(markets[k]) && ManagedKey(markets[k]) == key;
      PassRecovers(s, markets, exitPrice, traceId, exchange, at, k);
    } else {
      PassSpares(s, markets, exitPrice, traceId, exchange, at, key);
      SameTokenSettled(s, Pass(s, markets, RecoveryHook(exitPrice), traceId, exchange, at), key);
    }
  }

  /**
   * From an account whose figures agree, an accepted pass leads to one whose figures agree
   * exactly when it settled every market it manages.
   */
  lemma PassKeepsAgreementExactlyWhen(s: AccountState, markets: seq<Market>, exitPrice: real, traceId: string,
                                      exchange: Exchange, at: int)
    requires Sound(s) && AllRecoverable(markets) && SalesApart(markets, traceId) && SalesOwn(s, markets, traceId)
    requires Agrees(s) && AcceptsAll(exchange, markets)
    ensures
      var t := Pass(s, markets, RecoveryHook(exitPrice), traceId, exchange, at);
      Agrees(t) <==> AllSettled(t, markets)
  {
    var t := Pass(s, markets, RecoveryHook(exitPrice), traceId, exchange, at);
    forall key: Key ensures OpenSell(t, key) == Cover(t, key) <==> !ManagesKey(markets, key) || Settled(t, key) {
      assert OpenSell(s, key) == Cover(s, key);
      AgreesAfterPass(s, markets, exitPrice, traceId, exchange, at, key);
    }
    forall k | 0 <= k < |markets| && Managed(markets[k]) ensures ManagesKey(markets, ManagedKey(markets[k])) {}
  }

  /** Under a fresh trace the figures agree after every pass, whatever the exchange answers. */
  lemma FreshPassKeepsAgreement(s: AccountState, markets: seq<Market>, exitPrice: real, traceId: string, exchange: Exchange,
                                at: int)
    requires Sound(s) && AllRecoverable(markets) && SalesApart(markets, traceId) && SalesFresh(s, markets, traceId)
    requires Agrees(s)
    ensures
      var t := Pass(s, markets, RecoveryHook(exitPrice), traceId, exchange, at);
      Sound(t) && Agrees(t)
  {
    var t := Pass(s, markets, RecoveryHook(exitPrice), traceId, exchange, at);
    PassKeepsSound(s, markets, exitPrice, traceId, exchange, at);
    forall key: Key ensures OpenSell(t, key) == Cover(t, key) {
      assert OpenSell(s, key) == Cover(s, key);
      AgreesAfterPass(s, markets, exitPrice, traceId, exchange, at, key);
    }
  }

  lemma PassKeepsSound(s: AccountState, markets: seq<Market>, exitPrice: real, traceId: string, exchange: Exchange, at: int)
    requires Sound(s) && AllRecoverable(markets) && SalesApart(markets, traceId) && SalesOwn(s, markets, traceId)
    ensures Sound(Pass(s, markets, RecoveryHook(exitPrice), traceId, exchange, at))
  {
    PlansAreOwn(s, markets, exitPrice, traceId);
    StartIsKept(s, markets, traceId);
    PlansKeepIds(s, s, PlansOf(s, markets, exitPrice, traceId), markets, traceId, exchange, |markets|);
    PassIsEnd(s, markets, exitPrice, traceId, exchange, at);
    MarkingKeeps(End(s, markets, exitPrice, traceId, exchange), at, ("", ""));
  }

  /** The strategy asks for nothing in any of the markets. */
  predicate NothingAsked(s: AccountState, markets: seq<Market>, exitPrice: real) {
    forall k :: 0 <= k < |markets| ==> Recover(exitPrice, ContextFor(markets[k], s.Published())).actions == []
  }

  lemma {:induction false} IdlePlansDoNothing(s: AccountState, markets: seq<Market>, exitPrice: real, traceId: string,
                                              exchange: Exchange, n: nat)
    requires n <= |markets| && NothingAsked(s, markets, exitPrice)
    ensures
      var t := After(s, PlansOf(s, markets, exitPrice, traceId), exchange, n);
      t.openOrders == s.openOrders && t.positions == s.positions
  {
    if n > 0 {
      var plans := PlansOf(s, markets, exitPrice, traceId);
      IdlePlansDoNothing(s, markets, exitPrice, traceId, exchange, n - 1);
      AfterOneMore(s, plans, exchange, n - 1);
      IdlePlanDoesNothing(s, After(s, plans, exchange, n - 1), markets[n - 1], exitPrice, traceId, exchange);
    }
  }

  lemma IdlePassDoesNothing(s: AccountState, markets: seq<Market>, exitPrice: real, traceId: string, exchange: Exchange, at: int)
    requires NothingAsked(s, markets, exitPrice)
    ensures
      var t := Pass(s, markets, RecoveryHook(exitPrice), traceId, exchange, at);
      t.openOrders == s.openOrders && t.positions == s.positions
  {
    IdlePlansDoNothing(s, markets, exitPrice, traceId, exchange, |markets|);
    PassIsEnd(s, markets, exitPrice, traceId, exchange, at);
  }

  lemma AllSettledAskNothing(s: AccountState, markets: seq<Market>, exitPrice: real)
    requires Sound(s) && AllRecoverable(markets) && AllSettled(s, markets)
    ensures NothingAsked(s, markets, exitPrice)
  {
    forall k | 0 <= k < |markets| ensures Recover(exitPrice, ContextFor(markets[k], s.Published())).actions == [] {
      SettledAsksNothing(s, markets[k], exitPrice);
    }
  }

  lemma SettledAsksNothing(s: AccountState, m: Market, exitPrice: real)
    requires Sound(s) && Recoverable(m) && (Managed(m) ==> Settled(s, ManagedKey(m)))
    ensures Recover(exitPrice, ContextFor(m, s.Published())).actions == []
  {
    if Managed(m) {
      NothingToRecoverExactlyWhen(s, m, ManagedKey(m).1, exitPrice);
    }
  }

  /** A pass over settled markets changes no order and no position, under any trace and whatever the exchange would answer. */
  lemma SettledPassChangesNothing(s: AccountState, markets: seq<Market>, exitPrice: real, traceId: string, exchange: Exchange,
                                  at: int)
    requires Sound(s) && AllRecoverable(markets) && AllSettled(s, markets)
    ensures
      var t := Pass(s, markets, RecoveryHook(exitPrice), traceId, exchange, at);
      t.openOrders == s.openOrders && t.positions == s.positions
  {
    AllSettledAskNothing(s, markets, exitPrice);
    IdlePassDoesNothing(s, markets, exitPrice, traceId, exchange, at);
  }

  /** After an accepted pass under a fresh trace every market is settled, and the next pass changes no order and no position. */
  lemma SecondPassChangesNothing(s: AccountState, markets: seq<Market>, exitPrice: real, traceId: string, exchange: Exchange,
                                 at: int, nextTrace: string, nextExchange: Exchange, nextAt: int)
    requires Sound(s) && AllRecoverable(markets) && SalesApart(markets, traceId) && SalesFresh(s, markets, traceId)
    requires AcceptsAll(exchange, markets)
    ensures
      var hook := RecoveryHook(exitPrice);
      var t := Pass(s, markets, hook, traceId, exchange, at);
      var u := Pass(t, markets, hook, nextTrace, nextExchange, nextAt);
      && AllSettled(t, markets) && u.openOrders == t.openOrders && u.positions == t.positions
  {
    var t := Pass(s, markets, RecoveryHook(exitPrice), traceId, exchange, at);
    PassKeepsSound(s, markets, exitPrice, traceId, exchange, at);
    forall k | 0 <= k < |markets| && Managed(markets[k]) ensures Settled(t, ManagedKey(markets[k])) {
      PassIsFixpointExactlyWhen(s, markets, exitPrice, traceId, exchange, at, k);
    }
    SettledPassChangesNothing(t, markets, exitPrice, nextTrace, nextExchange, nextAt);
  }

  // ------------------------------------------------------- two sales under one id

  /** An accepted plan for a token that is short, made from `s` and carried out on `t`: its entries go, then its sale is stored. */
  lemma ShortPlanSells(s: AccountState, t: AccountState, m: Market, exitPrice: real, traceId: string, exchange: Exchange)
    requires Sound(s) && Sound(t) && Recoverable(m) && Managed(m) && SameToken(s, t, ManagedKey(m))
    requires Accepts(exchange, m.conditionId) && Shortage(s, ManagedKey(m)) > 0.0
    ensures
      var key := ManagedKey(m);
      var plan := PlanOf(s, m, exitPrice, traceId);
      var u := Cleared(s, t, plan, key, exchange);
      && WithoutEntries(t, u, key) && Sound(u) && Shortage(u, key) == Shortage(s, key)
      && ApplyPlan(t, plan, exchange)
         == SubmittedIntent(u, ExitIntent(traceId, key, exitPrice, Shortage(s, key)), u.Published())
  {
    var key := ManagedKey(m);
    var plan := PlanOf(s, m, exitPrice, traceId);
    RecoveryPlanIs(s, m, key.1, exitPrice, traceId);
    SameTokenSameFigures(s, t, key);
    RecoveryIndexes(s, m, key.1);
    PlanClears(s, t, plan, key, exchange);
    PlanEnds(s, t, plan, key, exitPrice, traceId, exchange);
  }

  /** A sale stored under an id that another token's sale is stored under takes that one's place. */
  lemma SaleOverwrites(u: AccountState, traceId: string, own: Key, lost: Key, exitPrice: real, size: real)
    requires Sound(u) && own != lost && size > 0.0
    ensures
      var t := SubmittedIntent(u, ExitIntent(traceId, own, exitPrice, size), u.Published());
      && Cover(t, lost) == Cover(u, lost) - Share(u, ExitId(traceId, own), lost)
      && Get(t.positions, lost) == Get(u.positions, lost)
  {
    var intent := ExitIntent(traceId, own, exitPrice, size);
    ExitIdIs(traceId, own, exitPrice, size);
    SubmissionActs(u, intent);
    TotalPut(u.openOrders, ExitId(traceId, own), SubmittedOrder(intent), SellWeightOf(lost));
  }

  /** Nothing of the token is short, and part of what covers it is stored under `id`. */
  predicate CoveredUnder(s: AccountState, id: string, key: Key) {
    Sound(s) && Shortage(s, key) == 0.0 && Share(s, id, key) > 0.0 && Get(s.positions, key).Some?
  }

  /** A token that was short, once its sale is stored under an id that was free: the sale covers what was short. */
  lemma FirstSale(u: AccountState, traceId: string, key: Key, exitPrice: real)
    requires Sound(u) && Shortage(u, key) > 0.0 && Get(u.openOrders, ExitId(traceId, key)).None?
    ensures CoveredUnder(SubmittedIntent(u, ExitIntent(traceId, key, exitPrice, Shortage(u, key)), u.Published()),
                         ExitId(traceId, key), key)
  {
    var intent := ExitIntent(traceId, key, exitPrice, Shortage(u, key));
    var o := SubmittedOrder(intent);
    ExitIdIs(traceId, key, exitPrice, Shortage(u, key));
    SaleLeaves(u, traceId, key, exitPrice);
    SaleOnOrders(u, traceId, key, exitPrice, Shortage(u, key));
    SaleOnPosition(u, Step(u, UpsertOrder(o)), intent);
    GetPut(u.openOrders, ExitId(traceId, key), o, ExitId(traceId, key));
  }

  lemma FirstIsSold(s: AccountState, t: AccountState, a: Market, exitPrice: real, traceId: string, exchange: Exchange)
    requires Sound(s) && Sound(t) && Recoverable(a) && Managed(a) && SameToken(s, t, ManagedKey(a))
    requires Get(t.openOrders, SaleId(a, traceId)).None?
    requires Shortage(s, ManagedKey(a)) > 0.0 && Accepts(exchange, a.conditionId)
    ensures CoveredUnder(ApplyPlan(t, PlanOf(s, a, exitPrice, traceId), exchange), SaleId(a, traceId), ManagedKey(a))
  {
    var key, id := ManagedKey(a), SaleId(a, traceId);
    var u := Cleared(s, t, PlanOf(s, a, exitPrice, traceId), key, exchange);
    ShortPlanSells(s, t, a, exitPrice, traceId, exchange);
    assert Get(u.openOrders, id) == Get(t.openOrders, id) || Dropped(t, u, key, id);
    FirstSale(u, traceId, key, exitPrice);
  }

  lemma CoverStays(t: AccountState, u: AccountState, id: string, key: Key)
    requires CoveredUnder(t, id, key) && Sound(u) && SameToken(t, u, key) && key.1 != ""
    ensures CoveredUnder(u, id, key)
  {
    SameTokenSameFigures(t, u, key);
    SameTokenSameShare(t, u, id, key);
  }

  lemma SecondIsSold(s: AccountState, t: AccountState, b: Market, exitPrice: real, traceId: string, exchange: Exchange, lost: Key)
    requires Sound(s) && Recoverable(b) && Managed(b) && SameToken(s, t, ManagedKey(b))
    requires Shortage(s, ManagedKey(b)) > 0.0 && Accepts(exchange, b.conditionId) && lost != ManagedKey(b)
    requires CoveredUnder(t, SaleId(b, traceId), lost)
    ensures Shortage(ApplyPlan(t, PlanOf(s, b, exitPrice, traceId), exchange), lost) > 0.0
  {
    var key, id := ManagedKey(b), SaleId(b, traceId);
    var u := Cleared(s, t, PlanOf(s, b, exitPrice, traceId), key, exchange);
    ShortPlanSells(s, t, b, exitPrice, traceId, exchange);
    assert Get(u.openOrders, id) == Get(t.openOrders, id) || Dropped(t, u, key, id);
    assert Share(u, id, lost) == Share(t, id, lost);
    SaleOverwrites(u, traceId, key, lost, exitPrice, Shortage(s, key));
  }

  function Without<T>(items: seq<T>, j: nat): seq<T>
    requires j < |items|
  {
    items[..j] + items[j + 1..]
  }

  /** Up to the plan of market `j`, a pass is the pass over the other markets. */
  lemma OthersFirst(s: AccountState, markets: seq<Market>, exitPrice: real, traceId: string, exchange: Exchange, j: nat, n: nat)
    requires n <= j < |markets|
    ensures After(s, PlansOf(s, markets, exitPrice, traceId), exchange, n)
         == After(s, PlansOf(s, Without(markets, j), exitPrice, traceId), exchange, n)
  {
    var plans, others := PlansOf(s, markets, exitPrice, traceId), PlansOf(s, Without(markets, j), exitPrice, traceId);
    forall x | 0 <= x < n ensures plans[x] == others[x] {
      assert Without(markets, j)[x] == markets[x];
    }
    assert plans[..n] == others[..n];
  }

  lemma FirstGoesThrough(s: AccountState, others: seq<Market>, exitPrice: real, traceId: string, exchange: Exchange, i: nat)
    requires Sound(s) && AllRecoverable(others) && SalesApart(others, traceId) && SalesOwn(s, others, traceId)
    requires i < |others| && Managed(others[i]) && Shortage(s, ManagedKey(others[i])) > 0.0
    requires Accepts(exchange, others[i].conditionId) && Get(s.openOrders, SaleId(others[i], traceId)).None?
    ensures CoveredUnder(After(s, PlansOf(s, others, exitPrice, traceId), exchange, i + 1), SaleId(others[i], traceId),
                         ManagedKey(others[i]))
  {
    var plans, key, id := PlansOf(s, others, exitPrice, traceId), ManagedKey(others[i]), SaleId(others[i], traceId);
    var before := After(s, plans, exchange, i);
    StartIsKept(s, others, traceId);
    PlansAreOwn(s, others, exitPrice, traceId);
    OwnTokenOnly(others, traceId, i);
    PlansKeepIds(s, s, plans, others, traceId, exchange, i);
    PlansSpare(s, s, plans, others, traceId, exchange, 0, i, key);
    SameOrderStored(before, s, id, key);
    AfterOneMore(s, plans, exchange, i);
    FirstIsSold(s, before, others[i], exitPrice, traceId, exchange);
  }

  /** Market `i` was sold under a free id; the plans after it, up to market `j`, leave its token and that of `j` alone. */
  lemma FirstStaysSold(s: AccountState, others: seq<Market>, exitPrice: real, traceId: string, exchange: Exchange, i: nat, j: nat)
    requires Sound(s) && AllRecoverable(others) && SalesApart(others, traceId) && SalesOwn(s, others, traceId)
    requires i < j <= |others| && Managed(others[i]) && Shortage(s, ManagedKey(others[i])) > 0.0
    requires Accepts(exchange, others[i].conditionId) && Get(s.openOrders, SaleId(others[i], traceId)).None?
    ensures CoveredUnder(After(s, PlansOf(s, others, exitPrice, traceId), exchange, j), SaleId(others[i], traceId),
                         ManagedKey(others[i]))
  {
    var plans := PlansOf(s, others, exitPrice, traceId);
    FirstGoesThrough(s, others, exitPrice, traceId, exchange, i);
    PlansAreOwn(s, others, exitPrice, traceId);
    LaterSpare(s, plans, others, traceId, exchange, i, j);
    CoverStays(After(s, plans, exchange, i + 1), After(s, plans, exchange, j), SaleId(others[i], traceId), ManagedKey(others[i]));
  }

  lemma LaterSpare(s: AccountState, plans: seq<MarketPlan>, others: seq<Market>, traceId: string, exchange: Exchange,
                   i: nat, j: nat)
    requires SalesApart(others, traceId) && SalesOwn(s, others, traceId) && Sound(s) && OwnPlans(s, plans, others, traceId)
    requires i < j <= |plans|
    ensures Sound(After(s, plans, exchange, j))
    ensures SameToken(After(s, plans, exchange, i + 1), After(s, plans, exchange, j), ManagedKey(others[i]))
  {
    var key := ManagedKey(others[i]);
    StartIsKept(s, others, traceId);
    OwnTokenOnly(others, traceId, i);
    assert forall x :: i + 1 <= x < j ==> ManagedKey(others[x]) != key;
    PlansSpare(s, s, plans, others, traceId, exchange, i + 1, j, key);
    PlansKeepIds(s, s, plans, others, traceId, exchange, j);
  }

  lemma {:induction false} AfterSplits(s: AccountState, plans: seq<MarketPlan>, exchange: Exchange, m: nat, n: nat)
    requires m + n <= |plans|
    ensures After(s, plans, exchange, m + n) == After(After(s, plans, exchange, m), plans[m..], exchange, n)
  {
    if n == 0 {
      assert plans[m..][..0] == [];
    } else {
      AfterSplits(s, plans, exchange, m, n - 1);
      AfterOneMore(s, plans, exchange, m + n - 1);
      AfterOneMore(After(s, plans, exchange, m), plans[m..], exchange, n - 1);
      assert plans[m..][n - 1] == plans[m + n - 1];
    }
  }

  lemma SuffixIsKept(s: AccountState, t: AccountState, markets: seq<Market>, rest: seq<Market>, traceId: string)
    requires IdsKept(s, t, markets, traceId) && AllAmong(rest, markets)
    ensures IdsKept(s, t, rest, traceId)
  {
    forall x | 0 <= x < |rest| ensures OwnId(t, SaleId(rest[x], traceId), ManagedKey(rest[x])) {
      var y :| 0 <= y < |markets| && markets[y] == rest[x];
      assert OwnId(t, SaleId(markets[y], traceId), ManagedKey(markets[y]));
    }
  }

  /** Two markets of a list whose sales share an id, while the sales of the list without the second are apart. */
  predicate ShareSale(markets: seq<Market>, traceId: string, i: nat, j: nat) {
    && i < j < |markets| && SalesApart(Without(markets, j), traceId)
    && ManagedKey(markets[i]) != ManagedKey(markets[j]) && SaleId(markets[i], traceId) == SaleId(markets[j], traceId)
  }

  /** None of the markets manages this token. */
  predicate ManageElsewhere(markets: seq<Market>, key: Key) {
    forall x :: 0 <= x < |markets| ==> ManagedKey(markets[x]) != key
  }

  predicate AllAmong(some: seq<Market>, markets: seq<Market>) {
    forall x :: 0 <= x < |some| ==> some[x] in markets
  }

  /** Every other market's sale is apart from the one both share, and its token from both tokens. */
  lemma OthersApart(markets: seq<Market>, traceId: string, i: nat, j: nat)
    requires ShareSale(markets, traceId, i, j)
    ensures Without(markets, j)[i] == markets[i] && ManageElsewhere(Without(markets, j), ManagedKey(markets[j]))
  {
    var others := Without(markets, j);
    assert others[i] == markets[i];
    forall x | 0 <= x < |others| ensures ManagedKey(others[x]) != ManagedKey(markets[j]) {
      if x != i {
        assert SaleId(others[x], traceId) != SaleId(others[i], traceId);
      }
    }
  }

  lemma RestAmong(markets: seq<Market>, j: nat)
    requires j < |markets|
    ensures AllAmong(markets[j + 1..], Without(markets, j))
  {
    var others, rest := Without(markets, j), markets[j + 1..];
    forall x | 0 <= x < |rest| ensures rest[x] in others {
      assert others[j + x] == rest[x];
    }
  }

  lemma RestApart(markets: seq<Market>, traceId: string, i: nat, j: nat)
    requires ShareSale(markets, traceId, i, j)
    ensures SalesApart(markets[j + 1..], traceId) && ApartFrom(markets[j + 1..], traceId, ManagedKey(markets[j]))
    ensures ManageElsewhere(markets[j + 1..], ManagedKey(markets[i]))
  {
    var others, rest := Without(markets, j), markets[j + 1..];
    assert others[i] == markets[i];
    forall x | 0 <= x < |rest|
      ensures SaleId(rest[x], traceId) != SaleId(markets[i], traceId) && ManagedKey(rest[x]) != ManagedKey(markets[i])
    {
      assert others[j + x] == rest[x] && SaleId(others[i], traceId) != SaleId(others[j + x], traceId);
    }
    forall x, y | 0 <= x < y < |rest| ensures SaleId(rest[x], traceId) != SaleId(rest[y], traceId) {
      assert others[j + x] == rest[x] && others[j + y] == rest[y];
    }
  }

  lemma OwnIsWithout(s: AccountState, markets: seq<Market>, traceId: string, j: nat)
    requires j < |markets| && SalesOwn(s, markets, traceId) && AllRecoverable(markets)
    ensures SalesOwn(s, Without(markets, j), traceId) && AllRecoverable(Without(markets, j))
  {
    var others := Without(markets, j);
    forall x | 0 <= x < |others| ensures OwnId(s, SaleId(others[x], traceId), ManagedKey(others[x])) && Recoverable(others[x]) {
      assert others[x] == markets[if x < j then x else x + 1];
    }
  }

  /** Before market `j` is recovered, market `i` is covered by the sale under the shared id. */
  lemma BeforeSecond(s: AccountState, markets: seq<Market>, exitPrice: real, traceId: string, exchange: Exchange, i: nat, j: nat)
    requires Sound(s) && AllRecoverable(markets) && SalesOwn(s, markets, traceId) && ShareSale(markets, traceId, i, j)
    requires Managed(markets[i]) && Shortage(s, ManagedKey(markets[i])) > 0.0
    requires Accepts(exchange, markets[i].conditionId) && Get(s.openOrders, SaleId(markets[i], traceId)).None?
    ensures
      var before := After(s, PlansOf(s, markets, exitPrice, traceId), exchange, j);
      && CoveredUnder(before, SaleId(markets[i], traceId), ManagedKey(markets[i]))
      && SameToken(s, before, ManagedKey(markets[j])) && IdsKept(s, before, markets[j + 1..], traceId)
  {
    var others, key := Without(markets, j), ManagedKey(markets[j]);
    OthersApart(markets, traceId, i, j);
    OwnIsWithout(s, markets, traceId, j);
    OthersFirst(s, markets, exitPrice, traceId, exchange, j, j);
    FirstStaysSold(s, others, exitPrice, traceId, exchange, i, j);
    OthersSpare(s, others, exitPrice, traceId, exchange, j, key);
    RestAmong(markets, j);
    SuffixIsKept(s, After(s, PlansOf(s, others, exitPrice, traceId), exchange, j), others, markets[j + 1..], traceId);
  }

  lemma OthersSpare(s: AccountState, others: seq<Market>, exitPrice: real, traceId: string, exchange: Exchange, n: nat, key: Key)
    requires Sound(s) && AllRecoverable(others) && SalesApart(others, traceId) && SalesOwn(s, others, traceId)
    requires n <= |others| && ManageElsewhere(others, key)
    ensures
      var t := After(s, PlansOf(s, others, exitPrice, traceId), exchange, n);
      SameToken(s, t, key) && IdsKept(s, t, others, traceId)
  {
    var plans := PlansOf(s, others, exitPrice, traceId);
    StartIsKept(s, others, traceId);
    PlansAreOwn(s, others, exitPrice, traceId);
    PlansSpare(s, s, plans, others, traceId, exchange, 0, n, key);
    PlansKeepIds(s, s, plans, others, traceId, exchange, n);
    assert plans[..0] == [];
  }

  /** The plans after market `j` leave the token of market `i` alone. */
  lemma RestIsOwn(s: AccountState, plans: seq<MarketPlan>, markets: seq<Market>, traceId: string, n: nat)
    requires n <= |markets| && SalesOwn(s, markets, traceId) && OwnPlans(s, plans, markets, traceId)
    ensures SalesOwn(s, markets[n..], traceId) && OwnPlans(s, plans[n..], markets[n..], traceId)
  {
    var rest, later := markets[n..], plans[n..];
    forall x | 0 <= x < |rest|
      ensures OwnId(s, SaleId(rest[x], traceId), ManagedKey(rest[x]))
      ensures AllActOn(s, later[x].actions, traceId, ManagedKey(rest[x]))
    {
      assert rest[x] == markets[n + x] && later[x] == plans[n + x];
    }
  }

  /** A pass, from the plan of market `j` on. */
  lemma EndsWithRest(s: AccountState, plans: seq<MarketPlan>, exchange: Exchange, j: nat)
    requires j < |plans|
    ensures After(s, plans, exchange, |plans|)
         == After(ApplyPlan(After(s, plans, exchange, j), plans[j], exchange), plans[j + 1..], exchange, |plans| - j - 1)
  {
    AfterOneMore(s, plans, exchange, j);
    AfterSplits(s, plans, exchange, j + 1, |plans| - j - 1);
  }

  /** From any account that keeps their ids, the plans of these markets leave a token alone that none of them manages. */
  lemma RestSpares(s: AccountState, t: AccountState, plans: seq<MarketPlan>, rest: seq<Market>, traceId: string,
                   exchange: Exchange, key: Key)
    requires SalesApart(rest, traceId) && SalesOwn(s, rest, traceId) && OwnPlans(s, plans, rest, traceId)
    requires Sound(t) && IdsKept(s, t, rest, traceId) && ManageElsewhere(rest, key)
    ensures SameToken(t, After(t, plans, exchange, |plans|), key)
  {
    PlansSpare(s, t, plans, rest, traceId, exchange, 0, |plans|, key);
    assert plans[..0] == [];
  }

  /** The plan of market `j` keeps the ids of the markets after it, and their plans leave the token of market `i` alone. */
  lemma AfterSecond(s: AccountState, before: AccountState, plan: MarketPlan, restPlans: seq<MarketPlan>,
                    markets: seq<Market>, traceId: string, exchange: Exchange, i: nat, j: nat)
    requires SalesOwn(s, markets, traceId) && ShareSale(markets, traceId, i, j)
    requires AllActOn(s, plan.actions, traceId, ManagedKey(markets[j]))
    requires SalesOwn(s, markets[j + 1..], traceId) && OwnPlans(s, restPlans, markets[j + 1..], traceId)
    requires Sound(before) && IdsKept(s, before, markets[j + 1..], traceId)
    ensures
      var second := ApplyPlan(before, plan, exchange);
      SameToken(second, After(second, restPlans, exchange, |restPlans|), ManagedKey(markets[i]))
  {
    var rest := markets[j + 1..];
    RestApart(markets, traceId, i, j);
    AppliedKeepsIds(s, before, rest, traceId, ManagedKey(markets[j]), plan, exchange);
    RestSpares(s, ApplyPlan(before, plan, exchange), restPlans, rest, traceId, exchange, ManagedKey(markets[i]));
  }

  /** What the pass makes of the token of market `i` is what the plan of market `j` makes of it. */
  lemma EndsAsSecond(s: AccountState, plans: seq<MarketPlan>, markets: seq<Market>, traceId: string, exchange: Exchange,
                     i: nat, j: nat)
    requires SalesOwn(s, markets, traceId) && ShareSale(markets, traceId, i, j) && OwnPlans(s, plans, markets, traceId)
    requires Sound(After(s, plans, exchange, j)) && IdsKept(s, After(s, plans, exchange, j), markets[j + 1..], traceId)
    ensures SameToken(ApplyPlan(After(s, plans, exchange, j), plans[j], exchange), After(s, plans, exchange, |plans|),
                      ManagedKey(markets[i]))
  {
    RestIsOwn(s, plans, markets, traceId, j + 1);
    AfterSecond(s, After(s, plans, exchange, j), plans[j], plans[j + 1..], markets, traceId, exchange, i, j);
    EndsWithRest(s, plans, exchange, j);
  }

  /**
   * That sales have ids of their own is needed: of two short markets of a list whose sales
   * would be stored under one id, a pass the exchange accepts leaves the first unsettled.
   */
  lemma SharedSaleIdLosesSale(s: AccountState, markets: seq<Market>, exitPrice: real, traceId: string, exchange: Exchange,
                              at: int, i: nat, j: nat)
    requires Sound(s) && AllRecoverable(markets) && SalesOwn(s, markets, traceId) && ShareSale(markets, traceId, i, j)
    requires Managed(markets[i]) && Managed(markets[j]) && Get(s.openOrders, SaleId(markets[i], traceId)).None?
    requires Shortage(s, ManagedKey(markets[i])) > 0.0 && Shortage(s, ManagedKey(markets[j])) > 0.0
    requires Accepts(exchange, markets[i].conditionId) && Accepts(exchange, markets[j].conditionId)
    ensures !Settled(Pass(s, markets, RecoveryHook(exitPrice), traceId, exchange, at), ManagedKey(markets[i]))
  {
    var plans, key := PlansOf(s, markets, exitPrice, traceId), ManagedKey(markets[i]);
    var before := After(s, plans, exchange, j);
    var second := ApplyPlan(before, plans[j], exchange);
    var end := End(s, markets, exitPrice, traceId, exchange);
    BeforeSecond(s, markets, exitPrice, traceId, exchange, i, j);
    SecondIsSold(s, before, markets[j], exitPrice, traceId, exchange, key);
    PlansAreOwn(s, markets, exitPrice, traceId);
    EndsAsSecond(s, plans, markets, traceId, exchange, i, j);
    SameTokenSettled(second, end, key);
    PassIsEnd(s, markets, exitPrice, traceId, exchange, at);
    MarkingKeeps(end, at, key);
    SameTokenSettled(end, Step(end, MarkReconciled(at)), key);
  }
}
