/**
 * A reconcile pass: for every market the extension decides how to recover, the service
 * turns the answer into a plan, and the worker pauses, applies the plan's actions and
 * marks the account reconciled. Extension hooks and exchange answers are parameters.
 */
module Reconcile {
  import opened Wrappers
  import opened Dict
  import opened Domain
  import opened AccountStore
  import opened Projection
  import opened ReconcileActions

  // ------------------------------------------------------------------ extension decisions

  datatype DecisionKind = Skip | DoBuy | DoSell | DoCancel | DoReplace

  datatype Decision = Decision(
    kind: DecisionKind,
    tokenId: Option<string>,
    price: Option<real>,
    amountUsdc: Option<real>,
    sizeShares: Option<real>,
    orderId: Option<string>,
    orderType: Option<OrderType>)

  datatype RecoveryDecision = RecoveryDecision(actions: seq<Decision>, pauseTrading: bool, pauseReason: string)

  datatype RecoveryContext = RecoveryContext(
    market: Option<Market>,
    position: Option<Position>,
    openOrders: seq<Order>,
    snapshot: Option<AccountSnapshot>)

  type Hook = RecoveryContext -> RecoveryDecision

  datatype ManagedIntent =
    | Trade(intent: TradeIntent)
    | CancelOf(tokenId: string, orderId: string)
    | ReplaceOf(tokenId: string, orderId: string, newPrice: real, sizeShares: real)

  function IntentOf(traceId: string, conditionId: string, d: Decision): Option<ManagedIntent> {
    if d.tokenId.None? || d.tokenId.value == "" then None
    else
      var token := d.tokenId.value;
      match d.kind
      case Skip => None
      case DoBuy =>
        if d.price.None? || d.amountUsdc.None? || d.amountUsdc.value <= 0.0 then None
        else Some(Trade(BuyTrade(traceId, conditionId, token, d.price.value, d.amountUsdc.value, d.orderType.GetOr(Fak), None)))
      case DoSell =>
        if d.price.None? || d.sizeShares.None? || d.sizeShares.value <= 0.0 then None
        else Some(Trade(SellTrade(traceId, conditionId, token, d.price.value, d.sizeShares.value, d.orderType.GetOr(Gtc), None)))
      case DoCancel =>
        if d.orderId.None? || d.orderId.value == "" then None else Some(CancelOf(token, d.orderId.value))
      case DoReplace =>
        if d.orderId.None? || d.orderId.value == "" || d.price.None? || d.sizeShares.None? || d.sizeShares.value <= 0.0
        then None
        else Some(ReplaceOf(token, d.orderId.value, d.price.value, d.sizeShares.value))
  }

  // ------------------------------------------------------------------------------- plans

  datatype ReconcileAction =
    | ResumeTrading
    | PauseTrading
    | CancelOrder(cancel: CancelAction)
    | ReplaceOrder(replace: ReplaceAction)
    | SubmitOrder(intent: TradeIntent)

  datatype MarketPlan = MarketPlan(market: Market, actions: seq<ReconcileAction>, pauseTrading: bool, pauseReason: string)

  function ActionOf(conditionId: string, intent: ManagedIntent, index: Dict<string, Order>): ReconcileAction {
    match intent
    case Trade(t) => SubmitOrder(t)
    case CancelOf(token, orderId) =>
      var source := Get(index, orderId);
      CancelOrder(CancelAction(conditionId, token, orderId,
                               if source.None? then None else Some(source.value.side),
                               if source.None? then None else Some(OpenSizeOf(source.value))))
    case ReplaceOf(token, orderId, price, size) =>
      ReplaceOrder(ReplaceAction(conditionId, token, orderId, price, size, None))
  }

  function ActionsOf(traceId: string, conditionId: string, decisions: seq<Decision>, index: Dict<string, Order>)
    : seq<ReconcileAction>
  {
    if decisions == [] then []
    else
      var n := |decisions| - 1;
      var intent := IntentOf(traceId, conditionId, decisions[n]);
      ActionsOf(traceId, conditionId, decisions[..n], index)
      + (if intent.None? then [] else [ActionOf(conditionId, intent.value, index)])
  }

  /** Orders of a market, token by token. */
  function MarketOrders(market: Market, snapshot: AccountSnapshot, n: nat): seq<Order>
    requires n <= |market.outcomes|
  {
    if n == 0 then []
    else
      MarketOrders(market, snapshot, n - 1)
      + snapshot.OpenOrdersForMarket((market.conditionId, market.outcomes[n - 1].tokenId))
  }

  predicate Untradable(market: Market) { market.tradingStatus in {Paused, Closed, Resolved} }

  predicate Sticky(pause: Option<MarketPause>) { pause.Some? && !pause.value.recoverable }

  /** A recoverable pause is hidden from the extension, so that it alone does not renew itself. */
  function SnapshotForRecovery(snapshot: AccountSnapshot, conditionId: string, pause: Option<MarketPause>): AccountSnapshot {
    if pause.None? || !pause.value.recoverable then snapshot else snapshot.WithoutMarketPause(conditionId)
  }

  function OwnPauseReason(market: Market, pause: Option<MarketPause>): string {
    match market.tradingStatus
    case Paused => FirstText(market.rejectReason, "market_paused")
    case Closed => FirstText(market.rejectReason, "market_closed")
    case Resolved => FirstText(market.rejectReason, "market_resolved")
    case _ => if pause.Some? then pause.value.reason else ""
  }

  function ResolvedPauseReason(market: Market, pause: Option<MarketPause>, recoveryReason: string, pauseTrading: bool): string {
    if Sticky(pause) then pause.value.reason
    else if recoveryReason != "" then recoveryReason
    else if pauseTrading then OwnPauseReason(market, pause)
    else ""
  }

  function ContextFor(market: Market, snapshot: AccountSnapshot): RecoveryContext {
    var pause := snapshot.PauseForMarket(market.conditionId);
    RecoveryContext(Some(market), None, MarketOrders(market, snapshot, |market.outcomes|),
                    Some(SnapshotForRecovery(snapshot, market.conditionId, pause)))
  }

  function OrderIndex(orders: seq<Order>): Dict<string, Order> { FromPairs(KeyedOrders(orders)) }

  function PlanFor(market: Market, snapshot: AccountSnapshot, hook: Hook, traceId: string): MarketPlan {
    var pause := snapshot.PauseForMarket(market.conditionId);
    var context := ContextFor(market, snapshot);
    var recovery := hook(context);
    var pauseTrading := Untradable(market) || Sticky(pause) || recovery.pauseTrading;
    MarketPlan(market,
               (if pause.Some? && !pauseTrading then [ResumeTrading] else [])
               + ActionsOf(traceId, market.conditionId, recovery.actions, OrderIndex(context.openOrders))
               + (if pauseTrading then [PauseTrading] else []),
               pauseTrading, ResolvedPauseReason(market, pause, recovery.pauseReason, pauseTrading))
  }

  // -------------------------------------------------------------------------- a whole pass

  /** What came of applying an action: an error, or the exchange's answer. */
  datatype Answer = Raised | Answer(cancelled: bool, submitted: bool, replace: ReplaceAnswer)

  type Exchange = (string, nat) -> Answer

  function ApplyAction(s: AccountState, conditionId: string, action: ReconcileAction, answer: Answer): AccountState {
    match action
    case PauseTrading => s
    case ResumeTrading => Step(s, ResumeMarket(conditionId))
    case CancelOrder(cancel) =>
      if answer.Answer? && answer.cancelled then CancelApplied(s, cancel, s.Published()) else s
    case SubmitOrder(intent) =>
      if answer.Answer? && answer.submitted then SubmittedIntent(s, intent, s.Published()) else s
    case ReplaceOrder(replace) =>
      if answer.Answer? then ReplaceApplied(s, replace, answer.replace, s.Published()) else s
  }

  function ApplyActions(s: AccountState, conditionId: string, actions: seq<ReconcileAction>, exchange: Exchange): AccountState {
    if actions == [] then s
    else
      var n := |actions| - 1;
      ApplyAction(ApplyActions(s, conditionId, actions[..n], exchange), conditionId, actions[n], exchange(conditionId, n))
  }

  function PausedBy(plan: MarketPlan): MarketPause {
    BuildPause(plan.market.conditionId, FirstText(Some(plan.pauseReason), MARKET_NOT_TRADABLE), Some(ByReconcile), None)
  }

  function PauseFor(s: AccountState, plan: MarketPlan): AccountState {
    if plan.pauseTrading then Step(s, PauseMarket(PausedBy(plan))) else s
  }

  function ApplyPlan(s: AccountState, plan: MarketPlan, exchange: Exchange): AccountState {
    ApplyActions(PauseFor(s, plan), plan.market.conditionId, plan.actions, exchange)
  }

  function ApplyPlans(s: AccountState, plans: seq<MarketPlan>, exchange: Exchange): AccountState {
    if plans == [] then s
    else ApplyPlan(ApplyPlans(s, plans[..|plans| - 1], exchange), plans[|plans| - 1], exchange)
  }

  function PlansFor(markets: seq<Market>, snapshot: AccountSnapshot, hook: Hook, traceId: string): (plans: seq<MarketPlan>)
    ensures |plans| == |markets|
    ensures forall i :: 0 <= i < |markets| ==> plans[i] == PlanFor(markets[i], snapshot, hook, traceId)
  {
    seq(|markets|, i requires 0 <= i < |markets| => PlanFor(markets[i], snapshot, hook, traceId))
  }

  /** One pass over the markets: every plan is made from the same snapshot, then all are applied. */
  function Pass(s: AccountState, markets: seq<Market>, hook: Hook, traceId: string, exchange: Exchange, at: int): AccountState {
    Step(ApplyPlans(s, PlansFor(markets, s.Published(), hook, traceId), exchange), MarkReconciled(at))
  }

  // ------------------------------------------------------------------------------ the worker

  class ReconcileWorker {
    const store: AccountStateStore
    const applier: ReconcileActionApplier

    constructor (store: AccountStateStore)
      ensures this.store == store && applier.store == store && fresh(applier)
    {
      this.store := store;
      applier := new ReconcileActionApplier(store);
    }

    method CollectOrders(market: Market, snapshot: AccountSnapshot) returns (orders: seq<Order>)
      ensures orders == MarketOrders(market, snapshot, |market.outcomes|)
    {
      orders := [];
      for k := 0 to |market.outcomes|
        invariant orders == MarketOrders(market, snapshot, k)
      {
        orders := orders + snapshot.OpenOrdersForMarket((market.conditionId, market.outcomes[k].tokenId));
      }
    }

    method BuildActions(traceId: string, conditionId: string, decisions: seq<Decision>, index: Dict<string, Order>)
        returns (actions: seq<ReconcileAction>)
      ensures actions == ActionsOf(traceId, conditionId, decisions, index)
    {
      actions := [];
      for k := 0 to |decisions|
        invariant actions == ActionsOf(traceId, conditionId, decisions[..k], index)
      {
        assert decisions[..k + 1][..k] == decisions[..k];
        var intent := IntentOf(traceId, conditionId, decisions[k]);
        if intent.None? {
          continue;
        }
        actions := actions + [ActionOf(conditionId, intent.value, index)];
      }
      assert decisions[..|decisions|] == decisions;
    }

    method BuildMarketPlan(market: Market, snapshot: AccountSnapshot, hook: Hook, traceId: string) returns (plan: MarketPlan)
      ensures plan == PlanFor(market, snapshot, hook, traceId)
    {
      var orders := CollectOrders(market, snapshot);
      var pause := snapshot.PauseForMarket(market.conditionId);
      var context := RecoveryContext(Some(market), None, orders,
                                     Some(SnapshotForRecovery(snapshot, market.conditionId, pause)));
      assert context == ContextFor(market, snapshot);
      var recovery := hook(context);
      var pauseTrading := Untradable(market) || Sticky(pause) || recovery.pauseTrading;
      var reason := ResolvedPauseReason(market, pause, recovery.pauseReason, pauseTrading);
      var resumes := pause.Some? && !pauseTrading;
      var actions := PlanActions(traceId, market.conditionId, resumes, pauseTrading, recovery.actions, OrderIndex(orders));
      plan := MarketPlan(market, actions, pauseTrading, reason);
    }

    /** The resume, the extension's actions and the pause, in this order. */
    method PlanActions(traceId: string, conditionId: string, resumes: bool, pauses: bool, decisions: seq<Decision>,
                       index: Dict<string, Order>) returns (actions: seq<ReconcileAction>)
      ensures actions == (if resumes then [ResumeTrading] else []) + ActionsOf(traceId, conditionId, decisions, index)
                         + (if pauses then [PauseTrading] else [])
    {
      actions := [];
      if resumes {
        actions := actions + [ResumeTrading];
      }
      var own := BuildActions(traceId, conditionId, decisions, index);
      actions := actions + own;
      if pauses {
        actions := actions + [PauseTrading];
      }
    }

    method Apply(conditionId: string, action: ReconcileAction, answer: Answer, snapshot: AccountSnapshot)
      requires store.Valid() && applier.store == store && snapshot == store.snapshot
      modifies store
      ensures store.Valid() && store.State() == ApplyAction(old(store.State()), conditionId, action, answer)
    {
      match action
      case PauseTrading =>
      case ResumeTrading => applier.ApplyResume(conditionId);
      case CancelOrder(cancel) =>
        if answer.Answer? {
          applier.ApplyCancel(cancel, answer.cancelled, snapshot);
        }
      case SubmitOrder(intent) =>
        if answer.Answer? {
          applier.ApplySubmitOrder(intent, answer.submitted, snapshot);
        }
      case ReplaceOrder(replace) =>
        if answer.Answer? {
          applier.ApplyReplace(replace, answer.replace, snapshot);
        }
    }

    method ApplyPause(plan: MarketPlan)
      requires store.Valid()
      modifies store
      ensures store.Valid() && store.State() == PauseFor(old(store.State()), plan)
    {
      if plan.pauseTrading {
        store.Pause(plan.market.conditionId, FirstText(Some(plan.pauseReason), MARKET_NOT_TRADABLE), Some(ByReconcile), None);
      }
    }

    method ApplyAll(conditionId: string, actions: seq<ReconcileAction>, exchange: Exchange)
      requires store.Valid() && applier.store == store
      modifies store
      ensures store.Valid() && store.State() == ApplyActions(old(store.State()), conditionId, actions, exchange)
    {
      for k := 0 to |actions|
        invariant store.Valid()
        invariant store.State() == ApplyActions(old(store.State()), conditionId, actions[..k], exchange)
      {
        assert actions[..k + 1][..k] == actions[..k];
        Apply(conditionId, actions[k], exchange(conditionId, k), store.snapshot);
      }
      assert actions[..|actions|] == actions;
    }

    method BuildReconcilePlan(markets: seq<Market>, snapshot: AccountSnapshot, hook: Hook, traceId: string)
        returns (plans: seq<MarketPlan>)
      ensures plans == PlansFor(markets, snapshot, hook, traceId)
    {
      plans := [];
      for k := 0 to |markets|
        invariant |plans| == k
        invariant forall i :: 0 <= i < k ==> plans[i] == PlanFor(markets[i], snapshot, hook, traceId)
      {
        var plan := BuildMarketPlan(markets[k], snapshot, hook, traceId);
        plans := plans + [plan];
      }
    }

    method ApplyOne(plan: MarketPlan, exchange: Exchange)
      requires store.Valid() && applier.store == store
      modifies store
      ensures store.Valid() && store.State() == ApplyPlan(old(store.State()), plan, exchange)
    {
      ApplyPause(plan);
      ApplyAll(plan.market.conditionId, plan.actions, exchange);
    }

    method ApplyEach(plans: seq<MarketPlan>, exchange: Exchange)
      requires store.Valid() && applier.store == store
      modifies store
      ensures store.Valid() && store.State() == ApplyPlans(old(store.State()), plans, exchange)
    {
      for k := 0 to |plans|
        invariant store.Valid()
        invariant store.State() == ApplyPlans(old(store.State()), plans[..k], exchange)
      {
        assert plans[..k + 1][..k] == plans[..k];
        ApplyOne(plans[k], exchange);
      }
      assert plans[..|plans|] == plans;
    }

    method ReconcileOnce(markets: seq<Market>, hook: Hook, traceId: string, exchange: Exchange, at: int)
      requires store.Valid() && applier.store == store
      modifies store
      ensures store.Valid() && store.State() == Pass(old(store.State()), markets, hook, traceId, exchange, at)
    {
      var plans := BuildReconcilePlan(markets, store.snapshot, hook, traceId);
      ApplyEach(plans, exchange);
      store.Reconciled(at);
    }
  }
}
