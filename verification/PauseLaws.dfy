/** Pauses over whole runs: which survive every reconcile pass, and which are cleared. */
module PauseLaws {
  import opened Wrappers
  import opened Dict
  import opened Domain
  import opened AccountStore
  import opened AccountLaws
  import opened Projection
  import opened ReconcileActions
  import opened Reconcile
  import opened EntrySizing
  import opened Recovery

  function PauseOf(s: AccountState, conditionId: string): Option<MarketPause> {
    Get(s.marketPauses, conditionId)
  }

  /** A pause that says why, for a reason reconciling does not clear by itself. */
  predicate Quarantined(s: AccountState, conditionId: string) {
    && Sticky(PauseOf(s, conditionId))
    && PauseOf(s, conditionId).value.reason != ""
    && !RecoverableReason(PauseOf(s, conditionId).value.reason)
  }

  // ----------------------------------------------------------------------- one market

  lemma ReplaceTouchesNoPause(s: AccountState, action: ReplaceAction, answer: ReplaceAnswer, snapshot: AccountSnapshot)
    ensures ReplaceApplied(s, action, answer, snapshot).marketPauses == s.marketPauses
  {}

  lemma CancelTouchesNoPause(s: AccountState, action: CancelAction, snapshot: AccountSnapshot)
    ensures CancelApplied(s, action, snapshot).marketPauses == s.marketPauses
  {}

  lemma ActionKeepsPauses(s: AccountState, conditionId: string, action: ReconcileAction, answer: Answer)
    requires !action.ResumeTrading?
    ensures ApplyAction(s, conditionId, action, answer).marketPauses == s.marketPauses
  {
    match action
    case PauseTrading =>
    case CancelOrder(cancel) => CancelTouchesNoPause(s, cancel, s.Published());
    case SubmitOrder(_) =>
    case ReplaceOrder(replace) =>
      if answer.Answer? {
        ReplaceTouchesNoPause(s, replace, answer.replace, s.Published());
      }
  }

  lemma {:induction false} NoResumeAmongActions(traceId: string, conditionId: string, decisions: seq<Decision>,
                                                index: Dict<string, Order>)
    ensures forall i :: 0 <= i < |ActionsOf(traceId, conditionId, decisions, index)| ==>
      !ActionsOf(traceId, conditionId, decisions, index)[i].ResumeTrading?
  {
    if decisions != [] {
      NoResumeAmongActions(traceId, conditionId, decisions[..|decisions| - 1], index);
    }
  }

  lemma {:induction false} ActionsKeepPauses(s: AccountState, conditionId: string, actions: seq<ReconcileAction>,
                                             exchange: Exchange)
    requires forall i :: 0 <= i < |actions| ==> !actions[i].ResumeTrading?
    ensures ApplyActions(s, conditionId, actions, exchange).marketPauses == s.marketPauses
  {
    if actions != [] {
      var n := |actions| - 1;
      ActionsKeepPauses(s, conditionId, actions[..n], exchange);
      ActionKeepsPauses(ApplyActions(s, conditionId, actions[..n], exchange), conditionId, actions[n], exchange(conditionId, n));
    }
  }

  /** Applying after a first resume: the resume, then actions that touch no pause. */
  lemma {:induction false} ActionsAfterResume(s: AccountState, conditionId: string, actions: seq<ReconcileAction>,
                                              exchange: Exchange)
    requires actions != [] && actions[0].ResumeTrading?
    requires forall i :: 1 <= i < |actions| ==> !actions[i].ResumeTrading?
    ensures ApplyActions(s, conditionId, actions, exchange).marketPauses == Pop(s.marketPauses, conditionId)
  {
    var n := |actions| - 1;
    if n == 0 {
      assert actions[..0] == [];
    } else {
      ActionsAfterResume(s, conditionId, actions[..n], exchange);
      ActionKeepsPauses(ApplyActions(s, conditionId, actions[..n], exchange), conditionId, actions[n], exchange(conditionId, n));
    }
  }

  /** What a plan does to the pauses: renews its market's pause, clears it, or nothing. */
  function PlannedPauses(pauses: Dict<string, MarketPause>, plan: MarketPlan, paused: bool): Dict<string, MarketPause> {
    if plan.pauseTrading then Put(pauses, plan.market.conditionId, PausedBy(plan))
    else if paused then Pop(pauses, plan.market.conditionId)
    else pauses
  }

  /** Actions that resume at most at their start, and only when told so. */
  lemma ActionsPause(t: AccountState, conditionId: string, resumes: bool, others: seq<ReconcileAction>,
                     actions: seq<ReconcileAction>, exchange: Exchange)
    requires actions == (if resumes then [ResumeTrading] else []) + others
    requires forall i :: 0 <= i < |others| ==> !others[i].ResumeTrading?
    ensures ApplyActions(t, conditionId, actions, exchange).marketPauses
         == if resumes then Pop(t.marketPauses, conditionId) else t.marketPauses
  {
    if resumes {
      assert actions[0].ResumeTrading?;
      forall i | 1 <= i < |actions| ensures !actions[i].ResumeTrading? {
        assert actions[i] == others[i - 1];
      }
      ActionsAfterResume(t, conditionId, actions, exchange);
    } else {
      assert actions == others;
      ActionsKeepPauses(t, conditionId, actions, exchange);
    }
  }

  lemma PlanActionsPause(market: Market, snapshot: AccountSnapshot, hook: Hook, traceId: string)
      returns (others: seq<ReconcileAction>)
    ensures forall i :: 0 <= i < |others| ==> !others[i].ResumeTrading?
    ensures
      var plan := PlanFor(market, snapshot, hook, traceId);
      var resumes := snapshot.PauseForMarket(market.conditionId).Some? && !plan.pauseTrading;
      plan.actions == (if resumes then [ResumeTrading] else []) + others
  {
    var plan := PlanFor(market, snapshot, hook, traceId);
    var context := ContextFor(market, snapshot);
    var index := OrderIndex(context.openOrders);
    var decisions := hook(context).actions;
    NoResumeAmongActions(traceId, market.conditionId, decisions, index);
    others := ActionsOf(traceId, market.conditionId, decisions, index) + (if plan.pauseTrading then [PauseTrading] else []);
  }

  lemma AppliedPlanPauses(s: AccountState, plan: MarketPlan, paused: bool, others: seq<ReconcileAction>, exchange: Exchange)
    requires plan.actions == (if paused && !plan.pauseTrading then [ResumeTrading] else []) + others
    requires forall i :: 0 <= i < |others| ==> !others[i].ResumeTrading?
    ensures ApplyPlan(s, plan, exchange).marketPauses == PlannedPauses(s.marketPauses, plan, paused)
  {
    ActionsPause(PauseFor(s, plan), plan.market.conditionId, paused && !plan.pauseTrading, others, plan.actions, exchange);
  }

  lemma PlanPauses(s: AccountState, market: Market, snapshot: AccountSnapshot, hook: Hook, traceId: string, exchange: Exchange)
    ensures
      var plan := PlanFor(market, snapshot, hook, traceId);
      ApplyPlan(s, plan, exchange).marketPauses
        == PlannedPauses(s.marketPauses, plan, snapshot.PauseForMarket(market.conditionId).Some?)
  {
    var others := PlanActionsPause(market, snapshot, hook, traceId);
    AppliedPlanPauses(s, PlanFor(market, snapshot, hook, traceId), snapshot.PauseForMarket(market.conditionId).Some?, others,
                      exchange);
  }

  // -------------------------------------------------------------------------- one pass

  predicate DistinctIds(markets: seq<Market>) {
    forall i, j :: 0 <= i < j < |markets| ==> markets[i].conditionId != markets[j].conditionId
  }

  function PausesAfter(pauses: Dict<string, MarketPause>, plans: seq<MarketPlan>, snapshot: AccountSnapshot)
    : Dict<string, MarketPause>
  {
    if plans == [] then pauses
    else
      var last := plans[|plans| - 1];
      PlannedPauses(PausesAfter(pauses, plans[..|plans| - 1], snapshot), last,
                    snapshot.PauseForMarket(last.market.conditionId).Some?)
  }

  lemma {:induction false} PlansPauses(s: AccountState, markets: seq<Market>, snapshot: AccountSnapshot, hook: Hook,
                                       traceId: string, exchange: Exchange)
    ensures
      var plans := PlansFor(markets, snapshot, hook, traceId);
      ApplyPlans(s, plans, exchange).marketPauses == PausesAfter(s.marketPauses, plans, snapshot)
  {
    if markets != [] {
      var n := |markets| - 1;
      var plans := PlansFor(markets, snapshot, hook, traceId);
      PlansPauses(s, markets[..n], snapshot, hook, traceId, exchange);
      assert plans[..n] == PlansFor(markets[..n], snapshot, hook, traceId);
      PlanPauses(ApplyPlans(s, plans[..n], exchange), markets[n], snapshot, hook, traceId, exchange);
    }
  }

  predicate Covers(plans: seq<MarketPlan>, conditionId: string) {
    exists i :: 0 <= i < |plans| && plans[i].market.conditionId == conditionId
  }

  lemma {:induction false} OthersKeepPauses(pauses: Dict<string, MarketPause>, plans: seq<MarketPlan>,
                                            snapshot: AccountSnapshot, conditionId: string)
    requires DistinctKeys(pauses)
    ensures DistinctKeys(PausesAfter(pauses, plans, snapshot))
    ensures !Covers(plans, conditionId) ==>
      Get(PausesAfter(pauses, plans, snapshot), conditionId) == Get(pauses, conditionId)
  {
    if plans != [] {
      var n := |plans| - 1;
      var before := PausesAfter(pauses, plans[..n], snapshot);
      var id := plans[n].market.conditionId;
      OthersKeepPauses(pauses, plans[..n], snapshot, conditionId);
      PutDistinct(before, id, PausedBy(plans[n]));
      PopDistinct(before, id);
      if !Covers(plans, conditionId) {
        forall i | 0 <= i < n ensures plans[..n][i].market.conditionId != conditionId {
          assert plans[..n][i] == plans[i];
        }
        assert !Covers(plans[..n], conditionId);
        GetPut(before, id, PausedBy(plans[n]), conditionId);
        GetPop(before, id, conditionId);
      }
    }
  }

  lemma {:induction false} OwnPlanDecides(pauses: Dict<string, MarketPause>, plans: seq<MarketPlan>,
                                          snapshot: AccountSnapshot, k: nat)
    requires DistinctKeys(pauses) && k < |plans|
    requires forall i, j :: 0 <= i < j < |plans| ==> plans[i].market.conditionId != plans[j].market.conditionId
    requires snapshot.PauseForMarket(plans[k].market.conditionId) == Get(pauses, plans[k].market.conditionId)
    ensures Get(PausesAfter(pauses, plans, snapshot), plans[k].market.conditionId)
         == if plans[k].pauseTrading then Some(PausedBy(plans[k])) else None
  {
    var n := |plans| - 1;
    var before := PausesAfter(pauses, plans[..n], snapshot);
    var id := plans[k].market.conditionId;
    var last := plans[n].market.conditionId;
    OthersKeepPauses(pauses, plans[..n], snapshot, id);
    GetPut(before, last, PausedBy(plans[n]), id);
    GetPop(before, last, id);
    if k < n {
      assert plans[..n][k] == plans[k];
      OwnPlanDecides(pauses, plans[..n], snapshot, k);
    } else {
      assert !Covers(plans[..n], id);
    }
  }

  /** The pause a pass leaves a market with, from the pause before it. */
  function PauseAfter(market: Market, s: AccountState, hook: Hook, traceId: string): Option<MarketPause> {
    var plan := PlanFor(market, s.Published(), hook, traceId);
    if plan.pauseTrading then Some(PausedBy(plan)) else None
  }

  lemma PassPauses(s: AccountState, markets: seq<Market>, hook: Hook, traceId: string, exchange: Exchange, at: int)
    ensures Pass(s, markets, hook, traceId, exchange, at).marketPauses
         == PausesAfter(s.marketPauses, PlansFor(markets, s.Published(), hook, traceId), s.Published())
  {
    PlansPauses(s, markets, s.Published(), hook, traceId, exchange);
  }

  lemma PlansAreOwn(markets: seq<Market>, snapshot: AccountSnapshot, hook: Hook, traceId: string, k: nat)
    requires k < |markets|
    ensures PlansFor(markets, snapshot, hook, traceId)[k].market == markets[k]
  {}

  /** A pass decides the pause of every market it looks at. */
  lemma PassDecidesPause(s: AccountState, markets: seq<Market>, hook: Hook, traceId: string, exchange: Exchange, at: int,
                         k: nat)
    requires WellKeyed(s) && DistinctIds(markets) && k < |markets|
    ensures PauseOf(Pass(s, markets, hook, traceId, exchange, at), markets[k].conditionId)
         == PauseAfter(markets[k], s, hook, traceId)
  {
    var snapshot := s.Published();
    var plans := PlansFor(markets, snapshot, hook, traceId);
    PassPauses(s, markets, hook, traceId, exchange, at);
    forall i | 0 <= i < |markets| ensures plans[i].market == markets[i] {
      PlansAreOwn(markets, snapshot, hook, traceId, i);
    }
    PlanDecides(s.marketPauses, markets, snapshot, plans, k);
  }

  lemma PlanDecides(pauses: Dict<string, MarketPause>, markets: seq<Market>, snapshot: AccountSnapshot,
                    plans: seq<MarketPlan>, k: nat)
    requires DistinctKeys(pauses) && (forall e :: e in pauses ==> e.0 == e.1.conditionId)
    requires snapshot.marketPauses == Values(pauses)
    requires DistinctIds(markets) && k < |markets| == |plans|
    requires forall i :: 0 <= i < |markets| ==> plans[i].market == markets[i]
    ensures Get(PausesAfter(pauses, plans, snapshot), markets[k].conditionId)
         == if plans[k].pauseTrading then Some(PausedBy(plans[k])) else None
  {
    FirstPauseIsGet(pauses, markets[k].conditionId);
    OwnPlanDecides(pauses, plans, snapshot, k);
  }

  /** And leaves the pauses of all other markets alone. */
  lemma PassLeavesOthers(s: AccountState, markets: seq<Market>, hook: Hook, traceId: string, exchange: Exchange, at: int,
                         conditionId: string)
    requires WellKeyed(s)
    requires forall i :: 0 <= i < |markets| ==> markets[i].conditionId != conditionId
    ensures PauseOf(Pass(s, markets, hook, traceId, exchange, at), conditionId) == PauseOf(s, conditionId)
  {
    PassPauses(s, markets, hook, traceId, exchange, at);
    OthersKeepPauses(s.marketPauses, PlansFor(markets, s.Published(), hook, traceId), s.Published(), conditionId);
  }

  // ------------------------------------------------------------- keys over a whole pass

  lemma ActionKeepsKeys(s: AccountState, conditionId: string, action: ReconcileAction, answer: Answer)
    requires WellKeyed(s)
    ensures WellKeyed(ApplyAction(s, conditionId, action, answer))
  {
    match action
    case PauseTrading =>
    case ResumeTrading => StepKeepsKeys(s, ResumeMarket(conditionId));
    case CancelOrder(cancel) => CancelKeepsKeys(s, cancel, s.Published());
    case SubmitOrder(intent) => SubmissionKeepsKeys(s, intent, s.Published());
    case ReplaceOrder(replace) =>
      if answer.Answer? {
        ReplaceKeepsKeys(s, replace, answer.replace, s.Published());
      }
  }

  lemma CancelKeepsKeys(s: AccountState, cancel: CancelAction, snapshot: AccountSnapshot)
    requires WellKeyed(s)
    ensures WellKeyed(CancelApplied(s, cancel, snapshot))
  {
    StepKeepsKeys(s, RemoveOrder(cancel.sourceOrderId));
    var position := snapshot.GetPosition(cancel.Key());
    if position.Some? {
      StepKeepsKeys(Step(s, RemoveOrder(cancel.sourceOrderId)), UpsertPosition(CancelledPosition(cancel, position.value)));
    }
  }

  lemma SubmissionKeepsKeys(s: AccountState, intent: TradeIntent, snapshot: AccountSnapshot)
    requires WellKeyed(s)
    ensures WellKeyed(SubmittedIntent(s, intent, snapshot))
  {
    StepKeepsKeys(s, UpsertOrder(SubmittedOrder(intent)));
    StepKeepsKeys(Step(s, UpsertOrder(SubmittedOrder(intent))), UpsertPosition(SubmittedPosition(intent, snapshot)));
  }

  lemma ReplaceKeepsKeys(s: AccountState, action: ReplaceAction, answer: ReplaceAnswer, snapshot: AccountSnapshot)
    requires WellKeyed(s)
    ensures WellKeyed(ReplaceApplied(s, action, answer, snapshot))
  {
    if answer.Succeeded() {
      var source := SourceOrder(s, action, snapshot);
      var removed := Step(s, RemoveOrder(action.orderId));
      StepKeepsKeys(s, RemoveOrder(action.orderId));
      StepKeepsKeys(removed, UpsertOrder(NewOrder(action, source, answer)));
      StepKeepsKeys(removed, RemoveOrder(NewOrderId(action, answer)));
      var replaced := ReplaceOrders(s, action, source, answer);
      var current := s.Published().GetPosition(action.Key());
      var position := if current.Some? then current else snapshot.GetPosition(action.Key());
      if position.Some? {
        StepKeepsKeys(replaced, UpsertPosition(ReplacedPosition(position.value, source, NewSide(source, answer),
                                                                NewRemaining(action, answer))));
      }
    }
  }

  lemma {:induction false} ActionsKeepKeys(s: AccountState, conditionId: string, actions: seq<ReconcileAction>, exchange: Exchange)
    requires WellKeyed(s)
    ensures WellKeyed(ApplyActions(s, conditionId, actions, exchange))
  {
    if actions != [] {
      var n := |actions| - 1;
      ActionsKeepKeys(s, conditionId, actions[..n], exchange);
      ActionKeepsKeys(ApplyActions(s, conditionId, actions[..n], exchange), conditionId, actions[n], exchange(conditionId, n));
    }
  }

  lemma {:induction false} PlansKeepKeys(s: AccountState, plans: seq<MarketPlan>, exchange: Exchange)
    requires WellKeyed(s)
    ensures WellKeyed(ApplyPlans(s, plans, exchange))
  {
    if plans != [] {
      var n := |plans| - 1;
      PlansKeepKeys(s, plans[..n], exchange);
      var before := ApplyPlans(s, plans[..n], exchange);
      StepKeepsKeys(before, PauseMarket(PausedBy(plans[n])));
      ActionsKeepKeys(PauseFor(before, plans[n]), plans[n].market.conditionId, plans[n].actions, exchange);
    }
  }

  lemma PassKeepsKeys(s: AccountState, markets: seq<Market>, hook: Hook, traceId: string, exchange: Exchange, at: int)
    requires WellKeyed(s)
    ensures WellKeyed(Pass(s, markets, hook, traceId, exchange, at))
  {
    PlansKeepKeys(s, PlansFor(markets, s.Published(), hook, traceId), exchange);
    StepKeepsKeys(ApplyPlans(s, PlansFor(markets, s.Published(), hook, traceId), exchange), MarkReconciled(at));
  }

  // ------------------------------------------------------------------- which pauses last

  /**
   * A pause the account will not lift by itself, after one pass: with any extension it is
   * still there, but it is still such a pause exactly when it gives a reason, and not one
   * of the two reasons that reconciling treats as recoverable.
   */
  lemma StickyPauseLastsExactlyWhen(s: AccountState, markets: seq<Market>, hook: Hook, traceId: string,
                                    exchange: Exchange, at: int, k: nat)
    requires WellKeyed(s) && DistinctIds(markets) && k < |markets| && Sticky(PauseOf(s, markets[k].conditionId))
    ensures
      var before := PauseOf(s, markets[k].conditionId).value;
      var after := PauseOf(Pass(s, markets, hook, traceId, exchange, at), markets[k].conditionId);
      && after.Some? && after.value.reason == FirstText(Some(before.reason), MARKET_NOT_TRADABLE)
      && (Sticky(after) <==> before.reason != "" && !RecoverableReason(before.reason))
  {
    PassDecidesPause(s, markets, hook, traceId, exchange, at, k);
    FirstPauseIsGet(s.marketPauses, markets[k].conditionId);
  }

  lemma QuarantineSurvivesPass(s: AccountState, markets: seq<Market>, hook: Hook, traceId: string, exchange: Exchange,
                               at: int, conditionId: string)
    requires WellKeyed(s) && DistinctIds(markets) && Quarantined(s, conditionId)
    ensures Quarantined(Pass(s, markets, hook, traceId, exchange, at), conditionId)
  {
    if k: nat :| k < |markets| && markets[k].conditionId == conditionId {
      StickyPauseLastsExactlyWhen(s, markets, hook, traceId, exchange, at, k);
    } else {
      PassLeavesOthers(s, markets, hook, traceId, exchange, at, conditionId);
    }
  }

  /** Under the current strategy a pass leaves a market unpaused exactly when it can be traded and managed. */
  lemma PauseClearedExactlyWhen(s: AccountState, markets: seq<Market>, exitPrice: real, traceId: string, exchange: Exchange,
                                at: int, k: nat)
    requires WellKeyed(s) && DistinctIds(markets) && k < |markets|
    ensures
      PauseOf(Pass(s, markets, RecoveryHook(exitPrice), traceId, exchange, at), markets[k].conditionId).None?
      <==> !Untradable(markets[k]) && markets[k].FindTokenId(PRIMARY_OUTCOME).Some?
           && !Sticky(PauseOf(s, markets[k].conditionId))
  {
    var hook := RecoveryHook(exitPrice);
    var id := markets[k].conditionId;
    PassDecidesPause(s, markets, hook, traceId, exchange, at, k);
    FirstPauseIsGet(s.marketPauses, id);
    OwnPauseHidden(s.Published().marketPauses, id);
  }

  lemma {:induction false} OwnPauseHidden(pauses: seq<MarketPause>, conditionId: string)
    ensures FirstPause(OtherPauses(pauses, conditionId), conditionId).None?
  {
    if pauses != [] {
      OwnPauseHidden(pauses[1..], conditionId);
      if pauses[0].conditionId != conditionId {
        var rest := OtherPauses(pauses[1..], conditionId);
        assert ([pauses[0]] + rest)[1..] == rest;
      } else {
        assert OtherPauses(pauses, conditionId) == OtherPauses(pauses[1..], conditionId);
      }
    }
  }

  /**
   * So a risk pause that names a recoverable reason is no quarantine: the first pass makes
   * it recoverable, and the second clears it.
   */
  lemma SoftPauseIsGoneAfterTwoPasses(s: AccountState, markets: seq<Market>, exitPrice: real, trace1: string, trace2: string,
                                      exchange: Exchange, at: int, k: nat)
    requires WellKeyed(s) && DistinctIds(markets) && k < |markets|
    requires !Untradable(markets[k]) && markets[k].FindTokenId(PRIMARY_OUTCOME).Some?
    requires PauseOf(s, markets[k].conditionId)
          == Some(BuildPause(markets[k].conditionId, MARKET_NOT_TRADABLE, Some(ByRisk), None))
    ensures
      var hook := RecoveryHook(exitPrice);
      var once := Pass(s, markets, hook, trace1, exchange, at);
      && PauseOf(once, markets[k].conditionId).Some?
      && PauseOf(Pass(once, markets, hook, trace2, exchange, at), markets[k].conditionId).None?
  {
    var hook := RecoveryHook(exitPrice);
    var once := Pass(s, markets, hook, trace1, exchange, at);
    StickyPauseLastsExactlyWhen(s, markets, hook, trace1, exchange, at, k);
    PassKeepsKeys(s, markets, hook, trace1, exchange, at);
    PauseClearedExactlyWhen(once, markets, exitPrice, trace2, exchange, at, k);
  }
}
