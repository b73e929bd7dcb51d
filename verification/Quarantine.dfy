/**
 * What follows when an entry order that had to fill at once comes back resting: the market
 * is paused, and no later event and no reconcile pass brings back an entry plan for it.
 */
module Quarantine {
  import opened Wrappers
  import opened Dict
  import opened Domain
  import opened AccountStore
  import opened AccountLaws
  import opened Projection
  import opened Reconcile
  import opened EntrySizing
  import opened EntryPlanner
  import opened PauseLaws
  import opened LedgerLaws

  /** Anything that happens to the account: a pass, a ledger event, the decision worker's pause, or any call of the store. */
  datatype WorldEvent =
    | Passed(markets: seq<Market>, hook: Hook, traceId: string, exchange: Exchange, at: int)
    | OnLedger(event: LedgerEvent)
    | PausedByWorker(conditionId: string)
    | OnStore(op: StoreOp)

  /** A pause that reconciling neither lifts nor softens. */
  predicate Lasting(p: MarketPause) {
    !p.recoverable && p.reason != "" && !RecoverableReason(p.reason)
  }

  /** A call that does not resume the market, and pauses it again only for good. */
  predicate CallSpares(op: StoreOp, conditionId: string) {
    && op != ResumeMarket(conditionId)
    && (op.PauseMarket? && op.pause.conditionId == conditionId ==> Lasting(op.pause))
  }

  predicate Spares(w: WorldEvent, conditionId: string) {
    match w
    case Passed(markets, _, _, _, _) => DistinctIds(markets)
    case OnLedger(_) => true
    case PausedByWorker(_) => true
    case OnStore(op) => CallSpares(op, conditionId)
  }

  function WorkerPause(conditionId: string): StoreOp {
    PauseMarket(BuildPause(conditionId, UNEXPECTED_RESTING_ORDER, Some(ByRisk), None))
  }

  function Occur(s: AccountState, w: WorldEvent): AccountState {
    match w
    case Passed(markets, hook, traceId, exchange, at) => Pass(s, markets, hook, traceId, exchange, at)
    case OnLedger(e) => Happen(s, e)
    case PausedByWorker(id) => Step(s, WorkerPause(id))
    case OnStore(op) => Step(s, op)
  }

  function World(s: AccountState, events: seq<WorldEvent>): AccountState {
    if events == [] then s else Occur(World(s, events[..|events| - 1]), events[|events| - 1])
  }

  // ------------------------------------------------------------------ keys over ledger events

  lemma FlagsKeepKeys(s: AccountState, r: OrderResult, seen: Option<AccountSnapshot>)
    requires WellKeyed(s)
    ensures WellKeyed(ResultFlags(s, r, seen))
  {
    FlagsChangeOnlyFlags(s, r, seen);
    if HasUnexpectedRestingOrder(r) {
      StepKeepsKeys(s, PauseMarket(RestingPause(r)));
      SamePartsSameKeys(Step(s, PauseMarket(RestingPause(r))), ResultFlags(s, r, seen));
    } else {
      SamePartsSameKeys(s, ResultFlags(s, r, seen));
    }
  }

  lemma SamePartsSameKeys(s: AccountState, t: AccountState)
    requires WellKeyed(s) && t.positions == s.positions && t.openOrders == s.openOrders && t.marketPauses == s.marketPauses
    ensures WellKeyed(t)
  {}

  lemma SellKeepsKeys(s: AccountState, r: OrderResult, seen: Option<AccountSnapshot>, intent: TradeIntent)
    requires WellKeyed(s) && intent.SellTrade?
    ensures WellKeyed(SellResult(s, r, seen, intent))
  {
    var position := SellPosition(s, r, seen);
    if SellChanges(r) && position.Some? {
      StepKeepsKeys(s, UpsertOrder(SellOrder(r, intent)));
      StepKeepsKeys(s, RemoveOrder(SellOrderId(r, intent)));
      StepKeepsKeys(SellOrders(s, r, intent), UpsertPosition(SoldPosition(s, r, position.value, intent)));
    }
  }

  lemma BuyKeepsKeys(s: AccountState, r: OrderResult, seen: Option<AccountSnapshot>)
    requires WellKeyed(s)
    ensures WellKeyed(BuyResult(s, r, seen))
  {
    StepKeepsKeys(s, UpsertPosition(Bought(r, PositionIn(seen, r.Key()))));
  }

  lemma RefreshKeepsKeys(s: AccountState, key: Key)
    requires WellKeyed(s)
    ensures WellKeyed(RefreshCoverage(s, key))
  {
    var snapshot := s.Published();
    var buying := BuyShares(snapshot.OpenOrdersForMarket(key));
    var p := snapshot.GetPosition(key).GetOr(Position(key.0, key.1, 0.0, 0.0, 0.0, 0.0, 0.0, 0.0));
    StepKeepsKeys(s, UpsertPosition(p.(openBuyShares := buying, openSellShares := snapshot.OpenSellShares(key),
                                       pendingBuyShares := buying)));
  }

  lemma ReplacementKeepsKeys(s: AccountState, source: Order, r: OrderResult)
    requires WellKeyed(s)
    ensures WellKeyed(ReplaceResult(s, source, r))
  {
    var removed := Step(s, RemoveOrder(OrderKey(source)));
    StepKeepsKeys(s, RemoveOrder(OrderKey(source)));
    StepKeepsKeys(removed, UpsertOrder(ReplacementOrder(source, r)));
    RefreshKeepsKeys(ReplacedOrders(s, source, r), (source.conditionId, source.tokenId));
  }

  lemma HappenKeepsKeys(s: AccountState, e: LedgerEvent)
    requires WellKeyed(s)
    ensures WellKeyed(Happen(s, e))
  {
    match e
    case SellAnswered(r, seen, intent) =>
      if intent.SellTrade? {
        SellKeepsKeys(s, r, seen, intent);
      }
    case BuyAnswered(r, seen) => BuyKeepsKeys(s, r, seen);
    case FlagsRaised(r, seen) => FlagsKeepKeys(s, r, seen);
    case IntentSubmitted(intent, snapshot) => SubmissionKeepsKeys(s, intent, snapshot);
    case OrderReplaced(source, r) => ReplacementKeepsKeys(s, source, r);
    case CancelTaken(action, snapshot) => CancelKeepsKeys(s, action, snapshot);
    case ReplaceTaken(action, answer, snapshot) => ReplaceKeepsKeys(s, action, answer, snapshot);
  }

  // ------------------------------------------------------------------------ the quarantine

  lemma HappenKeepsQuarantine(s: AccountState, e: LedgerEvent, conditionId: string)
    requires Quarantined(s, conditionId)
    ensures Quarantined(Happen(s, e), conditionId)
  {
    if e.FlagsRaised? {
      FlagsChangeOnlyFlags(s, e.result, e.seen);
      GetPut(s.marketPauses, e.result.conditionId, RestingPause(e.result), conditionId);
    } else {
      OnlyFlagsTouchPauses(s, e);
    }
  }

  lemma SellTouchesNoPause(s: AccountState, r: OrderResult, seen: Option<AccountSnapshot>, intent: TradeIntent)
    requires intent.SellTrade?
    ensures SellResult(s, r, seen, intent).marketPauses == s.marketPauses
  {}

  lemma ReplacementTouchesNoPause(s: AccountState, source: Order, r: OrderResult)
    ensures ReplaceResult(s, source, r).marketPauses == s.marketPauses
  {}

  lemma OnlyFlagsTouchPauses(s: AccountState, e: LedgerEvent)
    requires !e.FlagsRaised?
    ensures Happen(s, e).marketPauses == s.marketPauses
  {
    match e
    case SellAnswered(r, seen, intent) =>
      if intent.SellTrade? {
        SellTouchesNoPause(s, r, seen, intent);
      }
    case BuyAnswered(_, _) =>
    case IntentSubmitted(_, _) =>
    case OrderReplaced(source, r) => ReplacementTouchesNoPause(s, source, r);
    case CancelTaken(_, _) =>
    case ReplaceTaken(action, answer, snapshot) => ReplaceTouchesNoPause(s, action, answer, snapshot);
  }

  /** A direct call of the store ends a quarantine exactly when it resumes the market, or pauses it anew and not for good. */
  lemma CallKeepsQuarantineExactlyWhen(s: AccountState, op: StoreOp, conditionId: string)
    requires WellKeyed(s) && Quarantined(s, conditionId)
    ensures Quarantined(Step(s, op), conditionId) <==> CallSpares(op, conditionId)
  {
    match op
    case PauseMarket(p) => GetPut(s.marketPauses, p.conditionId, p, conditionId);
    case ResumeMarket(id) => GetPop(s.marketPauses, id, conditionId);
    case _ =>
  }

  lemma OccurKeepsQuarantine(s: AccountState, w: WorldEvent, conditionId: string)
    requires WellKeyed(s) && Quarantined(s, conditionId) && Spares(w, conditionId)
    ensures WellKeyed(Occur(s, w)) && Quarantined(Occur(s, w), conditionId)
  {
    match w
    case Passed(markets, hook, traceId, exchange, at) =>
      QuarantineSurvivesPass(s, markets, hook, traceId, exchange, at, conditionId);
      PassKeepsKeys(s, markets, hook, traceId, exchange, at);
    case OnLedger(e) =>
      HappenKeepsQuarantine(s, e, conditionId);
      HappenKeepsKeys(s, e);
    case PausedByWorker(id) =>
      CallKeepsQuarantineExactlyWhen(s, WorkerPause(id), conditionId);
      StepKeepsKeys(s, WorkerPause(id));
    case OnStore(op) =>
      CallKeepsQuarantineExactlyWhen(s, op, conditionId);
      StepKeepsKeys(s, op);
  }

  /**
   * Neither reconcile passes under any extension, nor order results and reconcile actions,
   * nor the decision worker, nor calls of the store other than those meant to, lift or
   * soften the pause.
   */
  lemma {:induction false} QuarantineIsForever(s: AccountState, events: seq<WorldEvent>, conditionId: string)
    requires WellKeyed(s) && Quarantined(s, conditionId)
    requires forall i :: 0 <= i < |events| ==> Spares(events[i], conditionId)
    ensures WellKeyed(World(s, events)) && Quarantined(World(s, events), conditionId)
  {
    if events != [] {
      var n := |events| - 1;
      var front, last := events[..n], events[n];
      forall i | 0 <= i < n ensures Spares(front[i], conditionId) {
        assert front[i] == events[i];
      }
      QuarantineIsForever(s, front, conditionId);
      OccurKeepsQuarantine(World(s, front), last, conditionId);
    }
  }

  /** A resting entry order stops entries and quarantines its market. */
  lemma RestingEntryIsQuarantined(s: AccountState, r: OrderResult, seen: Option<AccountSnapshot>)
    requires HasUnexpectedRestingOrder(r)
    ensures Quarantined(ResultFlags(s, r, seen), r.conditionId) && !ResultFlags(s, r, seen).allowNewEntries
  {
    FlagsChangeOnlyFlags(s, r, seen);
    GetPut(s.marketPauses, r.conditionId, RestingPause(r), r.conditionId);
  }

  /** What the planner sees of an account state. */
  function ViewOf(s: AccountState): AccountView {
    var snapshot := s.Published();
    AccountView(snapshot.allowNewEntries,
                set i | 0 <= i < |snapshot.marketPauses| :: snapshot.marketPauses[i].conditionId,
                snapshot.balanceUsdc, snapshot.allowanceUsdc, snapshot.positions, snapshot.openOrders)
  }

  lemma PausedIsSeen(s: AccountState, conditionId: string)
    requires WellKeyed(s) && PauseOf(s, conditionId).Some?
    ensures conditionId in ViewOf(s).pausedMarkets
  {
    GetIsEntry(s.marketPauses, conditionId);
    var i :| 0 <= i < |s.marketPauses| && s.marketPauses[i] == (conditionId, PauseOf(s, conditionId).value);
    assert s.marketPauses[i] in s.marketPauses;
    assert s.Published().marketPauses[i].conditionId == conditionId;
  }

  lemma BlockedIsNotReady(config: StrategyConfig, r: PlanRequest)
    requires PositiveMarkets(r) && r.market.Some? && r.account.Some?
    requires r.market.value.conditionId in r.account.value.pausedMarkets
    ensures PlanEntry(config, r).Planned? && !PlanEntry(config, r).plan.ReadyToTrade()
  {
    assert r.orderbook.Some? ==> EntriesBlocked(r, r.market.value);
  }

  lemma QuarantinedHasNoEntry(t: AccountState, config: StrategyConfig, r: PlanRequest)
    requires PositiveMarkets(r) && r.market.Some? && r.account == Some(ViewOf(t))
    requires WellKeyed(t) && Quarantined(t, r.market.value.conditionId)
    ensures PlanEntry(config, r).Planned? && !PlanEntry(config, r).plan.ReadyToTrade()
  {
    PausedIsSeen(t, r.market.value.conditionId);
    BlockedIsNotReady(config, r);
  }

  /**
   * After a resting entry order, whatever happens to the account and however often it is
   * reconciled under whatever extension, the planner never returns a plan for that market
   * that is ready to trade.
   */
  lemma NoEntryAfterRestingOrder(s: AccountState, result: OrderResult, seen: Option<AccountSnapshot>, events: seq<WorldEvent>,
                                 config: StrategyConfig, r: PlanRequest)
    requires WellKeyed(s) && HasUnexpectedRestingOrder(result)
    requires forall i :: 0 <= i < |events| ==> Spares(events[i], result.conditionId)
    requires PositiveMarkets(r) && r.account == Some(ViewOf(World(ResultFlags(s, result, seen), events)))
    requires r.market.Some? && r.market.value.conditionId == result.conditionId
    ensures PlanEntry(config, r).Planned? && !PlanEntry(config, r).plan.ReadyToTrade()
  {
    var flagged := ResultFlags(s, result, seen);
    RestingEntryIsQuarantined(s, result, seen);
    FlagsKeepKeys(s, result, seen);
    QuarantineIsForever(flagged, events, result.conditionId);
    QuarantinedHasNoEntry(World(flagged, events), config, r);
  }
}
