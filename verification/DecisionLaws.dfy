/**
 * What comes of the decisions of an extension, and when a market is paused: in terms of the
 * decision's own fields, the market's status and the pause it had.
 */
module DecisionLaws {
  import opened Wrappers
  import opened Dict
  import opened Domain
  import opened AccountStore
  import opened AccountLaws
  import opened Projection
  import opened ReconcileActions
  import opened Reconcile
  import opened Recovery
  import opened PauseLaws

  // -------------------------------------------------------------------- single decisions

  /** The action a decision becomes: none without a token, and none that lacks a figure of its kind. */
  lemma DecisionBecomes(traceId: string, conditionId: string, d: Decision, index: Dict<string, Order>)
    ensures
      var actions := ActionsOf(traceId, conditionId, [d], index);
      var token := d.tokenId.GetOr("");
      && (token == "" || d.kind == Skip ==> actions == [])
      && (token != "" && d.kind == DoBuy ==>
           if d.price.Some? && d.amountUsdc.Some? && d.amountUsdc.value > 0.0
           then actions == [SubmitOrder(BuyTrade(traceId, conditionId, token, d.price.value, d.amountUsdc.value,
                                                 if d.orderType.Some? then d.orderType.value else Fak, None))]
           else actions == [])
      && (token != "" && d.kind == DoSell ==>
           if d.price.Some? && d.sizeShares.Some? && d.sizeShares.value > 0.0
           then actions == [SubmitOrder(SellTrade(traceId, conditionId, token, d.price.value, d.sizeShares.value,
                                                  if d.orderType.Some? then d.orderType.value else Gtc, None))]
           else actions == [])
      && (token != "" && d.kind == DoReplace ==>
           if d.orderId.Some? && d.orderId.value != "" && d.price.Some? && d.sizeShares.Some? && d.sizeShares.value > 0.0
           then actions == [ReplaceOrder(ReplaceAction(conditionId, token, d.orderId.value, d.price.value, d.sizeShares.value,
                                                       None))]
           else actions == [])
      && (token != "" && d.kind == DoCancel ==>
           if d.orderId.Some? && d.orderId.value != "" then CancelsBy(actions, conditionId, token, d.orderId.value, index)
           else actions == [])
  {
    assert [d][..0] == [];
  }

  /** One cancel of the order, with the side and what is left of it as it is stored. */
  predicate CancelsBy(actions: seq<ReconcileAction>, conditionId: string, token: string, id: string, index: Dict<string, Order>) {
    && |actions| == 1 && actions[0].CancelOrder?
    && var cancel := actions[0].cancel;
    && cancel.Key() == (conditionId, token) && cancel.sourceOrderId == id
    && (Get(index, id).None? ==> cancel.sourceSide.None? && cancel.targetSizeShares.None?)
    && (Get(index, id).Some? ==>
         var source := Get(index, id).value;
         && cancel.sourceSide == Some(source.side) && cancel.targetSizeShares.Some?
         && (source.remainingShares.Some? && source.remainingShares.value >= 0.0 ==>
              cancel.targetSizeShares == source.remainingShares)
         && (source.remainingShares.None? && source.sizeShares.Some? && source.sizeShares.value >= 0.0 ==>
              cancel.targetSizeShares == source.sizeShares))
  }

  // ----------------------------------------------------------------------------- pauses

  predicate Ended(market: Market) {
    market.tradingStatus == Paused || market.tradingStatus == Closed || market.tradingStatus == Resolved
  }

  /** A plan pauses its market exactly when the market ended, its pause is not recoverable, or the extension asks for it. */
  lemma PlanPausesExactlyWhen(market: Market, snapshot: AccountSnapshot, hook: Hook, traceId: string)
    ensures
      var pause := snapshot.PauseForMarket(market.conditionId);
      PlanFor(market, snapshot, hook, traceId).pauseTrading <==>
        Ended(market) || (pause.Some? && !pause.value.recoverable) || hook(ContextFor(market, snapshot)).pauseTrading
  {}

  /** The reason: that of a pause that stays, the extension's, or the market's own. */
  lemma PauseReasonIs(market: Market, snapshot: AccountSnapshot, hook: Hook, traceId: string)
    ensures
      var plan := PlanFor(market, snapshot, hook, traceId);
      var pause := snapshot.PauseForMarket(market.conditionId);
      var asked := hook(ContextFor(market, snapshot)).pauseReason;
      && (pause.Some? && !pause.value.recoverable ==> plan.pauseReason == pause.value.reason)
      && (pause.None? || pause.value.recoverable ==>
        && (asked != "" ==> plan.pauseReason == asked)
        && (asked == "" && !plan.pauseTrading ==> plan.pauseReason == "")
        && (asked == "" && plan.pauseTrading ==>
          && (market.tradingStatus == Paused ==> plan.pauseReason == FirstText(market.rejectReason, "market_paused"))
          && (market.tradingStatus == Closed ==> plan.pauseReason == FirstText(market.rejectReason, "market_closed"))
          && (market.tradingStatus == Resolved ==> plan.pauseReason == FirstText(market.rejectReason, "market_resolved"))
          && (!Ended(market) ==> plan.pauseReason == if pause.Some? then pause.value.reason else "")))
  {}

  /** After a pass a market is paused exactly then, by the reconcile worker, and never without a reason. */
  lemma PassPausesExactlyWhen(s: AccountState, markets: seq<Market>, hook: Hook, traceId: string, exchange: Exchange, at: int,
                              k: nat)
    requires WellKeyed(s) && DistinctIds(markets) && k < |markets|
    ensures
      var m := markets[k];
      var before := s.Published().PauseForMarket(m.conditionId);
      var after := PauseOf(Pass(s, markets, hook, traceId, exchange, at), m.conditionId);
      && (after.Some? <==>
           Ended(m) || (before.Some? && !before.value.recoverable) || hook(ContextFor(m, s.Published())).pauseTrading)
      && (after.Some? ==>
           && after.value.conditionId == m.conditionId && after.value.source == ByReconcile && after.value.reason != "")
  {
    PassDecidesPause(s, markets, hook, traceId, exchange, at, k);
    PlanPausesExactlyWhen(markets[k], s.Published(), hook, traceId);
    PausedByReconcile(PlanFor(markets[k], s.Published(), hook, traceId));
  }

  lemma PausedByReconcile(plan: MarketPlan)
    ensures PausedBy(plan).conditionId == plan.market.conditionId && PausedBy(plan).source == ByReconcile
    ensures PausedBy(plan).reason == (if plan.pauseReason != "" then plan.pauseReason else "market_not_tradable")
    ensures PausedBy(plan).reason != ""
  {}

  // ---------------------------------------------------------------- what is not confirmed

  /** The exchange refused an action, or failed to answer. */
  predicate Unconfirmed(action: ReconcileAction, answer: Answer) {
    answer.Answer? ==>
      && (action.CancelOrder? ==> !answer.cancelled)
      && (action.SubmitOrder? ==> !answer.submitted)
      && (action.ReplaceOrder? ==> !answer.replace.Succeeded())
  }

  predicate SameLedger(s: AccountState, t: AccountState) {
    s.openOrders == t.openOrders && s.positions == t.positions
  }

  lemma UnconfirmedChangesNothing(s: AccountState, conditionId: string, action: ReconcileAction, answer: Answer)
    requires Unconfirmed(action, answer)
    ensures SameLedger(s, ApplyAction(s, conditionId, action, answer))
    ensures !action.ResumeTrading? ==> ApplyAction(s, conditionId, action, answer) == s
  {}

  /** A plan none of whose actions the exchange confirms moves no order and no position. */
  lemma {:induction false} UnconfirmedPlanKeepsLedger(s: AccountState, conditionId: string, actions: seq<ReconcileAction>,
                                                      exchange: Exchange)
    requires forall i: nat :: i < |actions| ==> Unconfirmed(actions[i], exchange(conditionId, i))
    ensures SameLedger(s, ApplyActions(s, conditionId, actions, exchange))
  {
    if actions != [] {
      var n := |actions| - 1;
      UnconfirmedPlanKeepsLedger(s, conditionId, actions[..n], exchange);
      UnconfirmedChangesNothing(ApplyActions(s, conditionId, actions[..n], exchange), conditionId, actions[n],
                                exchange(conditionId, n));
    }
  }

  // ------------------------------------------------------------- what the extension sees

  lemma {:induction false} OtherPausesShow(pauses: seq<MarketPause>, hidden: string, conditionId: string)
    ensures FirstPause(OtherPauses(pauses, hidden), conditionId)
         == if conditionId == hidden then None else FirstPause(pauses, conditionId)
  {
    if pauses != [] {
      OtherPausesShow(pauses[1..], hidden, conditionId);
      var head := if pauses[0].conditionId == hidden then [] else [pauses[0]];
      if head != [] {
        assert (head + OtherPauses(pauses[1..], hidden))[1..] == OtherPauses(pauses[1..], hidden);
      } else {
        assert head + OtherPauses(pauses[1..], hidden) == OtherPauses(pauses[1..], hidden);
      }
    }
  }

  /** The extension sees the whole account, but for the market's own pause when it is recoverable. */
  lemma ExtensionSees(market: Market, snapshot: AccountSnapshot, conditionId: string)
    ensures
      var context := ContextFor(market, snapshot);
      && context.market == Some(market) && context.position.None? && context.snapshot.Some?
      && var seen := context.snapshot.value;
      && seen.positions == snapshot.positions && seen.openOrders == snapshot.openOrders
      && var own := snapshot.PauseForMarket(market.conditionId);
      && seen.PauseForMarket(conditionId)
         == if conditionId == market.conditionId && own.Some? && own.value.recoverable then None
            else snapshot.PauseForMarket(conditionId)
  {
    OtherPausesShow(snapshot.marketPauses, market.conditionId, conditionId);
  }

  // --------------------------------------------------------------- the current strategy

  /** The current strategy asks for a pause exactly when the market has no primary outcome, ended, or is shown as paused. */
  lemma RecoveryPausesExactlyWhen(exitPrice: real, context: RecoveryContext)
    ensures
      var decision := Recover(exitPrice, context);
      && (decision.pauseTrading <==>
           context.market.Some? &&
           (|| context.market.value.FindTokenId("NO").None?
            || Ended(context.market.value)
            || (context.snapshot.Some?
                && context.snapshot.value.PauseForMarket(context.market.value.conditionId).Some?)))
      && (!decision.pauseTrading ==> decision.pauseReason == "")
      && (decision.pauseTrading ==>
           decision.pauseReason == if context.market.value.FindTokenId("NO").None? then "missing_primary_outcome"
                                   else "market_not_tradable")
      && (context.market.None? || context.market.value.FindTokenId("NO").None? ==> decision.actions == [])
  {}

  /** An open SELL order covers what remains of it, or else its size, and never less than nothing; other orders cover nothing. */
  lemma ExitCovers(orders: seq<Order>, o: Order, size: real)
    requires
      if o.remainingShares.Some? then size == o.remainingShares.value
      else if o.sizeShares.Some? then size == o.sizeShares.value
      else size == 0.0
    ensures o.side == Sell && o.Open() ==> ExitShares(orders + [o]) == ExitShares(orders) + if size < 0.0 then 0.0 else size
    ensures o.side == Buy || !o.Open() ==> ExitShares(orders + [o]) == ExitShares(orders)
  {
    assert (orders + [o])[..|orders|] == orders;
  }

  /**
   * What it reads: the context's orders of the token when there are any, or else the
   * account's; the context's position when it is of the token, or else the account's.
   */
  lemma RecoveryReads(exitPrice: real, context: RecoveryContext, tokenId: string, orders: seq<Order>, position: Option<Position>)
    requires context.market.Some? && context.snapshot.Some? && context.market.value.FindTokenId("NO") == Some(tokenId)
    requires
      var own := OfToken(context.openOrders, tokenId);
      orders == if own != [] then own
                else OrdersFor(context.snapshot.value.openOrders, (context.market.value.conditionId, tokenId))
    requires
      if context.position.Some? && context.position.value.tokenId == tokenId then position == context.position
      else position == FirstPosition(context.snapshot.value.positions, (context.market.value.conditionId, tokenId))
    ensures Recover(exitPrice, context).actions == EntryCancels(orders) + ShortageSale(position, ExitShares(orders), exitPrice)
  {}
}
