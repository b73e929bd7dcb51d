/**
 * The current strategy's recovery: cancel every resting entry order of the managed token,
 * and offer for sale whatever shares no exit order covers yet.
 */
module Recovery {
  import opened Wrappers
  import opened Domain
  import opened AccountStore
  import opened Projection
  import opened Reconcile
  import opened EntrySizing

  function OrderIdentifier(o: Order): Option<string> {
    if o.orderId.Some? && o.orderId.value != "" then o.orderId else o.idempotencyKey
  }

  function ExitShares(orders: seq<Order>): real {
    if orders == [] then 0.0
    else
      var last := orders[|orders| - 1];
      ExitShares(orders[..|orders| - 1]) + (if last.OpenSell() then OpenSharesOf(last).GetOr(0.0) else 0.0)
  }

  function CancelDecision(o: Order): Decision {
    Decision(DoCancel, Some(o.tokenId), None, None, None, OrderIdentifier(o), None)
  }

  function SellDecision(tokenId: string, exitPrice: real, size: real): Decision {
    Decision(DoSell, Some(tokenId), Some(exitPrice), None, Some(size), None, None)
  }

  function EntryCancels(orders: seq<Order>): seq<Decision> {
    if orders == [] then []
    else
      var last := orders[|orders| - 1];
      EntryCancels(orders[..|orders| - 1])
      + (if OrderIdentifier(last).Some? && last.OpenBuy() then [CancelDecision(last)] else [])
  }

  function OfToken(orders: seq<Order>, tokenId: string): seq<Order> {
    if orders == [] then []
    else
      OfToken(orders[..|orders| - 1], tokenId)
      + (if orders[|orders| - 1].tokenId == tokenId then [orders[|orders| - 1]] else [])
  }

  function ManagedOrders(context: RecoveryContext, market: Market, managed: string): seq<Order> {
    var own := OfToken(context.openOrders, managed);
    if own == [] && context.snapshot.Some? then context.snapshot.value.OpenOrdersForMarket((market.conditionId, managed))
    else own
  }

  function ManagedPosition(context: RecoveryContext, market: Market, managed: string): Option<Position> {
    if context.position.Some? && context.position.value.tokenId == managed then context.position
    else if context.snapshot.Some? then context.snapshot.value.GetPosition((market.conditionId, managed))
    else None
  }

  function ShortageSale(position: Option<Position>, covered: real, exitPrice: real): seq<Decision> {
    if position.Some? && position.value.shares - covered > 0.0
    then [SellDecision(position.value.tokenId, exitPrice, position.value.shares - covered)]
    else []
  }

  predicate MustPause(context: RecoveryContext, market: Market) {
    || Untradable(market)
    || (context.snapshot.Some? && context.snapshot.value.PauseForMarket(market.conditionId).Some?)
  }

  function Recover(exitPrice: real, context: RecoveryContext): RecoveryDecision {
    if context.market.None? then RecoveryDecision([], false, "")
    else
      var market := context.market.value;
      var managed := market.FindTokenId(PRIMARY_OUTCOME);
      if managed.None? then RecoveryDecision([], true, MISSING_PRIMARY_OUTCOME)
      else
        var orders := ManagedOrders(context, market, managed.value);
        var pause := MustPause(context, market);
        RecoveryDecision(
          EntryCancels(orders) + ShortageSale(ManagedPosition(context, market, managed.value), ExitShares(orders), exitPrice),
          pause, if pause then MARKET_NOT_TRADABLE else "")
  }

  /** The current strategy as an extension of the reconcile service. */
  function RecoveryHook(exitPrice: real): Hook {
    context => Recover(exitPrice, context)
  }

  method CancelEntries(orders: seq<Order>) returns (actions: seq<Decision>)
    ensures actions == EntryCancels(orders)
  {
    actions := [];
    for k := 0 to |orders|
      invariant actions == EntryCancels(orders[..k])
    {
      assert orders[..k + 1][..k] == orders[..k];
      if OrderIdentifier(orders[k]).None? || !orders[k].OpenBuy() {
        continue;
      }
      actions := actions + [CancelDecision(orders[k])];
    }
    assert orders[..|orders|] == orders;
  }

  method SumExitShares(orders: seq<Order>) returns (total: real)
    ensures total == ExitShares(orders)
  {
    total := 0.0;
    for k := 0 to |orders|
      invariant total == ExitShares(orders[..k])
    {
      assert orders[..k + 1][..k] == orders[..k];
      if orders[k].OpenSell() {
        total := total + OpenSharesOf(orders[k]).GetOr(0.0);
      }
    }
    assert orders[..|orders|] == orders;
  }

  method DecideRecovery(exitPrice: real, context: RecoveryContext) returns (decision: RecoveryDecision)
    ensures decision == Recover(exitPrice, context)
  {
    if context.market.None? {
      return RecoveryDecision([], false, "");
    }
    var market := context.market.value;
    var managed := market.FindTokenId(PRIMARY_OUTCOME);
    if managed.None? {
      return RecoveryDecision([], true, MISSING_PRIMARY_OUTCOME);
    }
    var position := ManagedPosition(context, market, managed.value);
    var orders := ManagedOrders(context, market, managed.value);
    var actions := CancelEntries(orders);
    var covered := SumExitShares(orders);
    if position.Some? {
      var uncovered := position.value.shares - covered;
      if uncovered > 0.0 {
        actions := actions + [SellDecision(position.value.tokenId, exitPrice, uncovered)];
      }
    }
    var pause := MustPause(context, market);
    decision := RecoveryDecision(actions, pause, if pause then MARKET_NOT_TRADABLE else "");
  }
}
