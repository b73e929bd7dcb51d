/**
 * What is held of a token, and at what cost, is what the fills of its BUY results say, over
 * whole runs of the ledger: nothing else that reaches it changes shares or cost.
 */
module HoldingLaws {
  import opened Wrappers
  import opened Dict
  import opened Domain
  import opened AccountStore
  import opened AccountLaws
  import opened Projection
  import opened ReconcileActions
  import opened LedgerLaws
  import opened LedgerRuns
  import opened Quarantine

  function SharesAt(s: AccountState, key: Key): real {
    if Get(s.positions, key).None? then 0.0 else Get(s.positions, key).value.shares
  }

  function CostAt(s: AccountState, key: Key): real {
    if Get(s.positions, key).None? then 0.0 else Get(s.positions, key).value.costUsdc
  }

  predicate SameHoldings(s: AccountState, t: AccountState, key: Key) {
    SharesAt(t, key) == SharesAt(s, key) && CostAt(t, key) == CostAt(s, key)
  }

  // ------------------------------------------------------------------------- one fill

  function Before(seen: Option<AccountSnapshot>, key: Key): Option<Position> {
    if seen.None? then None else seen.value.GetPosition(key)
  }

  predicate Fills(r: OrderResult) { r.status in {FullFill, PartialFill, NothingFilled} }

  /** A BUY result that says what was matched and spent adds both to the position it was handled with. */
  lemma FillIsBooked(s: AccountState, r: OrderResult, seen: Option<AccountSnapshot>)
    requires Fills(r) && r.matchedShares > 0.0 && r.spentUsdc > 0.0
    ensures
      var before, after := Before(seen, r.Key()), Get(BuyResult(s, r, seen).positions, r.Key());
      && after.Some? && PositionKey(after.value) == r.Key()
      && (before.None? ==>
        && after.value.shares == r.matchedShares && after.value.costUsdc == r.spentUsdc
        && after.value.openSellShares == 0.0 && after.value.openBuyShares == 0.0
        && after.value.pendingBuyShares == 0.0 && after.value.confirmedShares == 0.0)
      && (before.Some? ==>
        && after.value.shares == before.value.shares + r.matchedShares
        && after.value.costUsdc == before.value.costUsdc + r.spentUsdc
        && after.value.confirmedShares == before.value.confirmedShares + r.matchedShares
        && after.value.openSellShares == before.value.openSellShares
        && after.value.openBuyShares == 0.0 && after.value.pendingBuyShares == 0.0)
    ensures BuyResult(s, r, seen).openOrders == s.openOrders
    ensures forall key: Key :: key != r.Key() ==> Get(BuyResult(s, r, seen).positions, key) == Get(s.positions, key)
  {
    var p := Bought(r, PositionIn(seen, r.Key()));
    if seen.Some? {
      FirstPositionHasKey(seen.value.positions, r.Key());
    }
    forall key: Key ensures Get(Put(s.positions, PositionKey(p), p), key) == if key == r.Key() then Some(p) else Get(s.positions, key) {
      GetPut(s.positions, PositionKey(p), p, key);
    }
  }

  lemma TimesPrice(amount: real, price: real)
    requires price > 0.0
    ensures (amount / price) * price == amount
  {}

  /**
   * A BUY result that does not say what was matched: the requested size less what remains,
   * or else what the notional buys at the price, or else nothing. Money not reported as
   * spent is the price times what was matched, or nothing.
   */
  lemma UnreportedFill(s: AccountState, r: OrderResult, seen: AccountSnapshot)
    requires Fills(r) && seen.GetPosition(r.Key()).Some?
    ensures
      var before, after := seen.GetPosition(r.Key()).value, Get(BuyResult(s, r, Some(seen)).positions, r.Key());
      && after.Some?
      && (r.matchedShares <= 0.0 && r.requestedSizeShares.Some? ==>
        after.value.shares == before.shares + r.requestedSizeShares.value - r.remainingShares)
      && (r.matchedShares <= 0.0 && r.requestedSizeShares.None? ==>
        if r.notionalUsdc > 0.0 && r.price.Some? && r.price.value > 0.0
        then (after.value.shares - before.shares) * r.price.value == r.notionalUsdc
        else after.value.shares == before.shares)
      && (r.spentUsdc <= 0.0 ==>
        after.value.costUsdc
          == before.costUsdc + (if r.price.Some? && r.matchedShares > 0.0 then r.price.value * r.matchedShares else 0.0))
  {
    var before := seen.GetPosition(r.Key());
    var p := Bought(r, before);
    FirstPositionHasKey(seen.positions, r.Key());
    GetPut(s.positions, PositionKey(p), p, r.Key());
    if r.notionalUsdc > 0.0 && r.price.Some? && r.price.value > 0.0 {
      TimesPrice(r.notionalUsdc, r.price.value);
    }
  }

  /** Any other result, and a first one that reports no shares, stores nothing. */
  lemma NoFillStoresNothing(s: AccountState, r: OrderResult, seen: Option<AccountSnapshot>)
    requires
      || !Fills(r)
      || (Before(seen, r.Key()).None? && r.matchedShares <= 0.0 && r.requestedSizeShares.None?
          && (r.notionalUsdc <= 0.0 || r.price.None? || r.price.value <= 0.0))
    ensures BuyResult(s, r, seen) == s
  {}

  // ------------------------------------------------------------------------ whole runs

  /** The fills of BUY results say what was matched and spent. */
  predicate SaysFill(h: Report) {
    h.BuyReported? && Fills(h.result) ==> h.result.matchedShares > 0.0 && h.result.spentUsdc > 0.0
  }

  predicate FillOf(h: Report, key: Key) { h.BuyReported? && Fills(h.result) && h.result.Key() == key }

  function SharesFilled(run: seq<Report>, key: Key): real {
    if run == [] then 0.0
    else
      var last := run[|run| - 1];
      SharesFilled(run[..|run| - 1], key) + (if FillOf(last, key) then last.result.matchedShares else 0.0)
  }

  function MoneySpent(run: seq<Report>, key: Key): real {
    if run == [] then 0.0
    else
      var last := run[|run| - 1];
      MoneySpent(run[..|run| - 1], key) + (if FillOf(last, key) then last.result.spentUsdc else 0.0)
  }

  lemma UpsertKeepsHoldings(s: AccountState, t: AccountState, p: Position, key: Key)
    requires t.positions == Put(s.positions, PositionKey(p), p)
    requires p.shares == SharesAt(s, PositionKey(p)) && p.costUsdc == CostAt(s, PositionKey(p))
    ensures SameHoldings(s, t, key)
  {
    GetPut(s.positions, PositionKey(p), p, key);
  }

  /** The position a reader of the published snapshot finds is the stored one. */
  lemma CurrentPosition(s: AccountState, key: Key)
    requires WellKeyed(s)
    ensures s.Published().GetPosition(key) == Get(s.positions, key)
    ensures Get(s.positions, key).Some? ==> PositionKey(Get(s.positions, key).value) == key
  {
    FirstPositionIsGet(s.positions, key);
    FirstPositionHasKey(Values(s.positions), key);
  }

  /** What a report makes of the account leaves the holdings of a token as they are. */
  predicate Leaves(s: AccountState, h: Report, key: Key) {
    SameHoldings(s, Happen(s, EventOf(s, h)), key)
  }

  lemma SellKeepsHoldings(s: AccountState, r: OrderResult, intent: TradeIntent, key: Key)
    requires WellKeyed(s) && intent.SellTrade?
    ensures Leaves(s, SellReported(r, intent), key)
  {
    CurrentPosition(s, r.Key());
    var position := SellPosition(s, r, Some(s.Published()));
    if SellChanges(r) && position.Some? {
      var t := SellOrders(s, r, intent);
      assert t.positions == s.positions;
      UpsertKeepsHoldings(s, Step(t, UpsertPosition(SoldPosition(s, r, position.value, intent))),
                          SoldPosition(s, r, position.value, intent), key);
    }
  }

  lemma SubmissionKeepsHoldings(s: AccountState, intent: TradeIntent, key: Key)
    requires WellKeyed(s)
    ensures Leaves(s, Sent(intent), key)
  {
    CurrentPosition(s, intent.Key());
    UpsertKeepsHoldings(s, SubmittedIntent(s, intent, s.Published()), SubmittedPosition(intent, s.Published()), key);
  }

  lemma RefreshKeepsHoldings(s: AccountState, of: Key, key: Key)
    requires WellKeyed(s)
    ensures SameHoldings(s, RefreshCoverage(s, of), key)
  {
    CurrentPosition(s, of);
    var selling, buying := s.Published().OpenSellShares(of), BuyShares(s.Published().OpenOrdersForMarket(of));
    var p := Get(s.positions, of).GetOr(Position(of.0, of.1, 0.0, 0.0, 0.0, 0.0, 0.0, 0.0))
               .(openBuyShares := buying, openSellShares := selling, pendingBuyShares := buying);
    UpsertKeepsHoldings(s, Step(s, UpsertPosition(p)), p, key);
  }

  lemma ByHandKeepsHoldings(s: AccountState, source: Order, r: OrderResult, key: Key)
    requires WellKeyed(s)
    ensures Leaves(s, ReplacedByHand(source, r), key)
  {
    var replaced := ReplacedOrders(s, source, r);
    ReplacedOrdersKeepKeys(s, source, r);
    RefreshKeepsHoldings(replaced, (source.conditionId, source.tokenId), key);
    assert SameHoldings(s, replaced, key);
    assert Happen(s, EventOf(s, ReplacedByHand(source, r))) == RefreshCoverage(replaced, (source.conditionId, source.tokenId));
  }

  lemma ReplacedOrdersKeepKeys(s: AccountState, source: Order, r: OrderResult)
    requires WellKeyed(s)
    ensures WellKeyed(ReplacedOrders(s, source, r)) && ReplacedOrders(s, source, r).positions == s.positions
  {
    var removed := Step(s, RemoveOrder(OrderKey(source)));
    StepKeepsKeys(s, RemoveOrder(OrderKey(source)));
    StepKeepsKeys(removed, UpsertOrder(ReplacementOrder(source, r)));
  }

  lemma CancelKeepsHoldings(s: AccountState, action: CancelAction, key: Key)
    requires WellKeyed(s)
    ensures SameHoldings(s, CancelApplied(s, action, s.Published()), key)
  {
    CurrentPosition(s, action.Key());
    var position := s.Published().GetPosition(action.Key());
    if position.Some? {
      UpsertKeepsHoldings(s, CancelApplied(s, action, s.Published()), CancelledPosition(action, position.value), key);
    }
  }

  lemma CancelReportKeepsHoldings(s: AccountState, of: Key, id: string, key: Key)
    requires WellKeyed(s)
    ensures Leaves(s, CancelConfirmed(of, id), key)
  {
    CancelKeepsHoldings(s, CancelFrom(s, of, id), key);
    assert EventOf(s, CancelConfirmed(of, id)) == CancelTaken(CancelFrom(s, of, id), s.Published());
  }

  lemma ReplaceKeepsHoldings(s: AccountState, action: ReplaceAction, answer: ReplaceAnswer, key: Key)
    requires WellKeyed(s)
    ensures SameHoldings(s, ReplaceApplied(s, action, answer, s.Published()), key)
  {
    CurrentPosition(s, action.Key());
    if answer.Succeeded() {
      ReplaceAppliedIs(s, action, answer, s.Published());
      var source := SourceOrder(s, action, s.Published());
      var position := PositionToReplace(s, action.Key(), s.Published());
      var t := ReplaceOrders(s, action, source, answer);
      ReplacedOrdersKeepPositions(s, action, source, answer);
      if position.Some? {
        ReplacedKeepsHoldings(s, t, position.value, source, NewSide(source, answer), NewRemaining(action, answer), key);
      }
    }
  }

  lemma ReplacedOrdersKeepPositions(s: AccountState, action: ReplaceAction, source: Option<Order>, answer: ReplaceAnswer)
    ensures ReplaceOrders(s, action, source, answer).positions == s.positions
  {}

  lemma ReplacedKeepsHoldings(s: AccountState, t: AccountState, position: Position, source: Option<Order>, side: Side,
                              remaining: real, key: Key)
    requires t.positions == s.positions && Get(s.positions, PositionKey(position)) == Some(position)
    ensures SameHoldings(s, Step(t, UpsertPosition(ReplacedPosition(position, source, side, remaining))), key)
  {
    var p := ReplacedPosition(position, source, side, remaining);
    UpsertKeepsHoldings(s, Step(t, UpsertPosition(p)), p, key);
  }

  lemma ReplaceReportKeepsHoldings(s: AccountState, h: Report, key: Key)
    requires WellKeyed(s) && h.ReplaceReported?
    ensures Leaves(s, h, key)
  {
    var action := ReplaceAction(h.key.0, h.key.1, h.orderId, h.newPrice, h.sizeShares, None);
    assert EventOf(s, h) == ReplaceTaken(action, h.answer, s.Published());
    ReplaceKeepsHoldings(s, action, h.answer, key);
  }

  lemma OtherFillKeepsHoldings(s: AccountState, r: OrderResult, key: Key)
    requires SaysFill(BuyReported(r)) && !FillOf(BuyReported(r), key)
    ensures Leaves(s, BuyReported(r), key)
  {
    if Fills(r) {
      FillIsBooked(s, r, Some(s.Published()));
    } else {
      NoFillStoresNothing(s, r, Some(s.Published()));
    }
  }

  lemma FlagsKeepHoldings(s: AccountState, r: OrderResult, key: Key)
    ensures Leaves(s, FlagsReported(r), key)
  {
    FlagsChangeOnlyFlags(s, r, Some(s.Published()));
  }

  /** Nothing but a fill changes what is held, and a fill only its own token. */
  lemma ReportKeepsHoldings(s: AccountState, h: Report, key: Key)
    requires WellKeyed(s) && SaysFill(h) && !FillOf(h, key)
    ensures Leaves(s, h, key)
  {
    match h
    case SellReported(r, intent) =>
      if intent.SellTrade? {
        SellKeepsHoldings(s, r, intent, key);
      }
    case BuyReported(r) => OtherFillKeepsHoldings(s, r, key);
    case FlagsReported(r) => FlagsKeepHoldings(s, r, key);
    case Sent(intent) => SubmissionKeepsHoldings(s, intent, key);
    case CancelConfirmed(of, id) => CancelReportKeepsHoldings(s, of, id, key);
    case ReplaceReported(_, _, _, _, _) => ReplaceReportKeepsHoldings(s, h, key);
    case ReplacedByHand(source, r) => ByHandKeepsHoldings(s, source, r, key);
  }

  lemma FillAddsHoldings(s: AccountState, r: OrderResult)
    requires WellKeyed(s) && SaysFill(BuyReported(r)) && Fills(r)
    ensures
      var t := Happen(s, EventOf(s, BuyReported(r)));
      && SharesAt(t, r.Key()) == SharesAt(s, r.Key()) + r.matchedShares
      && CostAt(t, r.Key()) == CostAt(s, r.Key()) + r.spentUsdc
  {
    CurrentPosition(s, r.Key());
    FillIsBooked(s, r, Some(s.Published()));
  }

  /**
   * Over every run of reports, each handled with the account as it is: what is held of a
   * token and its cost are what they were, plus all that its fills matched and spent.
   */
  lemma {:induction false} HoldingsAreFills(s: AccountState, run: seq<Report>, key: Key)
    requires WellKeyed(s) && forall i :: 0 <= i < |run| ==> SaysFill(run[i])
    ensures WellKeyed(Ran(s, run))
    ensures SharesAt(Ran(s, run), key) == SharesAt(s, key) + SharesFilled(run, key)
    ensures CostAt(Ran(s, run), key) == CostAt(s, key) + MoneySpent(run, key)
  {
    if run != [] {
      var front, last := run[..|run| - 1], run[|run| - 1];
      forall i | 0 <= i < |front| ensures SaysFill(front[i]) {
        assert front[i] == run[i];
      }
      HoldingsAreFills(s, front, key);
      var before := Ran(s, front);
      HappenKeepsKeys(before, EventOf(before, last));
      if FillOf(last, key) {
        FillAddsHoldings(before, last.result);
      } else {
        ReportKeepsHoldings(before, last, key);
      }
    }
  }
}
