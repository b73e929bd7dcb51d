/**
 * Which candidates an entry may be planned for, when it is, and what money it is bounded by,
 * in terms of what the request, the books and the strategy's settings say.
 */
module SelectionLaws {
  import opened Wrappers
  import opened Domain
  import opened WaterFill
  import opened Allocation
  import opened EntrySizing
  import opened EntryLaws
  import opened EntryPlanner
  import opened EntryGate

  // --------------------------------------------------------------- the strategy's selection

  /** What the strategy asks of a market and its book before it buys the primary outcome. */
  predicate Qualifies(config: StrategyConfig, c: EntryCandidate) {
    && config.selects(c.market)
    && c.market.FindTokenId("NO") == Some(c.tokenId)
    && c.market.tradingStatus == Eligible
    && c.orderbook.bestAsk.Some? && c.orderbook.bestAsk.value <= config.entryPriceMax
    && (config.maxSpread.Some? && c.orderbook.bestBid.Some? ==>
         c.orderbook.bestAsk.value - c.orderbook.bestBid.value <= config.maxSpread.value)
    && AskDepth(Some(c.orderbook), Some(config.entryPriceMax)) >= config.minLiquidity
  }

  /** A candidate is passed on to the allocator exactly when it qualifies. */
  lemma BuyableExactlyWhen(config: StrategyConfig, c: EntryCandidate)
    requires !LacksPrimary(config, CandidateSnapshot(c))
    ensures StrategySkip(config, CandidateSnapshot(c)).None? <==> Qualifies(config, c)
  {}

  /** A skip names something that is so: each reason with what it says. */
  lemma SkipReasonIsTrue(config: StrategyConfig, c: EntryCandidate)
    requires !LacksPrimary(config, CandidateSnapshot(c))
    ensures
      var skip := StrategySkip(config, CandidateSnapshot(c));
      && (skip == Some(MarketOutOfUniverse) <==> !config.selects(c.market))
      && (skip == Some(UnsupportedOutcome) ==> c.market.FindTokenId("NO") != Some(c.tokenId))
      && (skip == Some(MissingBestAsk) ==> c.orderbook.bestAsk.None?)
      && (skip == Some(PriceAboveEntryMax) ==> c.orderbook.bestAsk.Some? && c.orderbook.bestAsk.value > config.entryPriceMax)
      && (skip == Some(SpreadAboveMax) ==>
           && config.maxSpread.Some? && c.orderbook.bestAsk.Some? && c.orderbook.bestBid.Some?
           && c.orderbook.bestAsk.value - c.orderbook.bestBid.value > config.maxSpread.value)
      && (skip == Some(LiquidityBelowMin) ==>
           AskDepth(Some(c.orderbook), Some(config.entryPriceMax)) < config.minLiquidity)
      && (skip == Some(MarketNotTradable) ==> c.market.tradingStatus != Eligible)
  {}

  predicate DistinctCandidateKeys(cs: seq<EntryCandidate>) {
    forall i, j :: 0 <= i < j < |cs| ==>
      (cs[i].market.conditionId, cs[i].tokenId) != (cs[j].market.conditionId, cs[j].tokenId)
  }

  /** No candidate receives money that does not qualify, whatever the limits. */
  lemma FundedCandidatesQualify(config: StrategyConfig, context: SizingContext, limits: Limits, k: nat)
    requires k < |context.candidates| && DistinctCandidateKeys(context.candidates)
    requires NoneLacksPrimary(config, CandidateSnapshots(context)) && PositiveMinOrderSizes(CandidateSnapshots(context))
    ensures
      var plan := PlanOver(config, CandidateSnapshots(context), limits);
      && |plan.allocations| == |context.candidates|
      && (plan.allocations[k].buyBudget != 0.0 ==> Qualifies(config, context.candidates[k]))
  {
    var ss, cs := CandidateSnapshots(context), context.candidates;
    forall i, j | 0 <= i < j < |ss| ensures ss[i].Key() != ss[j].Key() {
      assert ss[i] == CandidateSnapshot(cs[i]) && ss[j] == CandidateSnapshot(cs[j]);
    }
    MergedPlan(config, ss, limits);
    assert ss[k] == CandidateSnapshot(cs[k]) && !LacksPrimary(config, ss[k]);
    assert OwnAllocation(config, ss[k], limits, PlanOver(config, ss, limits).allocations[k]);
    BuyableExactlyWhen(config, cs[k]);
  }

  // ------------------------------------------------------------------ answers of the sizing

  predicate Missing(f: Figure) {
    (f.field.None? || f.field.value == 0.0) && f.metadata.None?
  }

  /** Which figure is asked for first, and that nothing is planned while one is missing. */
  lemma SizingNeedsItsFigures(config: StrategyConfig, context: SizingContext)
    requires PositiveMinOrderSizes(CandidateSnapshots(context))
    ensures
      var sized := SizingFor(config, context);
      var known := context.candidates != [] || (context.market.Some? && context.orderbook.Some?);
      && (Missing(context.portfolioBudget) ==>
           sized == Sized(Sizing(AllocationPlan(0.0, [], MissingPortfolioBudget), None)))
      && (!Missing(context.portfolioBudget) ==>
        && (!known ==> Answers(sized, MissingMarketState))
        && (known && Missing(context.maxOrder) ==> Answers(sized, MissingMaxOrderUsdc))
        && (known && !Missing(context.maxOrder) && Missing(context.maxMarket) ==> Answers(sized, MissingMaxMarketUsdc))
        && (known && !Missing(context.maxOrder) && !Missing(context.maxMarket) && Missing(context.maxTotal) ==>
             Answers(sized, MissingMaxTotalUsdc)))
  {}

  predicate Answers(sized: SizingResult, reason: PlanReason) {
    && sized.Sized? && sized.sizing.allocation.None?
    && sized.sizing.plan.allocations == [] && sized.sizing.plan.reason == reason
  }

  // -------------------------------------------------------------- the planner's candidates

  /** The book a token is looked up with: the book of the update for its own token, and the cached one for others. */
  predicate HasBook(r: PlanRequest, focus: Market, focusBook: Orderbook, market: Market, tokenId: string, book: Orderbook) {
    if market.conditionId == focus.conditionId && tokenId == r.tokenId then book == focusBook
    else tokenId in r.books && r.books[tokenId] == book
  }

  /** The position and the orders a candidate comes with: the request's own, or else the account's. */
  predicate HasLedger(r: PlanRequest, c: EntryCandidate) {
    var key := (c.market.conditionId, c.tokenId);
    && (r.positions != [] || r.account.None? ==> c.position == IndexedPosition(r.positions, key))
    && (r.positions == [] && r.account.Some? ==> c.position == IndexedPosition(r.account.value.positions, key))
    && (r.openOrders != [] || r.account.None? ==> c.openOrders == OrdersFor(r.openOrders, key))
    && (r.openOrders == [] && r.account.Some? ==> c.openOrders == OrdersFor(r.account.value.openOrders, key))
  }

  lemma {:induction false} TokenIsListed(r: PlanRequest, focus: Market, focusBook: Orderbook, market: Market, n: nat, k: nat,
                                         book: Orderbook)
    requires k < n <= |market.outcomes| && HasBook(r, focus, focusBook, market, market.outcomes[k].tokenId, book)
    ensures CandidateFor(r, market, market.outcomes[k].tokenId, book) in TokenCandidates(r, focus, focusBook, market, n)
  {
    if k < n - 1 {
      TokenIsListed(r, focus, focusBook, market, n - 1, k, book);
    }
  }

  lemma {:induction false} MarketIsListed(r: PlanRequest, focus: Market, focusBook: Orderbook, markets: seq<Market>, i: nat,
                                          c: EntryCandidate)
    requires i < |markets| && c in TokenCandidates(r, focus, focusBook, markets[i], |markets[i].outcomes|)
    ensures c in MarketCandidates(r, focus, focusBook, markets)
  {
    var n := |markets| - 1;
    if i < n {
      assert markets[..n][i] == markets[i];
      MarketIsListed(r, focus, focusBook, markets[..n], i, c);
    }
  }

  /** Every token of a registered market that has a book is a candidate, with that book and its ledger. */
  lemma BookedTokenIsCandidate(r: PlanRequest, focus: Market, focusBook: Orderbook, i: nat, k: nat, book: Orderbook)
    requires i < |r.registryMarkets| && k < |r.registryMarkets[i].outcomes|
    requires HasBook(r, focus, focusBook, r.registryMarkets[i], r.registryMarkets[i].outcomes[k].tokenId, book)
    ensures exists c :: c in EntryCandidates(r, focus, focusBook) && c.market == r.registryMarkets[i]
                        && c.tokenId == r.registryMarkets[i].outcomes[k].tokenId && c.orderbook == book && HasLedger(r, c)
  {
    var market := r.registryMarkets[i];
    var c := CandidateFor(r, market, market.outcomes[k].tokenId, book);
    TokenIsListed(r, focus, focusBook, market, |market.outcomes|, k, book);
    MarketIsListed(r, focus, focusBook, r.registryMarkets, i, c);
    assert HasLedger(r, c);
  }

  /** And every candidate is one: its book and its ledger are those of its token. */
  lemma CandidateHasBook(r: PlanRequest, focus: Market, focusBook: Orderbook, i: nat)
    requires i < |EntryCandidates(r, focus, focusBook)|
    ensures
      var c := EntryCandidates(r, focus, focusBook)[i];
      && HasBook(r, focus, focusBook, c.market, c.tokenId, c.orderbook) && HasLedger(r, c)
      && (c.market == focus || c.market in r.registryMarkets)
  {
    EntryCandidatesFacts(r, focus, focusBook);
    var c := EntryCandidates(r, focus, focusBook)[i];
    assert c == CandidateFor(r, c.market, c.tokenId, c.orderbook);
  }

  /** The allocation of a sizing is that of the token asked for, or else of the book's, in the market asked for. */
  lemma FocusIsAnswered(config: StrategyConfig, context: SizingContext, sizing: Sizing, tokenId: string)
    requires PositiveMinOrderSizes(CandidateSnapshots(context)) && SizingFor(config, context) == Sized(sizing)
    requires context.market.Some? && sizing.allocation.Some?
    requires
      if context.tokenId.Some? && context.tokenId.value != "" then tokenId == context.tokenId.value
      else context.orderbook.Some? && tokenId == context.orderbook.value.tokenId
    ensures
      && sizing.allocation.value.conditionId == context.market.value.conditionId
      && sizing.allocation.value.tokenId == tokenId && sizing.allocation.value in sizing.plan.allocations
  {
    SizingPicks(config, context, sizing, (context.market.value.conditionId, tokenId));
    PickFinds(sizing.plan.allocations, context.market.value.conditionId, tokenId);
  }

  lemma SizingPicks(config: StrategyConfig, context: SizingContext, sizing: Sizing, focus: Key)
    requires PositiveMinOrderSizes(CandidateSnapshots(context)) && SizingFor(config, context) == Sized(sizing)
    requires Focus(context) == Some(focus) && sizing.allocation.Some?
    ensures Pick(sizing.plan.allocations, focus.0, focus.1) == sizing.allocation
  {}

  // ---------------------------------------------------------------------- when it enters

  /** A plan is ready exactly when entries are open, the focus receives money, and its ask is not above the entry price. */
  lemma EntersExactlyWhen(config: StrategyConfig, r: PlanRequest)
    requires PositiveMarkets(r) && r.market.Some? && r.orderbook.Some? && r.orderbook.value.tokenId == r.tokenId
    requires NoneLacksPrimary(config, RequestSnapshots(r))
    ensures PositiveMinOrderSizes(RequestSnapshots(r)) && PlanEntry(config, r).Planned?
    ensures
      var p := PlanEntry(config, r).plan;
      var plan := PlanOver(config, RequestSnapshots(r), EntryLimits(r));
      var picked := Pick(plan.allocations, r.market.value.conditionId, r.tokenId);
      p.ReadyToTrade() <==>
        && (r.account.Some? ==>
             r.account.value.allowNewEntries && r.market.value.conditionId !in r.account.value.pausedMarkets)
        && picked.Some? && picked.value.buyBudget > 0.0
        && r.orderbook.value.bestAsk.Some? && r.orderbook.value.bestAsk.value <= config.entryPriceMax
  {
    SizingOfRequest(config, r);
    var plan := PlanOver(config, RequestSnapshots(r), EntryLimits(r));
    var picked := Pick(plan.allocations, r.market.value.conditionId, r.tokenId);
    ReadyFromSizing(config, r.market.value, r.orderbook.value, r.tokenId, Sizing(plan, picked));
  }

  /** Of a sizing that picks the focus. */
  lemma ReadyFromSizing(config: StrategyConfig, focus: Market, book: Orderbook, tokenId: string, sizing: Sizing)
    requires sizing.allocation == Pick(sizing.plan.allocations, focus.conditionId, tokenId)
    ensures PlanFromSizing(config, focus, book, tokenId, sizing).Planned?
    ensures PlanFromSizing(config, focus, book, tokenId, sizing).plan.ReadyToTrade() <==>
      && sizing.allocation.Some? && sizing.allocation.value.buyBudget > 0.0
      && book.bestAsk.Some? && book.bestAsk.value <= config.entryPriceMax
  {}

  /**
   * The money of a ready plan: within the portfolio budget, and within the money given, or
   * else both the balance and the allowance of the account.
   */
  lemma EntrySpendsWithinMoney(config: StrategyConfig, r: PlanRequest, p: EntryPlan)
    requires ConsistentMarkets(r) && Ready(config, r, p)
    ensures p.plan.AllocatedBudget() <= r.portfolioBudget
    ensures r.available.Some? ==> p.plan.AllocatedBudget() <= r.available.value
    ensures r.available.None? && r.account.Some? ==>
      p.plan.AllocatedBudget() <= r.account.value.balanceUsdc && p.plan.AllocatedBudget() <= r.account.value.allowanceUsdc
  {
    var exposure := ReadySpends(config, r, p);
    assert 0.0 < InitialPool(EntryLimits(r), exposure) <= EntryLimits(r).available;
  }

  lemma ReadySpends(config: StrategyConfig, r: PlanRequest, p: EntryPlan) returns (exposure: real)
    requires ConsistentMarkets(r) && Ready(config, r, p)
    ensures 0.0 < p.plan.AllocatedBudget() <= InitialPool(EntryLimits(r), exposure)
  {
    var ss := RequestSnapshots(r);
    ReadyPlan(config, r, p);
    SnapshotsHaveDistinctKeys(r, r.orderbook.value);
    var k := PositiveAllocation(config, ss, EntryLimits(r), r.market.value.conditionId, r.tokenId);
    exposure := TotalExposure(BuyableMarkets(config, ss));
  }
}
