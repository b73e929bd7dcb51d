/**
 * What a BUY intent that came out of sizing can still be refused for. The allocator
 * and the gate compute exposure, depth and totals separately; this is where they agree.
 */
module EntryGate {
  import opened Wrappers
  import opened Domain
  import opened Allocation
  import opened Risk
  import opened EntrySizing
  import opened EntryLaws
  import opened EntryPlanner

  /** What the worker reviews an entry with besides the plan: the account's money, where it is known, and two counts. */
  datatype ReviewSettings = ReviewSettings(
    balanceUsdc: Option<real>,
    allowanceUsdc: Option<real>,
    maxOpenOrders: Option<int>,
    orderRetryLimit: Option<int>)

  /** The inputs the worker reviews a ready plan with. */
  function ReviewInputs(r: PlanRequest, p: EntryPlan, settings: ReviewSettings): RiskInputs
    requires p.intent.Some?
  {
    var key := (p.intent.value.conditionId, p.intent.value.tokenId);
    RiskInputs(
      market := p.market, orderbook := p.orderbook,
      position := FirstPosition(PositionsOf(r), key), openOrders := OrdersFor(OpenOrdersOf(r), key),
      allocationPlan := Some(p.plan), classificationPassed := Some(true),
      marketActive := None, marketOpen := None, clobEnabled := None,
      resolved := None, cancelled := None, archived := None,
      geoblocked := false, balanceUsdc := settings.balanceUsdc, allowanceUsdc := settings.allowanceUsdc,
      portfolioTotal := None, openOrdersCount := None, retryCount := 0, orderRetryLimit := settings.orderRetryLimit,
      maxOrder := Some(r.maxOrder), maxMarket := Some(r.maxMarket), maxTotal := Some(r.maxTotal),
      maxOpenOrders := settings.maxOpenOrders, minOrderSize := None)
  }

  /** A review is a first try: it is refused for retries exactly when none are allowed at all. */
  lemma FirstTryIsRefusedExactlyWhen(r: PlanRequest, p: EntryPlan, settings: ReviewSettings, intent: OrderIntent)
    requires p.intent.Some?
    ensures !Holds(RetryGate, intent, ReviewInputs(r, p, settings)) <==>
      settings.orderRetryLimit.Some? && settings.orderRetryLimit.value <= 0
  {}

  predicate DistinctPositions(positions: seq<Position>) {
    forall i, j :: 0 <= i < j < |positions| ==>
      (positions[i].conditionId, positions[i].tokenId) != (positions[j].conditionId, positions[j].tokenId)
  }

  predicate DistinctMarkets(markets: seq<Market>) {
    && (forall i, j :: 0 <= i < j < |markets| ==> markets[i].conditionId != markets[j].conditionId)
    && (forall i :: 0 <= i < |markets| ==> DistinctTokens(markets[i]))
  }

  /** The registry holds each market once, and the focus market is the one it holds. */
  predicate ConsistentMarkets(r: PlanRequest) {
    && r.market.Some? && PositiveMarkets(r)
    && DistinctMarkets(r.registryMarkets) && DistinctTokens(r.market.value)
    && (forall i :: 0 <= i < |r.registryMarkets| && r.registryMarkets[i].conditionId == r.market.value.conditionId ==>
          r.registryMarkets[i] == r.market.value)
  }

  /** A ledger with one position per token and no negative amount. */
  predicate ConsistentLedger(r: PlanRequest) {
    && DistinctPositions(PositionsOf(r))
    && (forall i :: 0 <= i < |PositionsOf(r)| ==> PositionsOf(r)[i].costUsdc >= 0.0)
    && (forall i :: 0 <= i < |OpenOrdersOf(r)| ==> NonNegativeOrder(OpenOrdersOf(r)[i]))
  }

  // --------------------------------------------------------- the two views of the ledger

  lemma {:induction false} IndexedIsFirst(positions: seq<Position>, key: Key)
    requires DistinctPositions(positions)
    ensures IndexedPosition(positions, key) == FirstPosition(positions, key)
  {
    if positions != [] {
      var n := |positions| - 1;
      IndexedIsFirst(positions[..n], key);
      FirstOfSnoc(positions[..n], positions[n], key);
      assert positions == positions[..n] + [positions[n]];
      if (positions[n].conditionId, positions[n].tokenId) == key {
        FirstNeedsKey(positions[..n], key);
      }
    }
  }

  lemma {:induction false} FirstNeedsKey(positions: seq<Position>, key: Key)
    ensures FirstPosition(positions, key).Some? ==>
      exists i :: 0 <= i < |positions| && positions[i] == FirstPosition(positions, key).value
                  && (positions[i].conditionId, positions[i].tokenId) == key
  {
    if positions != [] && (positions[0].conditionId, positions[0].tokenId) != key {
      FirstNeedsKey(positions[1..], key);
      if FirstPosition(positions, key).Some? {
        var i :| 0 <= i < |positions[1..]| && positions[1..][i] == FirstPosition(positions, key).value
                 && (positions[1..][i].conditionId, positions[1..][i].tokenId) == key;
        assert positions[i + 1] == positions[1..][i];
      }
    }
  }

  lemma {:induction false} FirstOfSnoc(positions: seq<Position>, last: Position, key: Key)
    ensures FirstPosition(positions + [last], key)
         == if FirstPosition(positions, key).Some? then FirstPosition(positions, key)
            else if (last.conditionId, last.tokenId) == key then Some(last) else None
  {
    if positions == [] {
      assert [last][1..] == [];
    } else {
      FirstOfSnoc(positions[1..], last, key);
      assert (positions + [last])[1..] == positions[1..] + [last];
    }
  }

  lemma {:induction false} OrdersForFacts(orders: seq<Order>, key: Key)
    ensures forall i :: 0 <= i < |OrdersFor(orders, key)| ==>
      var o := OrdersFor(orders, key)[i];
      (o.conditionId, o.tokenId) == key && exists k :: 0 <= k < |orders| && orders[k] == o
  {
    if orders != [] {
      var n := |orders| - 1;
      OrdersForFacts(orders[..n], key);
      var all := OrdersFor(orders, key);
      forall i | 0 <= i < |all|
        ensures (all[i].conditionId, all[i].tokenId) == key && exists k :: 0 <= k < |orders| && orders[k] == all[i]
      {
        if i < |OrdersFor(orders[..n], key)| {
          var k :| 0 <= k < n && orders[..n][k] == all[i];
          assert orders[k] == all[i];
        } else {
          assert orders[n] == all[i];
        }
      }
    }
  }

  lemma {:induction false} SubjectKeepsAll(orders: seq<Order>, intent: OrderIntent)
    requires forall i :: 0 <= i < |orders| ==> OfSubject(orders[i], intent)
    ensures SubjectOrders(orders, intent) == orders
  {
    if orders != [] {
      SubjectKeepsAll(orders[..|orders| - 1], intent);
      assert orders == orders[..|orders| - 1] + [orders[|orders| - 1]];
    }
  }

  /** The gate's exposure of the focus token is the allocator's. */
  lemma SameExposure(r: PlanRequest, intent: OrderIntent, x: RiskInputs, s: MarketSnapshot)
    requires ConsistentLedger(r)
    requires
      var key := (intent.conditionId, intent.tokenId);
      && x.position == FirstPosition(PositionsOf(r), key) && x.openOrders == OrdersFor(OpenOrdersOf(r), key)
      && s.position == IndexedPosition(PositionsOf(r), key) && s.openOrders == OrdersFor(OpenOrdersOf(r), key)
    ensures MarketExposure(intent, x) == s.ExposureUsdc()
  {
    var key := (intent.conditionId, intent.tokenId);
    IndexedIsFirst(PositionsOf(r), key);
    OrdersForFacts(OpenOrdersOf(r), key);
    SubjectKeepsAll(x.openOrders, intent);
  }

  /** Whatever depth the allocator saw at the entry price, the gate sees the same. */
  lemma SameDepth(book: Orderbook, priceCap: real)
    requires AskDepth(Some(book), Some(priceCap)) != 0.0
    ensures BookDepth(book, priceCap) == AskDepth(Some(book), Some(priceCap))
  {}

  /**
   * The two depths differ exactly when a book has levels, none of which counts, while
   * its top of book does: the gate then falls back to the top of book, the allocator does not.
   */
  lemma DepthsDifferExactlyWhen(book: Orderbook, priceCap: real)
    ensures BookDepth(book, priceCap) != AskDepth(Some(book), Some(priceCap)) <==>
      && book.asks != [] && LevelsNotional(book.asks, Some(priceCap)) == 0.0
      && book.bestAsk.Some? && book.bestAskSize.Some? && book.bestAsk.value <= priceCap
      && book.bestAsk.value * book.bestAskSize.value != 0.0
  {}

  // ------------------------------------------------------------- the picked allocation

  lemma {:induction false} PickFinds(allocations: seq<Allocation>, conditionId: string, tokenId: string)
    ensures Pick(allocations, conditionId, tokenId).Some? ==>
      var a := Pick(allocations, conditionId, tokenId).value;
      && a.conditionId == conditionId && a.tokenId == tokenId
      && exists i :: 0 <= i < |allocations| && allocations[i] == a
  {
    if allocations != [] && !(allocations[0].conditionId == conditionId && allocations[0].tokenId == tokenId) {
      PickFinds(allocations[1..], conditionId, tokenId);
      if Pick(allocations, conditionId, tokenId).Some? {
        var i :| 0 <= i < |allocations[1..]| && allocations[1..][i] == Pick(allocations, conditionId, tokenId).value;
        assert allocations[i + 1] == allocations[1..][i];
      }
    }
  }

  lemma {:induction false} PartOfTheSum(allocations: seq<Allocation>, i: nat)
    requires i < |allocations| && forall k :: 0 <= k < |allocations| ==> allocations[k].buyBudget >= 0.0
    ensures 0.0 <= allocations[i].buyBudget <= SumBuy(allocations)
  {
    SumBuyNonNegative(allocations[1..]);
    if i > 0 {
      PartOfTheSum(allocations[1..], i - 1);
    }
  }

  lemma {:induction false} SumBuyNonNegative(allocations: seq<Allocation>)
    requires forall k :: 0 <= k < |allocations| ==> allocations[k].buyBudget >= 0.0
    ensures SumBuy(allocations) >= 0.0
  {
    if allocations != [] {
      SumBuyNonNegative(allocations[1..]);
    }
  }

  /** The budget a positive allocation of the merged plan stands for. */
  lemma PositiveAllocation(config: StrategyConfig, ss: seq<MarketSnapshot>, limits: Limits, conditionId: string,
                           tokenId: string) returns (k: nat)
    requires NoneLacksPrimary(config, ss) && PositiveMinOrderSizes(ss) && DistinctKeys(ss)
    requires
      var picked := Pick(PlanOver(config, ss, limits).allocations, conditionId, tokenId);
      picked.Some? && picked.value.buyBudget > 0.0
    ensures
      var plan := PlanOver(config, ss, limits);
      var budget := Pick(plan.allocations, conditionId, tokenId).value.buyBudget;
      && k < |ss| && ss[k].Key() == (conditionId, tokenId) && StrategySkip(config, ss[k]).None?
      && ss[k].market.minOrderSize <= budget
      && budget <= HardCapacity(ss[k].ExposureUsdc(), BuyableLiquidity(config, ss[k]), limits)
      && budget <= plan.AllocatedBudget() <= InitialPool(limits, TotalExposure(BuyableMarkets(config, ss)))
  {
    var plan := PlanOver(config, ss, limits);
    var a := Pick(plan.allocations, conditionId, tokenId).value;
    MergedPlan(config, ss, limits);
    PickFinds(plan.allocations, conditionId, tokenId);
    k :| 0 <= k < |plan.allocations| && plan.allocations[k] == a;
    assert OwnAllocation(config, ss[k], limits, a);
    forall i | 0 <= i < |plan.allocations| ensures plan.allocations[i].buyBudget >= 0.0 {
      assert OwnAllocation(config, ss[i], limits, plan.allocations[i]);
    }
    PartOfTheSum(plan.allocations, k);
  }

  // ------------------------------------------------------------------- distinct keys

  predicate DistinctCandidates(cs: seq<EntryCandidate>) {
    forall i, j :: 0 <= i < j < |cs| ==>
      (cs[i].market.conditionId, cs[i].tokenId) != (cs[j].market.conditionId, cs[j].tokenId)
  }

  lemma {:induction false} TokenCandidatesDistinct(r: PlanRequest, focus: Market, focusBook: Orderbook, market: Market, n: nat)
    requires n <= |market.outcomes| && DistinctTokens(market)
    ensures DistinctCandidates(TokenCandidates(r, focus, focusBook, market, n))
  {
    if n > 0 {
      TokenCandidatesDistinct(r, focus, focusBook, market, n - 1);
      TokenCandidatesFacts(r, focus, focusBook, market, n - 1);
    }
  }

  lemma {:induction false} MarketCandidatesDistinct(r: PlanRequest, focus: Market, focusBook: Orderbook, markets: seq<Market>)
    requires DistinctMarkets(markets)
    ensures DistinctCandidates(MarketCandidates(r, focus, focusBook, markets))
  {
    if markets != [] {
      var n := |markets| - 1;
      var last := markets[n];
      MarketCandidatesDistinct(r, focus, focusBook, markets[..n]);
      MarketCandidatesFacts(r, focus, focusBook, markets[..n]);
      TokenCandidatesDistinct(r, focus, focusBook, last, |last.outcomes|);
      TokenCandidatesFacts(r, focus, focusBook, last, |last.outcomes|);
      var front := MarketCandidates(r, focus, focusBook, markets[..n]);
      forall i | 0 <= i < |front| ensures front[i].market.conditionId != last.conditionId {
        assert BuiltFrom(r, focus, focusBook, markets[..n], front[i]);
        var k :| 0 <= k < n && markets[..n][k] == front[i].market;
        assert markets[k] == front[i].market;
      }
    }
  }

  /** The planner never lists a token twice, so merging by key loses nothing. */
  lemma SnapshotsHaveDistinctKeys(r: PlanRequest, focusBook: Orderbook)
    requires ConsistentMarkets(r)
    ensures DistinctKeys(CandidateSnapshots(ContextOf(r, r.market.value, focusBook)))
  {
    var focus := r.market.value;
    var cs := EntryCandidates(r, focus, focusBook);
    MarketCandidatesDistinct(r, focus, focusBook, MarketsOf(r, focus));
    assert DistinctCandidates(cs);
    var ss := CandidateSnapshots(ContextOf(r, focus, focusBook));
    forall i, j | 0 <= i < j < |ss| ensures ss[i].Key() != ss[j].Key() {
      assert ss[i].Key() == (cs[i].market.conditionId, cs[i].tokenId);
      assert ss[j].Key() == (cs[j].market.conditionId, cs[j].tokenId);
    }
  }

  // ------------------------------------------------------------- exposure of the plan

  lemma {:induction false} IndexedIsStored(positions: seq<Position>, key: Key)
    ensures IndexedPosition(positions, key).Some? ==>
      exists i :: 0 <= i < |positions| && positions[i] == IndexedPosition(positions, key).value
  {
    if positions != [] {
      var n := |positions| - 1;
      IndexedIsStored(positions[..n], key);
      if (positions[n].conditionId, positions[n].tokenId) == key {
        assert positions[n] == IndexedPosition(positions, key).value;
      } else if IndexedPosition(positions, key).Some? {
        var i :| 0 <= i < n && positions[..n][i] == IndexedPosition(positions, key).value;
        assert positions[i] == positions[..n][i];
      }
    }
  }

  lemma CandidateExposureNonNegative(r: PlanRequest, key: Key)
    requires ConsistentLedger(r)
    ensures Exposure(IndexedPosition(PositionsOf(r), key), OrdersFor(OpenOrdersOf(r), key)) >= 0.0
  {
    IndexedIsStored(PositionsOf(r), key);
    OrdersForFacts(OpenOrdersOf(r), key);
    ExposureNonNegative(IndexedPosition(PositionsOf(r), key), OrdersFor(OpenOrdersOf(r), key));
  }

  predicate NonNegativeExposures(ss: seq<MarketSnapshot>) {
    forall i :: 0 <= i < |ss| ==> ss[i].ExposureUsdc() >= 0.0
  }

  lemma {:induction false} BuyableExposureNonNegative(config: StrategyConfig, ss: seq<MarketSnapshot>)
    requires NoneLacksPrimary(config, ss) && NonNegativeExposures(ss)
    ensures TotalExposure(BuyableMarkets(config, ss)) >= 0.0
  {
    if ss != [] {
      var n := |ss| - 1;
      BuyableExposureNonNegative(config, ss[..n]);
      assert ss[n].ExposureUsdc() >= 0.0;
      var front := BuyableMarkets(config, ss[..n]);
      if StrategySkip(config, ss[n]).None? {
        assert BuyableMarkets(config, ss)[..|front|] == front;
        assert Buyable(config, ss[n]).ExposureUsdc() == ss[n].ExposureUsdc();
      } else {
        assert BuyableMarkets(config, ss) == front;
      }
    }
  }

  lemma SnapshotsExposureNonNegative(r: PlanRequest, focusBook: Orderbook)
    requires r.market.Some? && ConsistentLedger(r)
    ensures NonNegativeExposures(CandidateSnapshots(ContextOf(r, r.market.value, focusBook)))
  {
    var focus := r.market.value;
    var cs := EntryCandidates(r, focus, focusBook);
    EntryCandidatesFacts(r, focus, focusBook);
    var ss := CandidateSnapshots(ContextOf(r, focus, focusBook));
    forall i | 0 <= i < |ss| ensures ss[i].ExposureUsdc() >= 0.0 {
      var key := (cs[i].market.conditionId, cs[i].tokenId);
      assert cs[i] == CandidateFor(r, cs[i].market, cs[i].tokenId, cs[i].orderbook);
      CandidateExposureNonNegative(r, key);
      assert ss[i].position == IndexedPosition(PositionsOf(r), key);
      assert ss[i].openOrders == OrdersFor(OpenOrdersOf(r), key);
    }
  }

  // ------------------------------------------------------------------ the main result

  function RequestSnapshots(r: PlanRequest): seq<MarketSnapshot>
    requires r.market.Some? && r.orderbook.Some?
  {
    CandidateSnapshots(ContextOf(r, r.market.value, r.orderbook.value))
  }

  /** The one candidate the focus key stands for, and what the allocator was told about it. */
  predicate FocusSnapshot(r: PlanRequest, s: MarketSnapshot)
    requires r.market.Some? && r.orderbook.Some?
  {
    var key := (r.market.value.conditionId, r.tokenId);
    && s.market == r.market.value && s.tokenId == r.tokenId && s.orderbook == r.orderbook
    && s.position == IndexedPosition(PositionsOf(r), key) && s.openOrders == OrdersFor(OpenOrdersOf(r), key)
    && s.tradable == (s.market.tradingStatus == Eligible)
  }

  lemma FocusSnapshotOf(r: PlanRequest, k: nat)
    requires ConsistentMarkets(r) && r.orderbook.Some?
    requires k < |RequestSnapshots(r)| && RequestSnapshots(r)[k].Key() == (r.market.value.conditionId, r.tokenId)
    ensures FocusSnapshot(r, RequestSnapshots(r)[k])
  {
    var focus, book := r.market.value, r.orderbook.value;
    EntryCandidatesFacts(r, focus, book);
    var c := EntryCandidates(r, focus, book)[k];
    assert c == CandidateFor(r, c.market, c.tokenId, c.orderbook);
    assert RequestSnapshots(r)[k] == CandidateSnapshot(c);
  }

  function EntryLimits(r: PlanRequest): Limits {
    Limits(r.portfolioBudget, AvailableUsdc(r).GetOr(r.portfolioBudget), r.maxOrder, r.maxMarket, r.maxTotal)
  }

  /** Sizing a request is planning over its candidates and picking the focus. */
  lemma SizingOfRequest(config: StrategyConfig, r: PlanRequest)
    requires r.market.Some? && r.orderbook.Some? && r.orderbook.value.tokenId == r.tokenId && PositiveMarkets(r)
    ensures PositiveMinOrderSizes(RequestSnapshots(r))
    ensures SizingFor(config, ContextOf(r, r.market.value, r.orderbook.value))
         == if !NoneLacksPrimary(config, RequestSnapshots(r)) then MissingPrimaryOutcome
            else
              var plan := PlanOver(config, RequestSnapshots(r), EntryLimits(r));
              Sized(Sizing(plan, Pick(plan.allocations, r.market.value.conditionId, r.tokenId)))
  {
    var focus, book := r.market.value, r.orderbook.value;
    ContextIsPositive(r, focus, book);
    var context := ContextOf(r, focus, book);
    assert LimitsOf(context) == EntryLimits(r);
    assert Focus(context) == Some((focus.conditionId, r.tokenId));
  }

  /** The intent of a sizing that picked the focus, if there is one. */
  lemma IntentOfSizing(config: StrategyConfig, focus: Market, book: Orderbook, sizing: Sizing, p: EntryPlan)
    requires sizing.allocation == Pick(sizing.plan.allocations, focus.conditionId, book.tokenId)
    requires PlanFromSizing(config, focus, book, book.tokenId, sizing) == Planned(p) && p.ReadyToTrade()
    ensures p.market == Some(focus) && p.orderbook == Some(book) && p.plan == sizing.plan
    ensures sizing.allocation.Some? && sizing.allocation.value.buyBudget > 0.0
    ensures p.intent
         == Some(BuyIntent(focus.conditionId, book.tokenId, config.entryPriceMax, sizing.allocation.value.buyBudget))
  {
    PickFinds(sizing.plan.allocations, focus.conditionId, book.tokenId);
  }

  /** The planner answers with a plan that is ready to trade, for the token of the book. */
  predicate ReadyToReview(config: StrategyConfig, r: PlanRequest)
    requires PositiveMarkets(r)
  {
    && PlanEntry(config, r).Planned? && PlanEntry(config, r).plan.ReadyToTrade()
    && r.orderbook.Some? && r.orderbook.value.tokenId == r.tokenId
  }

  ghost predicate Ready(config: StrategyConfig, r: PlanRequest, p: EntryPlan) {
    PositiveMarkets(r) && ReadyToReview(config, r) && p == PlanEntry(config, r).plan
  }

  /** What a ready plan is made of. */
  lemma ReadyPlan(config: StrategyConfig, r: PlanRequest, p: EntryPlan)
    requires Ready(config, r, p)
    ensures r.market.Some? && !EntriesBlocked(r, r.market.value)
    ensures NoneLacksPrimary(config, RequestSnapshots(r)) && PositiveMinOrderSizes(RequestSnapshots(r))
    ensures p.market == r.market && p.orderbook == r.orderbook
    ensures p.plan == PlanOver(config, RequestSnapshots(r), EntryLimits(r))
    ensures
      var picked := Pick(p.plan.allocations, r.market.value.conditionId, r.tokenId);
      && picked.Some? && picked.value.buyBudget > 0.0
      && p.intent == Some(BuyIntent(r.market.value.conditionId, r.tokenId, config.entryPriceMax, picked.value.buyBudget))
  {
    SizingOfRequest(config, r);
    var focus, book := r.market.value, r.orderbook.value;
    IntentOfSizing(config, focus, book, SizingFor(config, ContextOf(r, focus, book)).sizing, p);
  }

  /** The focus of a ready plan, and the bounds its budget keeps. */
  lemma ReadyFocus(config: StrategyConfig, r: PlanRequest, p: EntryPlan) returns (s: MarketSnapshot)
    requires Ready(config, r, p) && ConsistentMarkets(r) && ConsistentLedger(r)
    ensures FocusSnapshot(r, s) && !LacksPrimary(config, s) && StrategySkip(config, s).None?
    ensures p.market == r.market && p.orderbook == r.orderbook
    ensures p.intent.Some? && p.intent.value.BuyIntent? && p.intent.value.amountUsdc > 0.0
    ensures p.intent.value
         == BuyIntent(r.market.value.conditionId, r.tokenId, config.entryPriceMax, p.intent.value.amountUsdc)
    ensures s.market.minOrderSize <= p.intent.value.amountUsdc
         <= HardCapacity(s.ExposureUsdc(), BuyableLiquidity(config, s), EntryLimits(r))
    ensures p.intent.value.amountUsdc <= p.plan.AllocatedBudget() <= r.maxTotal
  {
    ReadyPlan(config, r, p);
    SnapshotsHaveDistinctKeys(r, r.orderbook.value);
    var ss := RequestSnapshots(r);
    var k := PositiveAllocation(config, ss, EntryLimits(r), r.market.value.conditionId, r.tokenId);
    FocusSnapshotOf(r, k);
    s := ss[k];
    SnapshotsExposureNonNegative(r, r.orderbook.value);
    BuyableExposureNonNegative(config, ss);
  }

  /** What is left to refuse an entry for: its price, the tick, the two order counts, the account's money, a resting BUY. */
  function Residual(intent: OrderIntent, x: RiskInputs): Option<Gate> {
    if intent.price <= 0.0 then Some(PriceGate)
    else if !OnTick(intent, x) then Some(TickSizeGate)
    else if OperationRefusal(x).Some? then OperationRefusal(x)
    else if x.balanceUsdc.Some? && intent.NotionalUsdc() > x.balanceUsdc.value then Some(BalanceGate)
    else if x.allowanceUsdc.Some? && intent.NotionalUsdc() > x.allowanceUsdc.value then Some(AllowanceGate)
    else if HasPendingBuyFor(x.openOrders, intent) then Some(OpenBuyGate)
    else None
  }

  lemma StagesLeave(intent: OrderIntent, x: RiskInputs, f: Figures)
    requires f == FiguresOf(intent, x)
    requires IntentRefusal(x, f).None? && MarketRefusal(x).None? && f.notional >= EffectiveMinOrderSize(x)
    requires ExposureRefusal(x, f).None? && !x.geoblocked
    requires f.depth.Some? ==> f.notional <= f.depth.value
    ensures Refusal(intent, x) == Residual(intent, x)
  {}

  lemma FocusIsTradable(config: StrategyConfig, r: PlanRequest, s: MarketSnapshot, x: RiskInputs)
    requires r.market.Some? && r.orderbook.Some?
    requires FocusSnapshot(r, s) && !LacksPrimary(config, s) && StrategySkip(config, s).None?
    requires x.market == r.market && x.marketActive.None? && x.marketOpen.None? && x.clobEnabled.None?
    requires x.resolved.None? && x.cancelled.None? && x.archived.None?
    ensures MarketRefusal(x).None?
  {}

  /** The bounds a ready plan keeps are those the gate asks for. */
  lemma FocusIsInLimits(config: StrategyConfig, r: PlanRequest, p: EntryPlan, s: MarketSnapshot, x: RiskInputs)
    requires r.market.Some? && r.orderbook.Some? && FocusSnapshot(r, s) && p.intent.Some? && p.intent.value.BuyIntent?
    requires p.intent.value.amountUsdc > 0.0 && p.intent.value.price == config.entryPriceMax
    requires s.market.minOrderSize <= p.intent.value.amountUsdc
          <= HardCapacity(s.ExposureUsdc(), BuyableLiquidity(config, s), EntryLimits(r))
    requires p.intent.value.amountUsdc <= p.plan.AllocatedBudget() <= r.maxTotal
    requires x.market == r.market && x.orderbook == r.orderbook && x.allocationPlan == Some(p.plan)
    requires x.portfolioTotal.None? && x.minOrderSize.None? && x.classificationPassed == Some(true)
    requires x.maxOrder == Some(r.maxOrder) && x.maxMarket == Some(r.maxMarket) && x.maxTotal == Some(r.maxTotal)
    requires MarketExposure(p.intent.value, x) == s.ExposureUsdc()
    requires BuyableLiquidity(config, s) != 0.0 ==>
      BookDepth(r.orderbook.value, config.entryPriceMax) == BuyableLiquidity(config, s)
    ensures
      var intent := p.intent.value;
      var f := FiguresOf(intent, x);
      && IntentRefusal(x, f).None? && f.notional >= EffectiveMinOrderSize(x) && ExposureRefusal(x, f).None?
      && (f.depth.Some? ==> f.notional <= f.depth.value)
  {}

  /**
   * The allocator's output meets the gate's conditions: an entry planned from a consistent
   * registry and ledger is never refused for its size, its market, the minimum, any of the
   * three limits or the depth, whatever the worker's own settings. What the gate answers
   * is `Residual`, exactly.
   */
  lemma EntryIsRefusedOnlyFor(config: StrategyConfig, r: PlanRequest, settings: ReviewSettings)
    requires ConsistentMarkets(r) && ConsistentLedger(r)
    ensures ReadyToReview(config, r) ==>
      var p := PlanEntry(config, r).plan;
      Refusal(p.intent.value, ReviewInputs(r, p, settings)) == Residual(p.intent.value, ReviewInputs(r, p, settings))
  {
    if ReadyToReview(config, r) {
      var p := PlanEntry(config, r).plan;
      var s := ReadyFocus(config, r, p);
      var intent := p.intent.value;
      var x := ReviewInputs(r, p, settings);
      SameExposure(r, intent, x, s);
      SameDepth(r.orderbook.value, intent.price);
      FocusIsTradable(config, r, s, x);
      FocusIsInLimits(config, r, p, s, x);
      StagesLeave(intent, x, FiguresOf(intent, x));
    }
  }

  /** The balance refuses nothing when it is not known, or covers the money the planner was told is available. */
  lemma BalanceCoversAvailable(config: StrategyConfig, r: PlanRequest, settings: ReviewSettings)
    requires ConsistentMarkets(r) && ConsistentLedger(r)
    requires settings.balanceUsdc.Some? ==> EntryLimits(r).available <= settings.balanceUsdc.value
    ensures ReadyToReview(config, r) ==>
      var p := PlanEntry(config, r).plan;
      Refusal(p.intent.value, ReviewInputs(r, p, settings))
        in {None, Some(PriceGate), Some(TickSizeGate), Some(OpenOrdersGate), Some(RetryGate), Some(AllowanceGate),
            Some(OpenBuyGate)}
  {
    if ReadyToReview(config, r) {
      EntryIsRefusedOnlyFor(config, r, settings);
      var s := ReadyFocus(config, r, PlanEntry(config, r).plan);
    }
  }

  // --------------------------------------------------------------- the price is positive

  lemma {:induction false} DepthNeedsPrice(levels: seq<PriceLevel>, priceCap: real)
    requires priceCap <= 0.0
    requires forall i :: 0 <= i < |levels| ==> levels[i].size >= 0.0
    ensures LevelsNotional(levels, Some(priceCap)) <= 0.0
  {
    if levels != [] {
      var last := levels[|levels| - 1];
      DepthNeedsPrice(levels[..|levels| - 1], priceCap);
      if last.price <= priceCap {
        ProductNonNegative(-last.price, last.size);
      }
    }
  }

  predicate NoNegativeSizes(book: Orderbook) {
    && (forall i :: 0 <= i < |book.asks| ==> book.asks[i].size >= 0.0)
    && (book.bestAskSize.Some? ==> book.bestAskSize.value >= 0.0)
  }

  lemma BookNeedsPrice(book: Orderbook, priceCap: real)
    requires priceCap <= 0.0 && NoNegativeSizes(book)
    ensures AskDepth(Some(book), Some(priceCap)) <= 0.0
  {
    DepthNeedsPrice(book.asks, priceCap);
    if book.bestAsk.Some? && book.bestAskSize.Some? && book.bestAsk.value <= priceCap {
      ProductNonNegative(-book.bestAsk.value, book.bestAskSize.value);
    }
  }

  /** Without negative sizes in the book an entry also has a price: there is no depth at or below zero. */
  lemma EntryHasPrice(config: StrategyConfig, r: PlanRequest)
    requires ConsistentMarkets(r) && ConsistentLedger(r)
    requires r.orderbook.Some? ==> NoNegativeSizes(r.orderbook.value)
    ensures ReadyToReview(config, r) ==> PlanEntry(config, r).plan.intent.value.price > 0.0
  {
    if ReadyToReview(config, r) {
      var s := ReadyFocus(config, r, PlanEntry(config, r).plan);
      if config.entryPriceMax <= 0.0 {
        BookNeedsPrice(r.orderbook.value, config.entryPriceMax);
      }
    }
  }
}
