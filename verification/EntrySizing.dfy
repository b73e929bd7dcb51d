/**
 * From a book update to a BUY intent: the strategy's sizing around the allocator, and the
 * planner that gathers its inputs.
 */
module EntrySizing {
  import opened Wrappers
  import opened Domain
  import opened WaterFill
  import opened Allocation

  /** Strategy settings. `selects` is the text filter that defines the universe. */
  datatype StrategyConfig = StrategyConfig(
    entryPriceMax: real,
    minLiquidity: real,
    maxSpread: Option<real>,
    selects: Market -> bool)

  const PRIMARY_OUTCOME := "NO"

  datatype EntryCandidate = EntryCandidate(
    market: Market,
    tokenId: string,
    orderbook: Orderbook,
    position: Option<Position>,
    openOrders: seq<Order>)

  /** A budget figure of the context, and the metadata entry consulted when it is absent or zero. */
  datatype Figure = Figure(field: Option<real>, metadata: Option<real>)
  {
    function Resolve(): Option<real> {
      if field.Some? && field.value != 0.0 then field else metadata
    }
  }

  datatype SizingContext = SizingContext(
    market: Option<Market>,
    tokenId: Option<string>,
    orderbook: Option<Orderbook>,
    position: Option<Position>,
    openOrders: seq<Order>,
    candidates: seq<EntryCandidate>,
    portfolioBudget: Figure,
    available: Figure,
    maxOrder: Figure,
    maxMarket: Figure,
    maxTotal: Figure)

  datatype Sizing = Sizing(plan: AllocationPlan, allocation: Option<Allocation>)

  /** Sizing raises when a market of the universe has no primary outcome. */
  datatype SizingResult = Sized(sizing: Sizing) | MissingPrimaryOutcome

  function SnapshotOf(market: Market, tokenId: string, book: Orderbook, position: Option<Position>,
                      openOrders: seq<Order>): MarketSnapshot {
    var eligible := market.tradingStatus == Eligible;
    MarketSnapshot(market, tokenId, Some(book), position, openOrders,
                   eligible, true, eligible, eligible, true,
                   market.tradingStatus == Resolved, false, market.tradingStatus == Closed,
                   Some(AskDepth(Some(book), None)), book.Spread(), book.bestAsk)
  }

  function CandidateSnapshot(c: EntryCandidate): MarketSnapshot {
    SnapshotOf(c.market, c.tokenId, c.orderbook, c.position, c.openOrders)
  }

  function CandidateSnapshots(context: SizingContext): (r: seq<MarketSnapshot>)
    ensures context.candidates != [] ==> |r| == |context.candidates|
  {
    if context.candidates != [] then
      seq(|context.candidates|, i requires 0 <= i < |context.candidates| => CandidateSnapshot(context.candidates[i]))
    else if context.market.None? || context.orderbook.None? then []
    else
      [SnapshotOf(context.market.value, FirstText(context.tokenId, context.orderbook.value.tokenId),
                  context.orderbook.value, context.position, context.openOrders)]
  }

  /** Depth that can be bought without paying more than the strategy's entry price. */
  function BuyableLiquidity(config: StrategyConfig, s: MarketSnapshot): real {
    AskDepth(s.orderbook, Some(config.entryPriceMax))
  }

  predicate LacksPrimary(config: StrategyConfig, s: MarketSnapshot) {
    config.selects(s.market) && s.market.FindTokenId(PRIMARY_OUTCOME).None?
  }

  function StrategySkip(config: StrategyConfig, s: MarketSnapshot): Option<SkipReason>
    requires !LacksPrimary(config, s)
  {
    var bestAsk := if s.bestAsk.Some? then s.bestAsk else if s.orderbook.Some? then s.orderbook.value.bestAsk else None;
    var spread := if s.spread.Some? then s.spread else if s.orderbook.Some? then s.orderbook.value.Spread() else None;
    if !config.selects(s.market) then Some(MarketOutOfUniverse)
    else if s.market.FindTokenId(PRIMARY_OUTCOME).value != s.tokenId then Some(UnsupportedOutcome)
    else if SkipReasonOf(s).Some? then SkipReasonOf(s)
    else if bestAsk.None? then Some(MissingBestAsk)
    else if bestAsk.value > config.entryPriceMax then Some(PriceAboveEntryMax)
    else if config.maxSpread.Some? && spread.Some? && spread.value > config.maxSpread.value then Some(SpreadAboveMax)
    else if BuyableLiquidity(config, s) < config.minLiquidity then Some(LiquidityBelowMin)
    else None
  }

  predicate NoneLacksPrimary(config: StrategyConfig, ss: seq<MarketSnapshot>) {
    forall i :: 0 <= i < |ss| ==> !LacksPrimary(config, ss[i])
  }

  function Buyable(config: StrategyConfig, s: MarketSnapshot): MarketSnapshot {
    s.(liquidityUsdc := Some(BuyableLiquidity(config, s)))
  }

  /** The markets passed on to the allocator, with their depth cut at the entry price. */
  function BuyableMarkets(config: StrategyConfig, ss: seq<MarketSnapshot>): (r: seq<MarketSnapshot>)
    requires NoneLacksPrimary(config, ss)
    ensures |r| <= |ss|
  {
    if ss == [] then []
    else
      var last := ss[|ss| - 1];
      BuyableMarkets(config, ss[..|ss| - 1])
      + (if StrategySkip(config, last).None? then [Buyable(config, last)] else [])
  }

  function SkippedByKey(config: StrategyConfig, ss: seq<MarketSnapshot>): map<Key, Allocation>
    requires NoneLacksPrimary(config, ss)
  {
    if ss == [] then map[]
    else
      var last := ss[|ss| - 1];
      var rest := SkippedByKey(config, ss[..|ss| - 1]);
      var reason := StrategySkip(config, last);
      if reason.None? then rest else rest[last.Key() := NothingFor(last, reason.value)]
  }

  function ByKey(allocations: seq<Allocation>): map<Key, Allocation> {
    if allocations == [] then map[]
    else
      var last := allocations[|allocations| - 1];
      ByKey(allocations[..|allocations| - 1])[(last.conditionId, last.tokenId) := last]
  }

  /** One allocation per candidate market, in the order of the candidates. */
  function InCandidateOrder(ss: seq<MarketSnapshot>, byKey: map<Key, Allocation>): seq<Allocation> {
    if ss == [] then []
    else
      var last := ss[|ss| - 1];
      InCandidateOrder(ss[..|ss| - 1], byKey) + (if last.Key() in byKey then [byKey[last.Key()]] else [])
  }

  function Merged(ss: seq<MarketSnapshot>, eligiblePlan: AllocationPlan, skipped: map<Key, Allocation>,
                  budget: real): AllocationPlan {
    AllocationPlan(budget, InCandidateOrder(ss, ByKey(eligiblePlan.allocations) + skipped), eligiblePlan.reason)
  }

  function Pick(allocations: seq<Allocation>, conditionId: string, tokenId: string): Option<Allocation> {
    if allocations == [] then None
    else if allocations[0].conditionId == conditionId && allocations[0].tokenId == tokenId then Some(allocations[0])
    else Pick(allocations[1..], conditionId, tokenId)
  }

  function Nothing(budget: real, reason: PlanReason): SizingResult {
    Sized(Sizing(AllocationPlan(budget, [], reason), None))
  }

  /** The focus of a context: the market and token an allocation is wanted for. */
  function Focus(context: SizingContext): Option<Key> {
    var tokenId :=
      if context.tokenId.Some? && context.tokenId.value != "" then context.tokenId
      else if context.orderbook.Some? then Some(context.orderbook.value.tokenId)
      else None;
    if context.market.None? || tokenId.None? then None else Some((context.market.value.conditionId, tokenId.value))
  }

  function LimitsOf(context: SizingContext): Limits
    requires context.portfolioBudget.Resolve().Some?
    requires context.maxOrder.Resolve().Some? && context.maxMarket.Resolve().Some? && context.maxTotal.Resolve().Some?
  {
    var budget := context.portfolioBudget.Resolve().value;
    Limits(budget, context.available.Resolve().GetOr(budget), context.maxOrder.Resolve().value,
           context.maxMarket.Resolve().value, context.maxTotal.Resolve().value)
  }

  predicate PositiveMinOrderSizes(ss: seq<MarketSnapshot>) {
    forall i :: 0 <= i < |ss| ==> ss[i].market.minOrderSize > 0.0
  }

  lemma {:induction false} BuyableArePositive(config: StrategyConfig, ss: seq<MarketSnapshot>)
    requires NoneLacksPrimary(config, ss) && PositiveMinOrderSizes(ss)
    ensures PositiveMinOrderSizes(BuyableMarkets(config, ss))
  {
    if ss != [] {
      BuyableArePositive(config, ss[..|ss| - 1]);
    }
  }

  /** The plan over all candidates, once every figure is known. */
  function PlanOver(config: StrategyConfig, ss: seq<MarketSnapshot>, limits: Limits): AllocationPlan
    requires NoneLacksPrimary(config, ss) && PositiveMinOrderSizes(ss)
  {
    BuyableArePositive(config, ss);
    Merged(ss, PlanFor(BuyableMarkets(config, ss), limits), SkippedByKey(config, ss), limits.portfolioBudget)
  }

  function SizingFor(config: StrategyConfig, context: SizingContext): SizingResult
    requires PositiveMinOrderSizes(CandidateSnapshots(context))
  {
    var budget := context.portfolioBudget.Resolve();
    var ss := CandidateSnapshots(context);
    if budget.None? then Nothing(0.0, MissingPortfolioBudget)
    else if ss == [] then Nothing(budget.value, MissingMarketState)
    else if context.maxOrder.Resolve().None? then Nothing(budget.value, MissingMaxOrderUsdc)
    else if context.maxMarket.Resolve().None? then Nothing(budget.value, MissingMaxMarketUsdc)
    else if context.maxTotal.Resolve().None? then Nothing(budget.value, MissingMaxTotalUsdc)
    else if !NoneLacksPrimary(config, ss) then MissingPrimaryOutcome
    else
      var plan := PlanOver(config, ss, LimitsOf(context));
      var focus := Focus(context);
      Sized(Sizing(plan, if focus.None? then None else Pick(plan.allocations, focus.value.0, focus.value.1)))
  }

  // ------------------------------------------------------------------ the methods

  lemma SplitSnoc(config: StrategyConfig, front: seq<MarketSnapshot>, last: MarketSnapshot)
    requires NoneLacksPrimary(config, front) && !LacksPrimary(config, last)
    ensures NoneLacksPrimary(config, front + [last])
    ensures
      var skip := StrategySkip(config, last);
      if skip.None? then
        && BuyableMarkets(config, front + [last]) == BuyableMarkets(config, front) + [Buyable(config, last)]
        && SkippedByKey(config, front + [last]) == SkippedByKey(config, front)
      else
        && BuyableMarkets(config, front + [last]) == BuyableMarkets(config, front)
        && SkippedByKey(config, front + [last]) == SkippedByKey(config, front)[last.Key() := NothingFor(last, skip.value)]
  {
    assert (front + [last])[..|front|] == front;
  }

  /** Splits the candidates; stops at a market of the universe without a primary outcome. */
  method SplitCandidates(config: StrategyConfig, ss: seq<MarketSnapshot>)
      returns (ok: bool, buyable: seq<MarketSnapshot>, skipped: map<Key, Allocation>)
    ensures ok == NoneLacksPrimary(config, ss)
    ensures ok ==> buyable == BuyableMarkets(config, ss) && skipped == SkippedByKey(config, ss)
  {
    buyable, skipped := [], map[];
    for k := 0 to |ss|
      invariant NoneLacksPrimary(config, ss[..k])
      invariant buyable == BuyableMarkets(config, ss[..k]) && skipped == SkippedByKey(config, ss[..k])
    {
      assert ss[..k + 1] == ss[..k] + [ss[k]];
      if LacksPrimary(config, ss[k]) {
        assert ss[k] == ss[..k + 1][k];
        return false, [], map[];
      }
      SplitSnoc(config, ss[..k], ss[k]);
      var liquidity := AskDepthNotional(ss[k].orderbook, Some(config.entryPriceMax));
      var reason := StrategySkip(config, ss[k]);
      if reason.Some? {
        skipped := skipped[ss[k].Key() := NothingFor(ss[k], reason.value)];
        continue;
      }
      buyable := buyable + [ss[k].(liquidityUsdc := Some(liquidity))];
    }
    assert ss[..|ss|] == ss;
    ok := true;
  }

  method IndexByKey(allocations: seq<Allocation>) returns (index: map<Key, Allocation>)
    ensures index == ByKey(allocations)
  {
    index := map[];
    for k := 0 to |allocations|
      invariant index == ByKey(allocations[..k])
    {
      assert allocations[..k + 1][..k] == allocations[..k];
      index := index[(allocations[k].conditionId, allocations[k].tokenId) := allocations[k]];
    }
    assert allocations[..|allocations|] == allocations;
  }

  method MergeAllocationPlan(ss: seq<MarketSnapshot>, eligiblePlan: AllocationPlan, skipped: map<Key, Allocation>,
                             budget: real) returns (plan: AllocationPlan)
    ensures plan == Merged(ss, eligiblePlan, skipped, budget)
  {
    var byKey := IndexByKey(eligiblePlan.allocations);
    byKey := byKey + skipped;
    var ordered := [];
    for k := 0 to |ss|
      invariant ordered == InCandidateOrder(ss[..k], byKey)
    {
      assert ss[..k + 1][..k] == ss[..k];
      if ss[k].Key() in byKey {
        ordered := ordered + [byKey[ss[k].Key()]];
      }
    }
    assert ss[..|ss|] == ss;
    plan := AllocationPlan(budget, ordered, eligiblePlan.reason);
  }

  method PickAllocation(allocations: seq<Allocation>, conditionId: string, tokenId: string)
      returns (picked: Option<Allocation>)
    ensures picked == Pick(allocations, conditionId, tokenId)
  {
    for k := 0 to |allocations|
      invariant Pick(allocations, conditionId, tokenId) == Pick(allocations[k..], conditionId, tokenId)
    {
      if allocations[k].conditionId == conditionId && allocations[k].tokenId == tokenId {
        return Some(allocations[k]);
      }
    }
    return None;
  }

  method SizeEntry(config: StrategyConfig, context: SizingContext) returns (r: SizingResult)
    requires PositiveMinOrderSizes(CandidateSnapshots(context))
    ensures r == SizingFor(config, context)
  {
    var budget := context.portfolioBudget.Resolve();
    if budget.None? {
      return Nothing(0.0, MissingPortfolioBudget);
    }
    var ss := CandidateSnapshots(context);
    if ss == [] {
      return Nothing(budget.value, MissingMarketState);
    }
    if context.maxOrder.Resolve().None? {
      return Nothing(budget.value, MissingMaxOrderUsdc);
    }
    if context.maxMarket.Resolve().None? {
      return Nothing(budget.value, MissingMaxMarketUsdc);
    }
    if context.maxTotal.Resolve().None? {
      return Nothing(budget.value, MissingMaxTotalUsdc);
    }
    var limits := LimitsOf(context);
    var ok, buyable, skipped := SplitCandidates(config, ss);
    if !ok {
      return MissingPrimaryOutcome;
    }
    BuyableArePositive(config, ss);
    var eligiblePlan := EqualWeightPlan(buyable, limits);
    var plan := MergeAllocationPlan(ss, eligiblePlan, skipped, limits.portfolioBudget);
    var focus := Focus(context);
    if focus.None? {
      return Sized(Sizing(plan, None));
    }
    var allocation := PickAllocation(plan.allocations, focus.value.0, focus.value.1);
    return Sized(Sizing(plan, allocation));
  }
}
