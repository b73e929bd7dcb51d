/**
 * The total limit. It is kept beside the markets that can be bought, not beside all markets
 * looked at: when that is the same, and when it is not.
 */
module TotalLimit {
  import opened WaterFill
  import opened Allocation
  import opened EntrySizing
  import opened EntryLaws

  /** Exposure of the markets the strategy skips. */
  function SkippedExposure(config: StrategyConfig, ss: seq<MarketSnapshot>): real
    requires NoneLacksPrimary(config, ss)
  {
    if ss == [] then 0.0
    else
      var last := ss[|ss| - 1];
      SkippedExposure(config, ss[..|ss| - 1]) + (if StrategySkip(config, last).None? then 0.0 else last.ExposureUsdc())
  }

  lemma TotalExposureSnoc(front: seq<MarketSnapshot>, last: MarketSnapshot)
    ensures TotalExposure(front + [last]) == TotalExposure(front) + last.ExposureUsdc()
  {
    assert (front + [last])[..|front|] == front;
  }

  lemma {:induction false} ExposureSplits(config: StrategyConfig, ss: seq<MarketSnapshot>)
    requires NoneLacksPrimary(config, ss)
    ensures TotalExposure(ss) == TotalExposure(BuyableMarkets(config, ss)) + SkippedExposure(config, ss)
  {
    if ss != [] {
      var front, last := ss[..|ss| - 1], ss[|ss| - 1];
      ExposureSplits(config, front);
      if StrategySkip(config, last).None? {
        TotalExposureSnoc(BuyableMarkets(config, front), Buyable(config, last));
      } else {
        assert BuyableMarkets(config, ss) == BuyableMarkets(config, front);
      }
    }
  }

  /** The markets a plan is made over: all have a primary outcome where they need one, positive sizes and keys of their own. */
  predicate Plannable(config: StrategyConfig, ss: seq<MarketSnapshot>) {
    NoneLacksPrimary(config, ss) && PositiveMinOrderSizes(ss) && DistinctKeys(ss)
  }

  /** The plan stays within the total limit beside the exposure of all markets looked at. */
  predicate WithinTotal(config: StrategyConfig, ss: seq<MarketSnapshot>, limits: Limits)
    requires Plannable(config, ss)
  {
    TotalExposure(ss) + PlanOver(config, ss, limits).AllocatedBudget() <= limits.maxTotal
  }

  lemma PlanSpendsAsAllocated(config: StrategyConfig, ss: seq<MarketSnapshot>, limits: Limits)
    requires Plannable(config, ss)
    ensures PositiveMinOrderSizes(BuyableMarkets(config, ss)) && AllEligible(BuyableMarkets(config, ss))
    ensures PlanOver(config, ss, limits).AllocatedBudget() == PlanFor(BuyableMarkets(config, ss), limits).AllocatedBudget()
  {
    var bm := BuyableMarkets(config, ss);
    BuyableArePositive(config, ss);
    BuyableAreEligible(config, ss);
    PlanStaysWithinLimits(bm, limits);
    MergeKeepsTotal(config, ss, PlanFor(bm, limits).allocations);
  }

  /** What can be checked before planning: the limit has room for the whole pool beside all exposure. */
  lemma TotalIsKeptBeside(config: StrategyConfig, ss: seq<MarketSnapshot>, limits: Limits)
    requires Plannable(config, ss)
    requires TotalExposure(ss) + InitialPool(limits, TotalExposure(BuyableMarkets(config, ss))) <= limits.maxTotal
    ensures WithinTotal(config, ss, limits)
  {
    PlanSpendsAsAllocated(config, ss, limits);
    PlanNeverOverspends(BuyableMarkets(config, ss), limits);
  }

  // ------------------------------------------------------------------- where money can go

  /** A market that can be bought, with depth for an order. */
  predicate HasRoom(config: StrategyConfig, s: MarketSnapshot)
    requires !LacksPrimary(config, s)
  {
    StrategySkip(config, s).None? && s.market.minOrderSize <= BuyableLiquidity(config, s)
  }

  predicate SomeRoom(config: StrategyConfig, ss: seq<MarketSnapshot>)
    requires NoneLacksPrimary(config, ss)
  {
    exists i :: 0 <= i < |ss| && HasRoom(config, ss[i])
  }

  predicate Deep(b: MarketSnapshot) { b.market.minOrderSize <= LiquidityOf(b) }

  predicate SomeDeep(bm: seq<MarketSnapshot>) { exists i :: 0 <= i < |bm| && Deep(bm[i]) }

  lemma {:induction false} DepthIsRoom(config: StrategyConfig, ss: seq<MarketSnapshot>, i: nat)
    requires NoneLacksPrimary(config, ss) && i < |BuyableMarkets(config, ss)| && Deep(BuyableMarkets(config, ss)[i])
    ensures SomeRoom(config, ss)
  {
    var n := |ss| - 1;
    var front := BuyableMarkets(config, ss[..n]);
    if i < |front| {
      DepthIsRoom(config, ss[..n], i);
      var j :| 0 <= j < n && HasRoom(config, ss[..n][j]);
      assert HasRoom(config, ss[j]);
    } else {
      assert HasRoom(config, ss[n]);
    }
  }

  lemma {:induction false} RoomHasDepth(config: StrategyConfig, ss: seq<MarketSnapshot>, j: nat)
    requires NoneLacksPrimary(config, ss) && j < |ss| && HasRoom(config, ss[j])
    ensures SomeDeep(BuyableMarkets(config, ss))
  {
    var n := |ss| - 1;
    var front, bm := BuyableMarkets(config, ss[..n]), BuyableMarkets(config, ss);
    if j < n {
      RoomHasDepth(config, ss[..n], j);
      var i :| 0 <= i < |front| && Deep(front[i]);
      assert Deep(bm[i]);
    } else {
      assert Deep(bm[|front|]);
    }
  }

  lemma RoomIsDepth(config: StrategyConfig, ss: seq<MarketSnapshot>)
    requires NoneLacksPrimary(config, ss)
    ensures SomeDeep(BuyableMarkets(config, ss)) <==> SomeRoom(config, ss)
  {
    if i: nat :| i < |BuyableMarkets(config, ss)| && Deep(BuyableMarkets(config, ss)[i]) {
      DepthIsRoom(config, ss, i);
    }
    if j: nat :| j < |ss| && HasRoom(config, ss[j]) {
      RoomHasDepth(config, ss, j);
    }
  }

  lemma {:induction false} SomethingIsBought(allocations: seq<Allocation>)
    requires SumBuy(allocations) > 0.0
    ensures exists i :: 0 <= i < |allocations| && allocations[i].buyBudget > 0.0
  {
    if allocations[0].buyBudget <= 0.0 {
      SomethingIsBought(allocations[1..]);
      var i :| 0 <= i < |allocations[1..]| && allocations[1..][i].buyBudget > 0.0;
      assert allocations[i + 1].buyBudget > 0.0;
    }
  }

  /** Without depth anywhere nothing is bought. */
  lemma BuyingNeedsDepth(bm: seq<MarketSnapshot>, limits: Limits)
    requires PositiveMinOrderSizes(bm) && AllEligible(bm) && PlanFor(bm, limits).AllocatedBudget() > 0.0
    ensures SomeDeep(bm)
  {
    var allocations := PlanFor(bm, limits).allocations;
    PlanStaysWithinLimits(bm, limits);
    SomethingIsBought(allocations);
    var i :| 0 <= i < |allocations| && allocations[i].buyBudget > 0.0;
    assert WithinLimits(allocations[i], bm[i], limits);
    assert HardCapacity(bm[i].ExposureUsdc(), LiquidityOf(bm[i]), limits) > 0.0;
    assert Deep(bm[i]);
  }

  // ------------------------------------------------------------- limits that are exceeded

  lemma {:induction false} SmallestDeep(bm: seq<MarketSnapshot>) returns (k: nat)
    requires SomeDeep(bm)
    ensures k < |bm| && Deep(bm[k])
    ensures forall i :: 0 <= i < |bm| && Deep(bm[i]) ==> bm[k].market.minOrderSize <= bm[i].market.minOrderSize
  {
    var n := |bm| - 1;
    if SomeDeep(bm[..n]) {
      k := SmallestDeep(bm[..n]);
      if Deep(bm[n]) && bm[n].market.minOrderSize < bm[k].market.minOrderSize {
        k := n;
      }
    } else {
      k := n;
      forall i | 0 <= i < n ensures !Deep(bm[i]) {
        assert bm[..n][i] == bm[i];
      }
    }
  }

  lemma {:induction false} LargestExposure(bm: seq<MarketSnapshot>) returns (x: real)
    ensures forall i :: 0 <= i < |bm| ==> bm[i].ExposureUsdc() <= x
  {
    x := 0.0;
    if bm != [] {
      var n := |bm| - 1;
      var y := LargestExposure(bm[..n]);
      x := if y < bm[n].ExposureUsdc() then bm[n].ExposureUsdc() else y;
      forall i | 0 <= i < |bm| ensures bm[i].ExposureUsdc() <= x {
        assert i < n ==> bm[..n][i] == bm[i];
      }
    }
  }

  /** An order limit of the smallest order any market has depth for, and no other limit in the way. */
  predicate Tight(bm: seq<MarketSnapshot>, limits: Limits, size: real) {
    && limits.maxOrder == size && limits.available >= size
    && (forall i :: 0 <= i < |bm| ==> bm[i].ExposureUsdc() + size <= limits.maxMarket)
    && (forall i :: 0 <= i < |bm| && Deep(bm[i]) ==> size <= bm[i].market.minOrderSize)
  }

  /** Then exactly the markets with depth for that order can be served, and with that order only. */
  lemma TightCells(bm: seq<MarketSnapshot>, limits: Limits, size: real)
    requires PositiveMinOrderSizes(bm) && size > 0.0 && Tight(bm, limits, size)
    ensures Uniform(CellsOf(bm, limits), size)
    ensures forall i :: 0 <= i < |bm| && Deep(bm[i]) && bm[i].market.minOrderSize == size ==> CellsOf(bm, limits)[i].Active()
  {
    forall i | 0 <= i < |bm|
      ensures CellsOf(bm, limits)[i].Active() ==> CellsOf(bm, limits)[i].minSize == CellsOf(bm, limits)[i].Room() == size
      ensures Deep(bm[i]) && bm[i].market.minOrderSize == size ==> CellsOf(bm, limits)[i].Active()
    {
      TightCapacity(bm[i].ExposureUsdc(), LiquidityOf(bm[i]), limits, size);
    }
  }

  lemma TightCapacity(exposure: real, liquidity: real, limits: Limits, size: real)
    requires size > 0.0 && limits.maxOrder == size && limits.available >= size && exposure + size <= limits.maxMarket
    ensures HardCapacity(exposure, liquidity, limits) == if liquidity < 0.0 then 0.0 else Min(size, liquidity)
  {}

  lemma {:induction false} TimesGrows(k: nat, n: nat, x: real)
    requires k <= n && x >= 0.0
    ensures Times(k, x) <= Times(n, x)
  {
    if k < n {
      TimesGrows(k, n - 1, x);
    }
  }

  /** What is handed out by a plan is the pool, once the distribution leaves nothing of it. */
  lemma AllIsAllocated(bm: seq<MarketSnapshot>, limits: Limits)
    requires PositiveMinOrderSizes(bm) && AllEligible(bm) && bm != [] && Distributed(bm, limits).pool == 0.0
    ensures PlanFor(bm, limits).AllocatedBudget() == InitialPool(limits, TotalExposure(bm))
  {
    var cells, target := CellsOf(bm, limits), EqualWeightBudget(limits.portfolioBudget, |bm|);
    PlanIsDistributed(bm, limits);
    PositiveCells(bm, limits);
    CellsAreFresh(bm, limits);
    AllIsHandedOut(cells, InitialPool(limits, TotalExposure(bm)), target);
    SumBuyFinalized(bm, Distributed(bm, limits).cells, target);
  }

  lemma AllIsHandedOut(cells: seq<Cell>, pool: real, target: real)
    requires PositiveMins(cells) && Fresh(cells) && CutToDepth(cells) && Distribute(cells, pool, target).pool == 0.0
    ensures SumBudget(Distribute(cells, pool, target).cells) == pool
  {
    DistributeLaws(cells, pool, target);
  }

  /** With such limits and a budget of as many smallest orders as there are markets for, the budget is spent to the last. */
  lemma TightBudgetIsSpent(bm: seq<MarketSnapshot>, limits: Limits, size: real, k: nat)
    requires PositiveMinOrderSizes(bm) && AllEligible(bm) && Tight(bm, limits, size)
    requires k < |bm| && Deep(bm[k]) && bm[k].market.minOrderSize == size
    requires limits.portfolioBudget == Times(|Actives(CellsOf(bm, limits))|, size)
    requires limits.available >= limits.portfolioBudget && limits.maxTotal - TotalExposure(bm) >= limits.portfolioBudget
    ensures PlanFor(bm, limits).AllocatedBudget() == limits.portfolioBudget
  {
    var cells := CellsOf(bm, limits);
    TightCells(bm, limits, size);
    ActivesWithin(cells, k);
    PositiveCells(bm, limits);
    TimesMonotone(|Actives(cells)|, size);
    UniformPoolIsSpent(cells, size, EqualWeightBudget(limits.portfolioBudget, |bm|));
    AllIsAllocated(bm, limits);
  }

  lemma SomeOrders(bm: seq<MarketSnapshot>, limits: Limits, size: real, k: nat)
    requires PositiveMinOrderSizes(bm) && Tight(bm, limits, size)
    requires k < |bm| && Deep(bm[k]) && bm[k].market.minOrderSize == size
    ensures size <= Times(|Actives(CellsOf(bm, limits))|, size) <= Times(|bm|, size)
  {
    TightCells(bm, limits, size);
    ActivesWithin(CellsOf(bm, limits), k);
    TimesGrows(|Actives(CellsOf(bm, limits))|, |bm|, size);
    TimesGrows(1, |Actives(CellsOf(bm, limits))|, size);
    assert Times(1, size) == size;
  }

  /** Limits with `rest` or more left beside the buyable markets' exposure, and with less than the plan left beside both. */
  lemma SpentBeyond(bm: seq<MarketSnapshot>, rest: real) returns (limits: Limits)
    requires PositiveMinOrderSizes(bm) && AllEligible(bm) && SomeDeep(bm) && rest > 0.0
    ensures TotalExposure(bm) + rest <= limits.maxTotal < TotalExposure(bm) + rest + PlanFor(bm, limits).AllocatedBudget()
  {
    var k := SmallestDeep(bm);
    var x := LargestExposure(bm);
    var size := bm[k].market.minOrderSize;
    var wide := Limits(0.0, Times(|bm|, size), size, x + size, 0.0);
    WideIsTight(bm, x, size);
    SomeOrders(bm, wide, size, k);
    limits := LimitsFor(bm, wide, Times(|Actives(CellsOf(bm, wide))|, size), rest);
    SameCells(bm, wide, limits);
    TightBudgetIsSpent(bm, limits, size, k);
  }

  lemma WideIsTight(bm: seq<MarketSnapshot>, x: real, size: real)
    requires bm != [] && size > 0.0
    requires forall i :: 0 <= i < |bm| ==> bm[i].ExposureUsdc() <= x
    requires forall i :: 0 <= i < |bm| && Deep(bm[i]) ==> size <= bm[i].market.minOrderSize
    ensures Tight(bm, Limits(0.0, Times(|bm|, size), size, x + size, 0.0), size)
  {
    TimesGrows(1, |bm|, size);
    assert Times(1, size) == size;
  }

  /** Such limits with a budget, and a total limit that leaves the larger of the budget and `rest`. */
  function LimitsFor(bm: seq<MarketSnapshot>, limits: Limits, budget: real, rest: real): Limits {
    limits.(portfolioBudget := budget, maxTotal := TotalExposure(bm) + (if budget < rest then rest else budget))
  }

  lemma SameCells(bm: seq<MarketSnapshot>, a: Limits, b: Limits)
    requires a.available == b.available && a.maxOrder == b.maxOrder && a.maxMarket == b.maxMarket
    ensures CellsOf(bm, a) == CellsOf(bm, b)
  {}

  // ---------------------------------------------------------------------- the whole truth

  /** The total limit is kept beside all markets, under every set of limits it is not already exceeded under. */
  ghost predicate AlwaysWithinTotal(config: StrategyConfig, ss: seq<MarketSnapshot>)
    requires Plannable(config, ss)
  {
    forall limits: Limits :: TotalExposure(ss) <= limits.maxTotal ==> WithinTotal(config, ss, limits)
  }

  /**
   * The exposure of skipped markets is not counted, so the total limit is always kept exactly
   * when skipped markets hold nothing, or no market that can be bought has depth for an order.
   */
  lemma TotalIsAlwaysKeptExactlyWhen(config: StrategyConfig, ss: seq<MarketSnapshot>)
    requires Plannable(config, ss)
    ensures AlwaysWithinTotal(config, ss) <==> SkippedExposure(config, ss) <= 0.0 || !SomeRoom(config, ss)
  {
    var bm := BuyableMarkets(config, ss);
    ExposureSplits(config, ss);
    RoomIsDepth(config, ss);
    if SkippedExposure(config, ss) <= 0.0 || !SomeRoom(config, ss) {
      forall limits: Limits | TotalExposure(ss) <= limits.maxTotal ensures WithinTotal(config, ss, limits) {
        PlanSpendsAsAllocated(config, ss, limits);
        PlanNeverOverspends(bm, limits);
        if PlanFor(bm, limits).AllocatedBudget() > 0.0 {
          BuyingNeedsDepth(bm, limits);
        }
      }
    } else {
      PlanSpendsAsAllocated(config, ss, Limits(0.0, 0.0, 0.0, 0.0, 0.0));
      var limits := SpentBeyond(bm, SkippedExposure(config, ss));
      PlanSpendsAsAllocated(config, ss, limits);
      assert !WithinTotal(config, ss, limits);
    }
  }
}
