/** What sizing promises about the plan it returns, and what merging does to its total when keys repeat. */
module EntryLaws {
  import opened Wrappers
  import opened Domain
  import opened WaterFill
  import opened Allocation
  import opened EntrySizing

  // ------------------------------------------------------------ the allocator's plan

  lemma {:induction false} SumBuyAppend(a: seq<Allocation>, b: seq<Allocation>)
    ensures SumBuy(a + b) == SumBuy(a) + SumBuy(b)
  {
    if a == [] {
      assert a + b == b;
    } else {
      SumBuyAppend(a[1..], b);
      assert (a + b)[1..] == a[1..] + b;
    }
  }

  lemma {:induction false} SumBuyFinalized(ss: seq<MarketSnapshot>, cells: seq<Cell>, target: real)
    requires |ss| == |cells|
    ensures SumBuy(Finalized(ss, cells, target)) == SumBudget(cells)
  {
    if ss != [] {
      SumBuyFinalized(ss[1..], cells[1..], target);
      assert Finalized(ss, cells, target)[1..] == Finalized(ss[1..], cells[1..], target);
    }
  }

  lemma {:induction false} SkippedBuyNothing(ss: seq<MarketSnapshot>)
    ensures SumBuy(SkippedAllocations(ss)) == 0.0
  {
    if ss != [] {
      var last := ss[|ss| - 1];
      var tail := if SkipReasonOf(last).None? then [] else [NothingFor(last, SkipReasonOf(last).value)];
      SkippedBuyNothing(ss[..|ss| - 1]);
      SumBuyAppend(SkippedAllocations(ss[..|ss| - 1]), tail);
      assert SumBuy(tail) == 0.0 by {
        if tail != [] {
          assert tail[1..] == [];
        }
      }
    }
  }

  lemma CellsAreFresh(ss: seq<MarketSnapshot>, limits: Limits)
    ensures Fresh(CellsOf(ss, limits)) && CutToDepth(CellsOf(ss, limits))
  {
    forall i | 0 <= i < |ss|
      ensures CellsOf(ss, limits)[i].cap <= CellsOf(ss, limits)[i].liquidity || CellsOf(ss, limits)[i].cap == 0.0
    {
      var cap := HardCapacity(ss[i].ExposureUsdc(), LiquidityOf(ss[i]), limits);
      assert CellsOf(ss, limits)[i].cap == cap;
    }
  }

  /**
   * The money of a plan. It never exceeds what may be spent: the budget, the money at
   * hand, and what the total limit leaves beside the exposure of the markets looked at.
   */
  lemma PlanNeverOverspends(ss: seq<MarketSnapshot>, limits: Limits)
    requires PositiveMinOrders(ss)
    ensures
      var plan := PlanFor(ss, limits);
      && plan.AllocatedBudget() <= InitialPool(limits, TotalExposure(ss))
      && (plan.AllocatedBudget() > 0.0 ==>
        && plan.AllocatedBudget() <= limits.portfolioBudget
        && plan.AllocatedBudget() <= limits.available
        && TotalExposure(ss) + plan.AllocatedBudget() <= limits.maxTotal)
  {
    var eligible := EligibleMarkets(ss);
    SkippedBuyNothing(ss);
    if eligible != [] {
      EligibleArePositive(ss, limits);
      var cells := CellsOf(eligible, limits);
      var target := EqualWeightBudget(limits.portfolioBudget, |eligible|);
      var pool := InitialPool(limits, TotalExposure(ss));
      var o := Distribute(cells, pool, target);
      CellsAreFresh(eligible, limits);
      DistributeLaws(cells, pool, target);
      SumBuyFinalized(eligible, o.cells, target);
      SumBuyAppend(SkippedAllocations(ss), Finalized(eligible, o.cells, target));
    }
  }

  predicate NeverBlamed(allocations: seq<Allocation>, why: Release) {
    forall i :: 0 <= i < |allocations| ==> allocations[i].reason != Released(why)
  }

  lemma {:induction false} SkippedAreNotReleased(ss: seq<MarketSnapshot>, why: Release)
    ensures NeverBlamed(SkippedAllocations(ss), why)
  {
    if ss != [] {
      SkippedAreNotReleased(ss[..|ss| - 1], why);
    }
  }

  /** No allocation of any plan is released for want of depth: the reason is never reported. */
  lemma PlanNeverBlamesDepth(ss: seq<MarketSnapshot>, limits: Limits)
    requires PositiveMinOrders(ss)
    ensures NeverBlamed(PlanFor(ss, limits).allocations, DepthInsufficient)
  {
    var eligible := EligibleMarkets(ss);
    var skipped := SkippedAllocations(ss);
    SkippedAreNotReleased(ss, DepthInsufficient);
    if eligible != [] {
      EligibleArePositive(ss, limits);
      CellsAreFresh(eligible, limits);
      var target := EqualWeightBudget(limits.portfolioBudget, |eligible|);
      var o := Distribute(CellsOf(eligible, limits), InitialPool(limits, TotalExposure(ss)), target);
      DepthIsNeverBlamed(CellsOf(eligible, limits), InitialPool(limits, TotalExposure(ss)), target);
      var given := Finalized(eligible, o.cells, target);
      forall i | 0 <= i < |given| ensures given[i].reason != Released(DepthInsufficient) {
        assert o.cells[i].release != DepthInsufficient;
      }
      assert PlanFor(ss, limits).allocations == skipped + given;
    }
  }

  // ---------------------------------------------------------- which markets receive money

  /** What the allocator asks of a market before it may receive anything. */
  predicate MayReceive(s: MarketSnapshot) {
    && s.tradable && s.riskAllowed
    && s.marketActive && s.marketOpen && s.clobEnabled
    && !s.resolved && !s.cancelled && !s.archived
  }

  /** A skip names something that is so, and nothing is skipped that may receive. */
  lemma SkippedExactlyWhen(s: MarketSnapshot)
    ensures SkipReasonOf(s).None? <==> MayReceive(s)
    ensures SkipReasonOf(s) == Some(MarketNotTradable) ==> !s.tradable
    ensures SkipReasonOf(s) == Some(MarketNotActive) ==> !s.marketActive
    ensures SkipReasonOf(s) == Some(MarketNotOpen) ==> !s.marketOpen
    ensures SkipReasonOf(s) == Some(ClobDisabled) ==> !s.clobEnabled
    ensures SkipReasonOf(s) == Some(MarketResolved) ==> s.resolved
    ensures SkipReasonOf(s) == Some(MarketCancelled) ==> s.cancelled
    ensures SkipReasonOf(s) == Some(MarketArchived) ==> s.archived
    ensures SkipReasonOf(s) == Some(RiskLimitReached) ==> !s.riskAllowed
  {}

  lemma {:induction false} EligibleAreListed(ss: seq<MarketSnapshot>)
    ensures forall s :: s in EligibleMarkets(ss) ==> s in ss && MayReceive(s)
  {
    if ss != [] {
      EligibleAreListed(ss[..|ss| - 1]);
      SkippedExactlyWhen(ss[|ss| - 1]);
    }
  }

  lemma {:induction false} SkippedReceiveNothing(ss: seq<MarketSnapshot>)
    ensures forall a :: a in SkippedAllocations(ss) ==> a.buyBudget == 0.0
  {
    if ss != [] {
      SkippedReceiveNothing(ss[..|ss| - 1]);
    }
  }

  /** Whatever the markets and the limits, money goes to none but these. */
  lemma FundedMarketsMayReceive(ss: seq<MarketSnapshot>, limits: Limits, a: Allocation)
    requires PositiveMinOrders(ss) && a in PlanFor(ss, limits).allocations && a.buyBudget != 0.0
    ensures exists s :: s in ss && s.Key() == (a.conditionId, a.tokenId) && MayReceive(s)
  {
    var eligible := EligibleMarkets(ss);
    SkippedReceiveNothing(ss);
    EligibleAreListed(ss);
    if eligible != [] {
      EligibleArePositive(ss, limits);
      var target := EqualWeightBudget(limits.portfolioBudget, |eligible|);
      var o := Distribute(CellsOf(eligible, limits), InitialPool(limits, TotalExposure(ss)), target);
      var given := Finalized(eligible, o.cells, target);
      assert PlanFor(ss, limits).allocations == SkippedAllocations(ss) + given;
      var i :| 0 <= i < |given| && given[i] == a;
      assert eligible[i] in eligible && eligible[i].Key() == (a.conditionId, a.tokenId);
    }
  }

  predicate AllEligible(ss: seq<MarketSnapshot>) {
    forall i :: 0 <= i < |ss| ==> SkipReasonOf(ss[i]).None?
  }

  lemma {:induction false} AllEligibleStay(ss: seq<MarketSnapshot>)
    requires AllEligible(ss)
    ensures EligibleMarkets(ss) == ss && SkippedAllocations(ss) == []
  {
    if ss != [] {
      var n := |ss| - 1;
      var front, last := ss[..n], ss[n];
      assert ss == front + [last];
      assert SkipReasonOf(last).None?;
      forall i | 0 <= i < n ensures SkipReasonOf(front[i]).None? {
        assert front[i] == ss[i];
      }
      AllEligibleStay(front);
    }
  }

  /** An allocation of `s`: its own keys, and a budget of nothing or one its market and every limit allow. */
  predicate WithinLimits(a: Allocation, s: MarketSnapshot, limits: Limits) {
    && a.conditionId == s.market.conditionId && a.tokenId == s.tokenId
    && (a.buyBudget != 0.0 ==>
      s.market.minOrderSize <= a.buyBudget <= HardCapacity(s.ExposureUsdc(), LiquidityOf(s), limits))
  }

  lemma PositiveCells(ss: seq<MarketSnapshot>, limits: Limits)
    requires PositiveMinOrders(ss) && AllEligible(ss)
    ensures PositiveMins(CellsOf(ss, limits))
  {}

  /** The distribution behind a plan over eligible markets. */
  function Distributed(ss: seq<MarketSnapshot>, limits: Limits): (o: Outcome)
    requires PositiveMinOrders(ss) && AllEligible(ss)
    ensures |o.cells| == |ss|
  {
    PositiveCells(ss, limits);
    Distribute(CellsOf(ss, limits), InitialPool(limits, TotalExposure(ss)), EqualWeightBudget(limits.portfolioBudget, |ss|))
  }

  lemma PlanIsDistributed(ss: seq<MarketSnapshot>, limits: Limits)
    requires PositiveMinOrders(ss) && AllEligible(ss) && ss != []
    ensures PlanFor(ss, limits).allocations
         == Finalized(ss, Distributed(ss, limits).cells, EqualWeightBudget(limits.portfolioBudget, |ss|))
  {
    AllEligibleStay(ss);
    var target := EqualWeightBudget(limits.portfolioBudget, |ss|);
    assert [] + Finalized(ss, Distributed(ss, limits).cells, target) == Finalized(ss, Distributed(ss, limits).cells, target);
  }

  lemma DistributedFits(ss: seq<MarketSnapshot>, limits: Limits)
    requires PositiveMinOrders(ss) && AllEligible(ss)
    ensures AllFit(Distributed(ss, limits).cells) && SameLimits(CellsOf(ss, limits), Distributed(ss, limits).cells)
  {
    var cells := CellsOf(ss, limits);
    var target := EqualWeightBudget(limits.portfolioBudget, |ss|);
    var pool := InitialPool(limits, TotalExposure(ss));
    PositiveCells(ss, limits);
    CellsAreFresh(ss, limits);
    DistributeLaws(cells, pool, target);
    DistributeKeepsLimits(cells, pool, target);
  }

  lemma FittingIsWithin(s: MarketSnapshot, cell: Cell, limits: Limits, target: real)
    requires Fits(cell) && cell.cap == CellOf(s, limits).cap && cell.minSize == CellOf(s, limits).minSize
    ensures WithinLimits(AllocationOf(s, cell, target), s, limits)
  {}

  /** One allocation per eligible market, each within its limits. */
  lemma PlanStaysWithinLimits(ss: seq<MarketSnapshot>, limits: Limits)
    requires PositiveMinOrders(ss) && AllEligible(ss)
    ensures
      var plan := PlanFor(ss, limits);
      && |plan.allocations| == |ss|
      && forall i :: 0 <= i < |ss| ==> WithinLimits(plan.allocations[i], ss[i], limits)
  {
    if ss == [] {
      AllEligibleStay(ss);
    } else {
      PlanIsDistributed(ss, limits);
      DistributedFits(ss, limits);
      var cells, target := Distributed(ss, limits).cells, EqualWeightBudget(limits.portfolioBudget, |ss|);
      forall i | 0 <= i < |ss| ensures WithinLimits(Finalized(ss, cells, target)[i], ss[i], limits) {
        assert SameLimits(CellsOf(ss, limits), cells) && CellsOf(ss, limits)[i] == CellOf(ss[i], limits);
        FittingIsWithin(ss[i], cells[i], limits, target);
      }
    }
  }

  /**
   * Every eligible market has the same target, and the targets add up to the portfolio
   * budget; what a market does not receive of its target is released.
   */
  lemma TargetsAreEqualShares(ss: seq<MarketSnapshot>, limits: Limits)
    requires PositiveMinOrders(ss) && AllEligible(ss) && ss != []
    ensures
      var plan := PlanFor(ss, limits);
      var target := EqualWeightBudget(limits.portfolioBudget, |ss|);
      && |plan.allocations| == |ss| && Times(|ss|, target) == limits.portfolioBudget
      && forall i :: 0 <= i < |ss| ==>
        && plan.allocations[i].targetBudget == target
        && plan.allocations[i].releasedBudget
             == (if plan.allocations[i].buyBudget > target then 0.0 else target - plan.allocations[i].buyBudget)
  {
    var target := EqualWeightBudget(limits.portfolioBudget, |ss|);
    PlanIsDistributed(ss, limits);
    PositiveCells(ss, limits);
    CellsAreFresh(ss, limits);
    DistributeTargets(CellsOf(ss, limits), InitialPool(limits, TotalExposure(ss)), target);
    var cells := Distributed(ss, limits).cells;
    forall i | 0 <= i < |ss|
      ensures PlanFor(ss, limits).allocations[i] == AllocationOf(ss[i], cells[i], target)
      ensures cells[i].target == 0.0 || cells[i].target == target
    {}
  }

  // --------------------------------------------------------------- the merged plan

  predicate DistinctKeys(ss: seq<MarketSnapshot>) {
    forall i, j :: 0 <= i < j < |ss| ==> ss[i].Key() != ss[j].Key()
  }

  lemma {:induction false} BuyableAreEligible(config: StrategyConfig, ss: seq<MarketSnapshot>)
    requires NoneLacksPrimary(config, ss)
    ensures AllEligible(BuyableMarkets(config, ss))
  {
    if ss != [] {
      BuyableAreEligible(config, ss[..|ss| - 1]);
    }
  }

  predicate KeysOf(allocations: seq<Allocation>, ss: seq<MarketSnapshot>) {
    |allocations| == |ss| &&
    forall i :: 0 <= i < |ss| ==> (allocations[i].conditionId, allocations[i].tokenId) == ss[i].Key()
  }

  lemma {:induction false} AbsentIsNotSkipped(config: StrategyConfig, ss: seq<MarketSnapshot>, key: Key)
    requires NoneLacksPrimary(config, ss) && forall i :: 0 <= i < |ss| ==> ss[i].Key() != key
    ensures key !in SkippedByKey(config, ss)
  {
    if ss != [] {
      var n := |ss| - 1;
      forall i | 0 <= i < n ensures ss[..n][i].Key() != key {
        assert ss[..n][i] == ss[i];
      }
      AbsentIsNotSkipped(config, ss[..n], key);
      assert ss[n].Key() != key;
    }
  }

  /** The order of the merge depends on the candidates' own keys only. */
  lemma {:induction false} OrderIgnoresOthers(ss: seq<MarketSnapshot>, a: map<Key, Allocation>, b: map<Key, Allocation>)
    requires forall i :: 0 <= i < |ss| ==>
      (ss[i].Key() in a <==> ss[i].Key() in b) && (ss[i].Key() in a ==> a[ss[i].Key()] == b[ss[i].Key()])
    ensures InCandidateOrder(ss, a) == InCandidateOrder(ss, b)
  {
    if ss != [] {
      OrderIgnoresOthers(ss[..|ss| - 1], a, b);
    }
  }

  /** The allocation `a` that the merged plan holds for candidate `s`. */
  predicate OwnAllocation(config: StrategyConfig, s: MarketSnapshot, limits: Limits, a: Allocation)
    requires !LacksPrimary(config, s)
  {
    if StrategySkip(config, s).None? then WithinLimits(a, Buyable(config, s), limits) else a.buyBudget == 0.0
  }

  predicate EachOwn(config: StrategyConfig, ss: seq<MarketSnapshot>, limits: Limits, allocations: seq<Allocation>)
    requires NoneLacksPrimary(config, ss)
  {
    |allocations| == |ss| &&
    forall k :: 0 <= k < |ss| ==> OwnAllocation(config, ss[k], limits, allocations[k])
  }

  predicate AllWithin(allocations: seq<Allocation>, ss: seq<MarketSnapshot>, limits: Limits) {
    |allocations| == |ss| && forall i :: 0 <= i < |ss| ==> WithinLimits(allocations[i], ss[i], limits)
  }

  function Table(config: StrategyConfig, ss: seq<MarketSnapshot>, allocations: seq<Allocation>): map<Key, Allocation>
    requires NoneLacksPrimary(config, ss)
  {
    ByKey(allocations) + SkippedByKey(config, ss)
  }

  lemma MergeLast(config: StrategyConfig, ss: seq<MarketSnapshot>, before: map<Key, Allocation>, after: map<Key, Allocation>,
                  own: Allocation)
    requires ss != [] && DistinctKeys(ss)
    requires after == before[ss[|ss| - 1].Key() := own]
    ensures InCandidateOrder(ss, after) == InCandidateOrder(ss[..|ss| - 1], before) + [own]
  {
    OrderIgnoresOthers(ss[..|ss| - 1], before, after);
  }

  /** No candidate that can be bought shares its key with another candidate. */
  predicate BuyableKeysAreOwn(config: StrategyConfig, ss: seq<MarketSnapshot>)
    requires NoneLacksPrimary(config, ss)
  {
    forall i, j :: 0 <= i < |ss| && 0 <= j < |ss| && i != j && StrategySkip(config, ss[i]).None? ==>
      ss[i].Key() != ss[j].Key()
  }

  lemma OwnKeysOfFront(config: StrategyConfig, ss: seq<MarketSnapshot>)
    requires ss != [] && NoneLacksPrimary(config, ss) && BuyableKeysAreOwn(config, ss)
    ensures BuyableKeysAreOwn(config, ss[..|ss| - 1])
    ensures StrategySkip(config, ss[|ss| - 1]).None? ==> ss[|ss| - 1].Key() !in SkippedByKey(config, ss[..|ss| - 1])
  {
    var n := |ss| - 1;
    var front, key := ss[..n], ss[n].Key();
    forall i, j | 0 <= i < n && 0 <= j < n && i != j && StrategySkip(config, front[i]).None?
      ensures front[i].Key() != front[j].Key()
    {
      assert front[i] == ss[i] && front[j] == ss[j];
    }
    if StrategySkip(config, ss[n]).None? {
      forall i | 0 <= i < n ensures front[i].Key() != key {
        assert front[i] == ss[i];
      }
      AbsentIsNotSkipped(config, front, key);
    }
  }

  function LastOwn(config: StrategyConfig, ss: seq<MarketSnapshot>, allocations: seq<Allocation>): Allocation
    requires ss != [] && NoneLacksPrimary(config, ss)
    requires StrategySkip(config, ss[|ss| - 1]).None? ==> allocations != []
  {
    var skip := StrategySkip(config, ss[|ss| - 1]);
    if skip.None? then allocations[|allocations| - 1] else NothingFor(ss[|ss| - 1], skip.value)
  }

  function WithoutLast(config: StrategyConfig, ss: seq<MarketSnapshot>, allocations: seq<Allocation>): seq<Allocation>
    requires ss != [] && NoneLacksPrimary(config, ss)
    requires StrategySkip(config, ss[|ss| - 1]).None? ==> allocations != []
  {
    if StrategySkip(config, ss[|ss| - 1]).None? then allocations[..|allocations| - 1] else allocations
  }

  lemma RestHasKeys(config: StrategyConfig, ss: seq<MarketSnapshot>, allocations: seq<Allocation>)
    requires ss != [] && NoneLacksPrimary(config, ss) && KeysOf(allocations, BuyableMarkets(config, ss))
    ensures StrategySkip(config, ss[|ss| - 1]).None? ==> allocations != []
    ensures KeysOf(WithoutLast(config, ss, allocations), BuyableMarkets(config, ss[..|ss| - 1]))
    ensures
      var own := LastOwn(config, ss, allocations);
      (own.conditionId, own.tokenId) == ss[|ss| - 1].Key()
  {
    var n := |ss| - 1;
    var front, last := ss[..n], ss[n];
    var bought := BuyableMarkets(config, front);
    if StrategySkip(config, last).None? {
      assert BuyableMarkets(config, ss) == bought + [Buyable(config, last)];
      var m := |allocations| - 1;
      forall i | 0 <= i < m ensures (allocations[..m][i].conditionId, allocations[..m][i].tokenId) == bought[i].Key() {
        assert BuyableMarkets(config, ss)[i] == bought[i];
      }
      assert BuyableMarkets(config, ss)[m].Key() == last.Key();
    } else {
      assert BuyableMarkets(config, ss) == bought;
    }
  }

  lemma PutUnder<K, V>(below: map<K, V>, above: map<K, V>, key: K, value: V)
    ensures below + above[key := value] == (below + above)[key := value]
    ensures key !in above ==> below[key := value] + above == (below + above)[key := value]
  {}

  /** The last candidate's own allocation is the last one entered into the table. */
  lemma TableLast(config: StrategyConfig, ss: seq<MarketSnapshot>, allocations: seq<Allocation>)
    requires ss != [] && NoneLacksPrimary(config, ss) && BuyableKeysAreOwn(config, ss)
    requires KeysOf(allocations, BuyableMarkets(config, ss))
    requires StrategySkip(config, ss[|ss| - 1]).None? ==> allocations != []
    ensures Table(config, ss, allocations)
         == Table(config, ss[..|ss| - 1], WithoutLast(config, ss, allocations))
              [ss[|ss| - 1].Key() := LastOwn(config, ss, allocations)]
  {
    var rest, own := WithoutLast(config, ss, allocations), LastOwn(config, ss, allocations);
    RestHasKeys(config, ss, allocations);
    OwnKeysOfFront(config, ss);
    PutUnder(ByKey(rest), SkippedByKey(config, ss[..|ss| - 1]), ss[|ss| - 1].Key(), own);
  }

  lemma MergeStep(config: StrategyConfig, ss: seq<MarketSnapshot>, allocations: seq<Allocation>)
    requires ss != [] && NoneLacksPrimary(config, ss) && DistinctKeys(ss)
    requires KeysOf(allocations, BuyableMarkets(config, ss))
    ensures StrategySkip(config, ss[|ss| - 1]).None? ==> allocations != []
    ensures
      var front := ss[..|ss| - 1];
      var rest := WithoutLast(config, ss, allocations);
      && KeysOf(rest, BuyableMarkets(config, front))
      && InCandidateOrder(ss, Table(config, ss, allocations))
         == InCandidateOrder(front, Table(config, front, rest)) + [LastOwn(config, ss, allocations)]
  {
    RestHasKeys(config, ss, allocations);
    TableLast(config, ss, allocations);
    MergeLast(config, ss, Table(config, ss[..|ss| - 1], WithoutLast(config, ss, allocations)),
              Table(config, ss, allocations), LastOwn(config, ss, allocations));
  }

  lemma SumBuyOne(a: Allocation)
    ensures SumBuy([a]) == a.buyBudget
  {
    assert [a][1..] == [];
  }

  lemma SumBuySnoc(front: seq<Allocation>, last: Allocation)
    ensures SumBuy(front + [last]) == SumBuy(front) + last.buyBudget
  {
    SumBuyAppend(front, [last]);
    SumBuyOne(last);
  }

  /** The budget a table of allocations holds under a key. */
  function BudgetUnder(table: map<Key, Allocation>, key: Key): real {
    if key in table then table[key].buyBudget else 0.0
  }

  /** What a table holds for the candidates beyond their own allocations, candidate by candidate. */
  function Surplus(config: StrategyConfig, ss: seq<MarketSnapshot>, allocations: seq<Allocation>,
                   table: map<Key, Allocation>): real
    requires NoneLacksPrimary(config, ss) && KeysOf(allocations, BuyableMarkets(config, ss))
  {
    if ss == [] then 0.0
    else
      RestHasKeys(config, ss, allocations);
      Surplus(config, ss[..|ss| - 1], WithoutLast(config, ss, allocations), table)
      + (BudgetUnder(table, ss[|ss| - 1].Key()) - LastOwn(config, ss, allocations).buyBudget)
  }

  lemma SumBuyWithoutLast(config: StrategyConfig, ss: seq<MarketSnapshot>, allocations: seq<Allocation>)
    requires ss != [] && NoneLacksPrimary(config, ss)
    requires StrategySkip(config, ss[|ss| - 1]).None? ==> allocations != []
    ensures SumBuy(allocations)
         == SumBuy(WithoutLast(config, ss, allocations)) + LastOwn(config, ss, allocations).buyBudget
  {
    if StrategySkip(config, ss[|ss| - 1]).None? {
      var m := |allocations| - 1;
      assert allocations == allocations[..m] + [allocations[m]];
      SumBuySnoc(allocations[..m], allocations[m]);
    }
  }

  lemma OrderStep(ss: seq<MarketSnapshot>, table: map<Key, Allocation>)
    requires ss != []
    ensures SumBuy(InCandidateOrder(ss, table))
         == SumBuy(InCandidateOrder(ss[..|ss| - 1], table)) + BudgetUnder(table, ss[|ss| - 1].Key())
  {
    var front := InCandidateOrder(ss[..|ss| - 1], table);
    var key := ss[|ss| - 1].Key();
    if key in table {
      SumBuySnoc(front, table[key]);
    } else {
      assert front + [] == front;
    }
  }

  /** Reading any table in candidate order changes the total by exactly the table's surplus. */
  lemma {:induction false} OrderedTotal(config: StrategyConfig, ss: seq<MarketSnapshot>, allocations: seq<Allocation>,
                                        table: map<Key, Allocation>)
    requires NoneLacksPrimary(config, ss) && KeysOf(allocations, BuyableMarkets(config, ss))
    ensures SumBuy(InCandidateOrder(ss, table)) == SumBuy(allocations) + Surplus(config, ss, allocations, table)
  {
    if ss != [] {
      RestHasKeys(config, ss, allocations);
      OrderedTotal(config, ss[..|ss| - 1], WithoutLast(config, ss, allocations), table);
      OrderStep(ss, table);
      SumBuyWithoutLast(config, ss, allocations);
    }
  }

  /** What merging does to the total, whatever keys repeat. */
  lemma MergedTotal(config: StrategyConfig, ss: seq<MarketSnapshot>, allocations: seq<Allocation>)
    requires NoneLacksPrimary(config, ss) && KeysOf(allocations, BuyableMarkets(config, ss))
    ensures
      var table := Table(config, ss, allocations);
      SumBuy(InCandidateOrder(ss, table)) == SumBuy(allocations) + Surplus(config, ss, allocations, table)
  {
    OrderedTotal(config, ss, allocations, Table(config, ss, allocations));
  }

  /** Reading the table of all candidates for one of them, before the last, is reading the table without the last. */
  lemma BudgetsOfFront(config: StrategyConfig, ss: seq<MarketSnapshot>, before: map<Key, Allocation>,
                       own: Allocation, k: nat)
    requires NoneLacksPrimary(config, ss) && BuyableKeysAreOwn(config, ss) && k < |ss| - 1
    requires own.buyBudget == 0.0 || StrategySkip(config, ss[|ss| - 1]).None?
    requires StrategySkip(config, ss[k]).Some? ==> BudgetUnder(before, ss[k].Key()) == 0.0
    ensures BudgetUnder(before[ss[|ss| - 1].Key() := own], ss[k].Key()) == BudgetUnder(before, ss[k].Key())
  {
    assert ss[k].Key() == ss[|ss| - 1].Key() ==> StrategySkip(config, ss[k]).Some?;
  }

  lemma {:induction false} SkippedHaveNothing(config: StrategyConfig, ss: seq<MarketSnapshot>, k: nat)
    requires NoneLacksPrimary(config, ss) && k < |ss| && StrategySkip(config, ss[k]).Some?
    ensures ss[k].Key() in SkippedByKey(config, ss) && SkippedByKey(config, ss)[ss[k].Key()].buyBudget == 0.0
  {
    if k < |ss| - 1 {
      assert ss[..|ss| - 1][k] == ss[k];
      SkippedHaveNothing(config, ss[..|ss| - 1], k);
    }
  }

  lemma {:induction false} NoSurplus(config: StrategyConfig, ss: seq<MarketSnapshot>, allocations: seq<Allocation>,
                                     table: map<Key, Allocation>)
    requires NoneLacksPrimary(config, ss) && BuyableKeysAreOwn(config, ss)
    requires KeysOf(allocations, BuyableMarkets(config, ss))
    requires forall k :: 0 <= k < |ss| ==>
      BudgetUnder(table, ss[k].Key()) == BudgetUnder(Table(config, ss, allocations), ss[k].Key())
    ensures Surplus(config, ss, allocations, table) == 0.0
  {
    if ss != [] {
      var n := |ss| - 1;
      var rest, own := WithoutLast(config, ss, allocations), LastOwn(config, ss, allocations);
      RestHasKeys(config, ss, allocations);
      TableLast(config, ss, allocations);
      OwnKeysOfFront(config, ss);
      var before := Table(config, ss[..n], rest);
      forall k | 0 <= k < n
        ensures BudgetUnder(table, ss[..n][k].Key()) == BudgetUnder(before, ss[..n][k].Key())
      {
        assert ss[..n][k] == ss[k];
        if StrategySkip(config, ss[k]).Some? {
          SkippedHaveNothing(config, ss[..n], k);
        }
        BudgetsOfFront(config, ss, before, own, k);
      }
      NoSurplus(config, ss[..n], rest, table);
      assert BudgetUnder(table, ss[n].Key()) == own.buyBudget;
    }
  }

  lemma MergeKeepsTotal(config: StrategyConfig, ss: seq<MarketSnapshot>, allocations: seq<Allocation>)
    requires NoneLacksPrimary(config, ss) && BuyableKeysAreOwn(config, ss)
    requires KeysOf(allocations, BuyableMarkets(config, ss))
    ensures SumBuy(InCandidateOrder(ss, Table(config, ss, allocations))) == SumBuy(allocations)
  {
    MergedTotal(config, ss, allocations);
    NoSurplus(config, ss, allocations, Table(config, ss, allocations));
  }

  lemma OwnSnoc(config: StrategyConfig, ss: seq<MarketSnapshot>, limits: Limits, front: seq<Allocation>, own: Allocation)
    requires ss != [] && NoneLacksPrimary(config, ss)
    requires EachOwn(config, ss[..|ss| - 1], limits, front) && OwnAllocation(config, ss[|ss| - 1], limits, own)
    ensures EachOwn(config, ss, limits, front + [own])
  {
    forall k | 0 <= k < |ss| ensures OwnAllocation(config, ss[k], limits, (front + [own])[k]) {
      if k < |ss| - 1 {
        assert ss[..|ss| - 1][k] == ss[k];
      }
    }
  }

  lemma RestIsWithin(config: StrategyConfig, ss: seq<MarketSnapshot>, limits: Limits, allocations: seq<Allocation>)
    requires ss != [] && NoneLacksPrimary(config, ss)
    requires AllWithin(allocations, BuyableMarkets(config, ss), limits)
    ensures StrategySkip(config, ss[|ss| - 1]).None? ==> allocations != []
    ensures AllWithin(WithoutLast(config, ss, allocations), BuyableMarkets(config, ss[..|ss| - 1]), limits)
    ensures OwnAllocation(config, ss[|ss| - 1], limits, LastOwn(config, ss, allocations))
  {
    var n := |ss| - 1;
    var all, bought := BuyableMarkets(config, ss), BuyableMarkets(config, ss[..n]);
    if StrategySkip(config, ss[n]).None? {
      assert all == bought + [Buyable(config, ss[n])];
      var m := |bought|;
      forall i | 0 <= i < m ensures WithinLimits(allocations[..m][i], bought[i], limits) {
        assert all[i] == bought[i];
      }
      assert WithinLimits(allocations[m], all[m], limits);
    } else {
      assert all == bought;
    }
  }

  lemma {:induction false} MergeKeepsOwn(config: StrategyConfig, ss: seq<MarketSnapshot>, limits: Limits,
                                         allocations: seq<Allocation>)
    requires NoneLacksPrimary(config, ss) && DistinctKeys(ss)
    requires AllWithin(allocations, BuyableMarkets(config, ss), limits)
    requires KeysOf(allocations, BuyableMarkets(config, ss))
    ensures EachOwn(config, ss, limits, InCandidateOrder(ss, Table(config, ss, allocations)))
  {
    if ss != [] {
      var front := ss[..|ss| - 1];
      var rest := WithoutLast(config, ss, allocations);
      MergeStep(config, ss, allocations);
      RestIsWithin(config, ss, limits, allocations);
      MergeKeepsOwn(config, front, limits, rest);
      OwnSnoc(config, ss, limits, InCandidateOrder(front, Table(config, front, rest)), LastOwn(config, ss, allocations));
    }
  }

  /**
   * Merging the skipped markets back in neither loses nor duplicates money: with distinct
   * keys the merged plan holds one allocation per candidate, its own, and its total is
   * still bounded by what may be spent.
   */
  lemma MergedPlan(config: StrategyConfig, ss: seq<MarketSnapshot>, limits: Limits)
    requires NoneLacksPrimary(config, ss) && PositiveMinOrderSizes(ss) && DistinctKeys(ss)
    ensures
      var plan := PlanOver(config, ss, limits);
      && EachOwn(config, ss, limits, plan.allocations)
      && plan.AllocatedBudget() <= InitialPool(limits, TotalExposure(BuyableMarkets(config, ss)))
  {
    var bm := BuyableMarkets(config, ss);
    BuyableArePositive(config, ss);
    BuyableAreEligible(config, ss);
    PlanStaysWithinLimits(bm, limits);
    PlanNeverOverspends(bm, limits);
    MergeKeepsTotal(config, ss, PlanFor(bm, limits).allocations);
    MergeKeepsOwn(config, ss, limits, PlanFor(bm, limits).allocations);
  }

  // ----------------------------------------------------------------------- repeated keys

  /** One unit for candidate `i` and nothing for the other candidates that can be bought. */
  function OneFor(config: StrategyConfig, ss: seq<MarketSnapshot>, i: int): seq<Allocation>
    requires NoneLacksPrimary(config, ss)
  {
    if ss == [] then []
    else
      var n := |ss| - 1;
      var last := ss[n];
      var budget := if n == i then 1.0 else 0.0;
      OneFor(config, ss[..n], i)
      + (if StrategySkip(config, last).None?
         then [Allocation(last.market.conditionId, last.tokenId, budget, budget, 0.0, 0.0, Unreduced)] else [])
  }

  lemma {:induction false} OneForHasKeys(config: StrategyConfig, ss: seq<MarketSnapshot>, i: int)
    requires NoneLacksPrimary(config, ss)
    ensures KeysOf(OneFor(config, ss, i), BuyableMarkets(config, ss))
  {
    if ss != [] {
      OneForHasKeys(config, ss[..|ss| - 1], i);
    }
  }

  lemma {:induction false} OneForIsOne(config: StrategyConfig, ss: seq<MarketSnapshot>, i: nat)
    requires NoneLacksPrimary(config, ss) && (i < |ss| ==> StrategySkip(config, ss[i]).None?)
    ensures SumBuy(OneFor(config, ss, i)) == if i < |ss| then 1.0 else 0.0
  {
    if ss != [] {
      var n := |ss| - 1;
      assert i < n ==> ss[..n][i] == ss[i];
      OneForIsOne(config, ss[..n], i);
      var before := OneFor(config, ss[..n], i);
      if StrategySkip(config, ss[n]).None? {
        SumBuySnoc(before, OneFor(config, ss, i)[|before|]);
        assert OneFor(config, ss, i) == before + [OneFor(config, ss, i)[|before|]];
      } else {
        assert OneFor(config, ss, i) == before;
      }
    }
  }

  /** The unit of candidate `i` is found under a key only when no later candidate brings the key. */
  lemma {:induction false} OneForFound(config: StrategyConfig, ss: seq<MarketSnapshot>, i: nat, j: nat, key: Key)
    requires NoneLacksPrimary(config, ss) && i < j < |ss|
    requires StrategySkip(config, ss[j]).None? && ss[j].Key() == ss[i].Key()
    ensures BudgetUnder(ByKey(OneFor(config, ss, i)), key) == 0.0
  {
    var n := |ss| - 1;
    var before := OneFor(config, ss[..n], i);
    assert i < n && ss[..n][i] == ss[i];
    if StrategySkip(config, ss[n]).None? {
      var last := OneFor(config, ss, i)[|before|];
      assert OneFor(config, ss, i) == before + [last];
      assert ByKey(before + [last]) == ByKey(before)[ss[n].Key() := last] by {
        assert (before + [last])[..|before|] == before;
      }
    } else {
      assert OneFor(config, ss, i) == before;
    }
    if j < n {
      assert ss[..n][j] == ss[j];
      OneForFound(config, ss[..n], i, j, key);
    } else if key != ss[n].Key() {
      OneForElsewhere(config, ss[..n], i, key);
    }
  }

  lemma {:induction false} OneForElsewhere(config: StrategyConfig, ss: seq<MarketSnapshot>, i: nat, key: Key)
    requires NoneLacksPrimary(config, ss) && (i < |ss| ==> ss[i].Key() != key)
    ensures BudgetUnder(ByKey(OneFor(config, ss, i)), key) == 0.0
  {
    if ss != [] {
      var n := |ss| - 1;
      var before := OneFor(config, ss[..n], i);
      assert i < n ==> ss[..n][i] == ss[i];
      OneForElsewhere(config, ss[..n], i, key);
      if StrategySkip(config, ss[n]).None? {
        var last := OneFor(config, ss, i)[|before|];
        assert OneFor(config, ss, i) == before + [last];
        assert (before + [last])[..|before|] == before;
      } else {
        assert OneFor(config, ss, i) == before;
      }
    }
  }

  lemma {:induction false} AllSkippedHaveNothing(config: StrategyConfig, ss: seq<MarketSnapshot>, key: Key)
    requires NoneLacksPrimary(config, ss)
    ensures BudgetUnder(SkippedByKey(config, ss), key) == 0.0
  {
    if ss != [] {
      AllSkippedHaveNothing(config, ss[..|ss| - 1], key);
    }
  }

  lemma {:induction false} NothingInOrder(ss: seq<MarketSnapshot>, table: map<Key, Allocation>)
    requires forall k :: 0 <= k < |ss| ==> BudgetUnder(table, ss[k].Key()) == 0.0
    ensures SumBuy(InCandidateOrder(ss, table)) == 0.0
  {
    if ss != [] {
      var n := |ss| - 1;
      forall k | 0 <= k < n ensures BudgetUnder(table, ss[..n][k].Key()) == 0.0 {
        assert ss[..n][k] == ss[k];
      }
      NothingInOrder(ss[..n], table);
      OrderStep(ss, table);
    }
  }

  /** A candidate that can be bought loses its unit when a later or a skipped candidate has its key. */
  lemma SharedKeyLosesUnit(config: StrategyConfig, ss: seq<MarketSnapshot>, i: nat, j: nat)
    requires NoneLacksPrimary(config, ss) && i < |ss| && j < |ss| && i != j
    requires StrategySkip(config, ss[i]).None? && ss[i].Key() == ss[j].Key()
    requires i < j || StrategySkip(config, ss[j]).Some?
    ensures SumBuy(OneFor(config, ss, i)) == 1.0
    ensures SumBuy(InCandidateOrder(ss, Table(config, ss, OneFor(config, ss, i)))) == 0.0
  {
    var table := Table(config, ss, OneFor(config, ss, i));
    OneForIsOne(config, ss, i);
    forall k | 0 <= k < |ss| ensures BudgetUnder(table, ss[k].Key()) == 0.0 {
      var key := ss[k].Key();
      AllSkippedHaveNothing(config, ss, key);
      if StrategySkip(config, ss[j]).None? {
        OneForFound(config, ss, i, j, key);
      } else if key == ss[i].Key() {
        SkippedHaveNothing(config, ss, j);
      } else {
        OneForElsewhere(config, ss, i, key);
      }
    }
    NothingInOrder(ss, table);
  }

  predicate KeepsTotal(config: StrategyConfig, ss: seq<MarketSnapshot>, allocations: seq<Allocation>)
    requires NoneLacksPrimary(config, ss)
  {
    SumBuy(InCandidateOrder(ss, Table(config, ss, allocations))) == SumBuy(allocations)
  }

  /**
   * Merging keeps the total of every plan exactly when no candidate that can be bought
   * shares its key with another candidate, bought or skipped.
   */
  lemma EveryTotalIsKeptExactlyWhen(config: StrategyConfig, ss: seq<MarketSnapshot>)
    requires NoneLacksPrimary(config, ss)
    ensures (forall allocations :: KeysOf(allocations, BuyableMarkets(config, ss)) ==> KeepsTotal(config, ss, allocations))
       <==> BuyableKeysAreOwn(config, ss)
  {
    if BuyableKeysAreOwn(config, ss) {
      forall allocations | KeysOf(allocations, BuyableMarkets(config, ss)) ensures KeepsTotal(config, ss, allocations) {
        MergeKeepsTotal(config, ss, allocations);
      }
    } else {
      var a, b :| 0 <= a < |ss| && 0 <= b < |ss| && a != b && StrategySkip(config, ss[a]).None? && ss[a].Key() == ss[b].Key();
      var keep := a < b || StrategySkip(config, ss[b]).Some?;
      var i, j := if keep then a else b, if keep then b else a;
      OneForHasKeys(config, ss, i);
      SharedKeyLosesUnit(config, ss, i, j);
      assert !KeepsTotal(config, ss, OneFor(config, ss, i));
    }
  }
}
