/**
 * What exposure and depth come to, in terms of the position, the orders and the levels alone:
 * the shares being sold count a second time at cost, and a level counts at price times size.
 */
module AmountLaws {
  import opened Wrappers
  import opened Domain
  import opened Allocation
  import opened EntryLaws

  // ------------------------------------------------------------------------- exposure

  lemma PartOf(cost: real, part: real, whole: real)
    requires whole > 0.0
    ensures (cost + cost * (part / whole)) * whole == cost * (whole + part)
  {
    assert (part / whole) * whole == part;
    assert cost * (part / whole) * whole == cost * ((part / whole) * whole);
  }

  /** While shares are being sold, the position ties up its cost and the cost share of what is being sold. */
  lemma SellingCountsTwice(p: Position)
    requires 0.0 < p.openSellShares <= p.shares
    ensures Exposure(Some(p), []) * p.shares == p.costUsdc * (p.shares + p.openSellShares)
  {
    PartOf(p.costUsdc, p.openSellShares, p.shares);
  }

  /** Selling more than is held counts as selling all of it. */
  lemma OversellingCountsTwice(p: Position)
    requires 0.0 < p.shares < p.openSellShares
    ensures Exposure(Some(p), []) == p.costUsdc + p.costUsdc
  {
    assert p.shares / p.shares == 1.0;
  }

  lemma OtherwiseCostCounts(p: Position)
    requires p.shares <= 0.0 || p.openSellShares <= 0.0
    ensures Exposure(Some(p), []) == p.costUsdc && Exposure(None, []) == 0.0
  {}

  /** A resting BUY order adds its amount, or else its notional, or else price times size; other orders add nothing. */
  lemma OrderAdds(position: Option<Position>, orders: seq<Order>, o: Order)
    ensures
      var added := Exposure(position, orders + [o]) - Exposure(position, orders);
      && (o.side == Sell || o.orderType == Fak ==> added == 0.0)
      && (o.side == Buy && o.orderType == Gtc ==>
        && (o.amountUsdc.Some? ==> added == o.amountUsdc.value)
        && (o.amountUsdc.None? && o.notionalUsdc.Some? ==> added == o.notionalUsdc.value)
        && (o.amountUsdc.None? && o.notionalUsdc.None? && o.sizeShares.Some? ==> added == o.price * o.sizeShares.value)
        && (o.amountUsdc.None? && o.notionalUsdc.None? && o.sizeShares.None? ==> added == 0.0))
  {
    assert (orders + [o])[..|orders|] == orders;
  }

  lemma ExposureSplits(position: Option<Position>, orders: seq<Order>)
    ensures Exposure(position, orders) == Exposure(position, []) + Exposure(None, orders)
  {}

  /**
   * The limit of one market, for a plan over eligible markets: what a market receives stays
   * within it beside what its position ties up, shares being sold counted twice, and its
   * resting BUY orders.
   */
  lemma WithinMarketLimit(ss: seq<MarketSnapshot>, limits: Limits, i: nat)
    requires PositiveMinOrders(ss) && AllEligible(ss) && i < |ss|
    ensures |PlanFor(ss, limits).allocations| == |ss|
    ensures
      var buy := PlanFor(ss, limits).allocations[i].buyBudget;
      buy != 0.0 ==> Exposure(ss[i].position, []) + Exposure(None, ss[i].openOrders) + buy <= limits.maxMarket
  {
    PlanStaysWithinLimits(ss, limits);
    assert WithinLimits(PlanFor(ss, limits).allocations[i], ss[i], limits);
    ExposureSplits(ss[i].position, ss[i].openOrders);
    assert ss[i].market.minOrderSize > 0.0;
  }

  // ---------------------------------------------------------------------------- depth

  /** A level adds price times size when it is within the cap. */
  lemma LevelAdds(book: Orderbook, level: PriceLevel, priceCap: Option<real>)
    requires book.asks != [] || book.bestAsk.None? || book.bestAskSize.None?
    ensures AskDepth(Some(book.(asks := book.asks + [level])), priceCap)
         == AskDepth(Some(book), priceCap)
            + (if priceCap.None? || level.price <= priceCap.value then level.price * level.size else 0.0)
  {
    assert (book.asks + [level])[..|book.asks|] == book.asks;
  }

  /** Without levels the best ask and its size stand in, within the cap; without them there is no depth. */
  lemma TopStandsIn(book: Orderbook, priceCap: Option<real>)
    requires book.asks == []
    ensures AskDepth(Some(book), priceCap)
         == if book.bestAsk.Some? && book.bestAskSize.Some? && (priceCap.None? || book.bestAsk.value <= priceCap.value)
            then book.bestAsk.value * book.bestAskSize.value else 0.0
    ensures AskDepth(None, priceCap) == 0.0
  {}

  lemma {:induction false} LevelsGrowWithCap(levels: seq<PriceLevel>, low: real, high: Option<real>)
    requires forall i :: 0 <= i < |levels| ==> levels[i].price >= 0.0 && levels[i].size >= 0.0
    requires high.Some? ==> low <= high.value
    ensures 0.0 <= LevelsNotional(levels, Some(low)) <= LevelsNotional(levels, high)
  {
    if levels != [] {
      var last := levels[|levels| - 1];
      LevelsGrowWithCap(levels[..|levels| - 1], low, high);
      ProductNonNegative(last.price, last.size);
    }
  }

  predicate NoNegativeLevels(book: Orderbook) {
    && (forall i :: 0 <= i < |book.asks| ==> book.asks[i].price >= 0.0 && book.asks[i].size >= 0.0)
    && (book.bestAsk.Some? ==> book.bestAsk.value >= 0.0) && (book.bestAskSize.Some? ==> book.bestAskSize.value >= 0.0)
  }

  /** A higher cap, or none, never shows less depth. */
  lemma DepthGrowsWithCap(book: Orderbook, low: real, high: Option<real>)
    requires NoNegativeLevels(book) && (high.Some? ==> low <= high.value)
    ensures 0.0 <= AskDepth(Some(book), Some(low)) <= AskDepth(Some(book), high)
  {
    LevelsGrowWithCap(book.asks, low, high);
    if book.bestAsk.Some? && book.bestAskSize.Some? {
      ProductNonNegative(book.bestAsk.value, book.bestAskSize.value);
    }
  }
}
