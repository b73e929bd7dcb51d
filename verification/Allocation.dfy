/**
 * The equal-weight allocator in its own form: candidate objects whose budgets the
 * rounds raise in place. `EqualWeightPlan` is proved to return `PlanFor`, and the
 * laws of `WaterFill` give what such a plan promises.
 */
module Allocation {
  import opened Wrappers
  import opened Domain
  import opened WaterFill

  datatype SkipReason =
    | MarketOutOfUniverse | UnsupportedOutcome | MarketNotTradable | MarketNotActive | MarketNotOpen
    | ClobDisabled | MarketResolved | MarketCancelled | MarketArchived | RiskLimitReached
    | MissingBestAsk | PriceAboveEntryMax | SpreadAboveMax | LiquidityBelowMin

  datatype AllocationReason = Unreduced | Released(why: Release) | Skipped(skip: SkipReason)

  datatype Allocation = Allocation(
    conditionId: string,
    tokenId: string,
    targetBudget: real,
    buyBudget: real,
    currentExposure: real,
    releasedBudget: real,
    reason: AllocationReason)

  datatype AllocationPlan = AllocationPlan(
    totalBudget: real,
    allocations: seq<Allocation>,
    reason: PlanReason)
  {
    /** The sum of all buy budgets. */
    function AllocatedBudget(): real { SumBuy(allocations) }
  }

  function SumBuy(allocations: seq<Allocation>): real {
    if allocations == [] then 0.0 else allocations[0].buyBudget + SumBuy(allocations[1..])
  }

  datatype MarketSnapshot = MarketSnapshot(
    market: Market,
    tokenId: string,
    orderbook: Option<Orderbook>,
    position: Option<Position>,
    openOrders: seq<Order>,
    tradable: bool,
    riskAllowed: bool,
    marketActive: bool,
    marketOpen: bool,
    clobEnabled: bool,
    resolved: bool,
    cancelled: bool,
    archived: bool,
    liquidityUsdc: Option<real>,
    spread: Option<real>,
    bestAsk: Option<real>)
  {
    function ExposureUsdc(): real { Exposure(position, openOrders) }

    function Key(): (string, string) { (market.conditionId, tokenId) }
  }

  datatype Limits = Limits(
    portfolioBudget: real,
    available: real,
    maxOrder: real,
    maxMarket: real,
    maxTotal: real)

  function SkipReasonOf(s: MarketSnapshot): Option<SkipReason> {
    if !s.tradable then Some(MarketNotTradable)
    else if !s.marketActive then Some(MarketNotActive)
    else if !s.marketOpen then Some(MarketNotOpen)
    else if !s.clobEnabled then Some(ClobDisabled)
    else if s.resolved then Some(MarketResolved)
    else if s.cancelled then Some(MarketCancelled)
    else if s.archived then Some(MarketArchived)
    else if !s.riskAllowed then Some(RiskLimitReached)
    else None
  }

  /** Ask depth of a whole book; the top of book stands in for a book without levels. */
  function AskDepth(orderbook: Option<Orderbook>, priceCap: Option<real>): real {
    if orderbook.None? then 0.0
    else
      var book := orderbook.value;
      if book.asks == [] && book.bestAsk.Some? && book.bestAskSize.Some? then
        if priceCap.None? || book.bestAsk.value <= priceCap.value
        then book.bestAsk.value * book.bestAskSize.value
        else 0.0
      else LevelsNotional(book.asks, priceCap)
  }

  method AskDepthNotional(orderbook: Option<Orderbook>, priceCap: Option<real>) returns (depth: real)
    ensures depth == AskDepth(orderbook, priceCap)
  {
    if orderbook.None? {
      return 0.0;
    }
    var book := orderbook.value;
    depth := 0.0;
    var levels := book.asks;
    if levels == [] && book.bestAsk.Some? && book.bestAskSize.Some? {
      if priceCap.None? || book.bestAsk.value <= priceCap.value {
        return book.bestAsk.value * book.bestAskSize.value;
      }
      return 0.0;
    }
    for k := 0 to |levels|
      invariant depth == LevelsNotional(levels[..k], priceCap)
    {
      assert levels[..k + 1][..k] == levels[..k];
      if priceCap.None? || levels[k].price <= priceCap.value {
        depth := depth + levels[k].Notional();
      }
    }
    assert levels[..|levels|] == levels;
  }

  function LiquidityOf(s: MarketSnapshot): real {
    if s.liquidityUsdc.Some? then s.liquidityUsdc.value else AskDepth(s.orderbook, None)
  }

  /** The most one market may receive: what is left of every limit, and never negative. */
  function HardCapacity(exposure: real, liquidity: real, limits: Limits): (cap: real)
    ensures cap >= 0.0
    ensures cap > 0.0 ==>
      && exposure + cap <= limits.maxMarket
      && cap <= limits.maxOrder && cap <= limits.available && cap <= liquidity
    ensures cap == 0.0 ==> exposure >= limits.maxMarket || limits.maxOrder <= 0.0 || limits.available <= 0.0 || liquidity <= 0.0
    ensures cap == 0.0 || exposure + cap == limits.maxMarket
         || cap == limits.maxOrder || cap == limits.available || cap == liquidity
  {
    var room := if limits.maxMarket - exposure < 0.0 then 0.0 else limits.maxMarket - exposure;
    var least := Min(Min(Min(room, limits.maxOrder), limits.available), liquidity);
    if least < 0.0 then 0.0 else least
  }

  function CellOf(s: MarketSnapshot, limits: Limits): Cell {
    Cell(HardCapacity(s.ExposureUsdc(), LiquidityOf(s), limits), s.market.minOrderSize, LiquidityOf(s),
         0.0, 0.0, NoRelease)
  }

  function TotalExposure(ss: seq<MarketSnapshot>): real {
    if ss == [] then 0.0 else TotalExposure(ss[..|ss| - 1]) + ss[|ss| - 1].ExposureUsdc()
  }

  function EligibleMarkets(ss: seq<MarketSnapshot>): (r: seq<MarketSnapshot>)
    ensures |r| <= |ss|
  {
    if ss == [] then []
    else if SkipReasonOf(ss[|ss| - 1]).None? then EligibleMarkets(ss[..|ss| - 1]) + [ss[|ss| - 1]]
    else EligibleMarkets(ss[..|ss| - 1])
  }

  function SkippedAllocations(ss: seq<MarketSnapshot>): seq<Allocation> {
    if ss == [] then []
    else
      var last := ss[|ss| - 1];
      var reason := SkipReasonOf(last);
      SkippedAllocations(ss[..|ss| - 1]) + (if reason.None? then [] else [NothingFor(last, reason.value)])
  }

  function NothingFor(s: MarketSnapshot, reason: SkipReason): Allocation {
    Allocation(s.market.conditionId, s.tokenId, 0.0, 0.0, s.ExposureUsdc(), 0.0, Skipped(reason))
  }

  function CellsOf(ss: seq<MarketSnapshot>, limits: Limits): (r: seq<Cell>)
    ensures |r| == |ss|
    ensures forall i :: 0 <= i < |ss| ==> r[i] == CellOf(ss[i], limits)
  {
    seq(|ss|, i requires 0 <= i < |ss| => CellOf(ss[i], limits))
  }

  /** What may be spent at all: the budget, the money at hand and what is left of the total limit. */
  function InitialPool(limits: Limits, totalExposure: real): (pool: real)
    ensures pool >= 0.0
    ensures pool > 0.0 ==>
      pool <= limits.portfolioBudget && pool <= limits.available && totalExposure + pool <= limits.maxTotal
    ensures pool == 0.0 ==> limits.portfolioBudget <= 0.0 || limits.available <= 0.0 || totalExposure >= limits.maxTotal
    ensures pool == 0.0 || pool == limits.portfolioBudget || pool == limits.available || totalExposure + pool == limits.maxTotal
  {
    var least := Min(Min(limits.portfolioBudget, limits.available), limits.maxTotal - totalExposure);
    if least < 0.0 then 0.0 else least
  }

  function EqualWeightBudget(budget: real, count: nat): real {
    if count == 0 then 0.0 else Share(budget, count)
  }

  function AllocationOf(s: MarketSnapshot, c: Cell, equalTarget: real): Allocation {
    var target := if c.target == 0.0 then equalTarget else c.target;
    Allocation(s.market.conditionId, s.tokenId, target, c.budget, s.ExposureUsdc(),
               if target - c.budget < 0.0 then 0.0 else target - c.budget,
               if c.release == NoRelease then Unreduced else Released(c.release))
  }

  function Finalized(ss: seq<MarketSnapshot>, cells: seq<Cell>, equalTarget: real): (r: seq<Allocation>)
    requires |ss| == |cells|
    ensures |r| == |ss|
    ensures forall i :: 0 <= i < |ss| ==> r[i] == AllocationOf(ss[i], cells[i], equalTarget)
  {
    seq(|ss|, i requires 0 <= i < |ss| => AllocationOf(ss[i], cells[i], equalTarget))
  }

  /** Every market that can be bought asks for orders of some positive size. */
  predicate PositiveMinOrders(ss: seq<MarketSnapshot>) {
    forall i :: 0 <= i < |ss| && SkipReasonOf(ss[i]).None? ==> ss[i].market.minOrderSize > 0.0
  }

  lemma {:induction false} EligibleArePositive(ss: seq<MarketSnapshot>, limits: Limits)
    requires PositiveMinOrders(ss)
    ensures PositiveMins(CellsOf(EligibleMarkets(ss), limits))
    ensures forall i :: 0 <= i < |EligibleMarkets(ss)| ==> SkipReasonOf(EligibleMarkets(ss)[i]).None?
  {
    if ss != [] {
      EligibleArePositive(ss[..|ss| - 1], limits);
      var shorter := EligibleMarkets(ss[..|ss| - 1]);
      forall i | 0 <= i < |EligibleMarkets(ss)|
        ensures EligibleMarkets(ss)[i].market.minOrderSize > 0.0 && SkipReasonOf(EligibleMarkets(ss)[i]).None?
      {
        if i < |shorter| {
          assert CellsOf(shorter, limits)[i].minSize > 0.0;
        }
      }
    }
  }

  /** What the allocator decides, as a function of its inputs. */
  function PlanFor(ss: seq<MarketSnapshot>, limits: Limits): AllocationPlan
    requires PositiveMinOrders(ss)
  {
    var eligible := EligibleMarkets(ss);
    if eligible == [] then
      AllocationPlan(limits.portfolioBudget, SkippedAllocations(ss), NoEligibleMarket)
    else
      EligibleArePositive(ss, limits);
      var target := EqualWeightBudget(limits.portfolioBudget, |eligible|);
      var o := Distribute(CellsOf(eligible, limits), InitialPool(limits, TotalExposure(ss)), target);
      AllocationPlan(limits.portfolioBudget,
                     SkippedAllocations(ss) + Finalized(eligible, o.cells, target),
                     o.reason)
  }

  // -------------------------------------------------------- the loop, in place

  class Candidate {
    const snapshot: MarketSnapshot
    const exposure: real
    const hardCapacity: real
    const liquidity: real
    const minOrderSize: real
    var targetBudget: real
    var buyBudget: real
    var releaseReason: Release

    constructor (snapshot: MarketSnapshot, exposure: real, hardCapacity: real, liquidity: real)
      ensures this.snapshot == snapshot && this.exposure == exposure
      ensures Value() == Cell(hardCapacity, snapshot.market.minOrderSize, liquidity, 0.0, 0.0, NoRelease)
    {
      this.snapshot := snapshot;
      this.exposure := exposure;
      this.hardCapacity := hardCapacity;
      this.liquidity := liquidity;
      this.minOrderSize := snapshot.market.minOrderSize;
      this.targetBudget := 0.0;
      this.buyBudget := 0.0;
      this.releaseReason := NoRelease;
    }

    function Value(): Cell
      reads this
    {
      Cell(hardCapacity, minOrderSize, liquidity, buyBudget, targetBudget, releaseReason)
    }

    /**
     * Offers the candidate an equal share: it takes what its room allows, unless that is
     * less than the smallest order its market accepts. A candidate that is offered a share
     * has room for such an order, so the code's first branch, which drops one that has
     * not, is never taken.
     */
    method Offer(share: real, target: real) returns (taken: real, stays: bool)
      requires Value().Active() && minOrderSize > 0.0 && share > 0.0
      modifies this
      ensures Value() == Serve(old(Value()), share, target)
      ensures taken == Grant(old(Value()), share)
      ensures stays == Value().Active()
    {
      var available := hardCapacity - buyBudget;
      var budget := share;
      var release := NoRelease;
      if budget > available {
        budget := available;
        release := CapacityReason(available, hardCapacity, liquidity);
      }
      if budget < minOrderSize {
        return 0.0, true;
      }
      buyBudget := buyBudget + budget;
      targetBudget := target;
      if budget < share {
        GiveUp(if release == NoRelease then ReallocatedElsewhere else release);
      }
      return budget, hardCapacity - buyBudget >= minOrderSize;
    }

    /** Keeps the first reason given. */
    method GiveUp(reason: Release)
      modifies this`releaseReason
      ensures Value() == old(Value()).WithRelease(reason)
    {
      releaseReason := if releaseReason == NoRelease then reason else releaseReason;
    }
  }

  predicate Distinct(cs: seq<Candidate>) {
    forall i, j :: 0 <= i < j < |cs| ==> cs[i] != cs[j]
  }

  function Values(cs: seq<Candidate>): (r: seq<Cell>)
    reads cs
    ensures |r| == |cs|
    ensures forall i :: 0 <= i < |cs| ==> r[i] == cs[i].Value()
  {
    seq(|cs|, i requires 0 <= i < |cs| reads cs => cs[i].Value())
  }

  /** The candidates whose cell is active, in order. */
  function ActiveOf(cs: seq<Candidate>, cells: seq<Cell>): (r: seq<Candidate>)
    requires |cs| == |cells|
    ensures |r| == |Actives(cells)|
  {
    if cs == [] then []
    else if cells[0].Active() then [cs[0]] + ActiveOf(cs[1..], cells[1..])
    else ActiveOf(cs[1..], cells[1..])
  }

  lemma {:induction false} ActiveOfFacts(cs: seq<Candidate>, cells: seq<Cell>)
    requires |cs| == |cells| && Distinct(cs)
    ensures Distinct(ActiveOf(cs, cells))
    ensures forall c :: c in ActiveOf(cs, cells) ==> c in cs
    ensures forall i :: 0 <= i < |cs| ==> (cs[i] in ActiveOf(cs, cells) <==> cells[i].Active())
  {
    if cs != [] {
      ActiveOfFacts(cs[1..], cells[1..]);
      var rest := ActiveOf(cs[1..], cells[1..]);
      forall c | c in rest ensures c in cs && c != cs[0] {
        var k :| 0 <= k < |cs[1..]| && cs[1..][k] == c;
        assert cs[k + 1] == c;
      }
      assert forall j :: 0 <= j < |rest| ==> rest[j] in rest;
      forall i | 0 <= i < |cs| ensures cs[i] in ActiveOf(cs, cells) <==> cells[i].Active() {
        if i > 0 {
          assert cs[i] == cs[1..][i - 1] && cells[i] == cells[1..][i - 1];
          assert cs[i] != cs[0];
        }
      }
    }
  }

  lemma {:induction false} ActiveOfValues(cs: seq<Candidate>)
    ensures Values(ActiveOf(cs, Values(cs))) == Actives(Values(cs))
  {
    if cs != [] {
      ActiveOfValues(cs[1..]);
      assert Values(cs)[1..] == Values(cs[1..]);
    }
  }

  lemma {:induction false} ActiveOfSnoc(cs: seq<Candidate>, cells: seq<Cell>, c: Candidate, cell: Cell)
    requires |cs| == |cells|
    ensures ActiveOf(cs + [c], cells + [cell]) == ActiveOf(cs, cells) + (if cell.Active() then [c] else [])
  {
    if cs != [] {
      ActiveOfSnoc(cs[1..], cells[1..], c, cell);
      assert (cs + [c])[1..] == cs[1..] + [c];
      assert (cells + [cell])[1..] == cells[1..] + [cell];
    }
  }

  lemma {:induction false} SumGrantSnoc(cells: seq<Cell>, c: Cell, share: real)
    ensures SumGrant(cells + [c], share) == SumGrant(cells, share) + Grant(c, share)
  {
    if cells != [] {
      SumGrantSnoc(cells[1..], c, share);
      assert (cells + [c])[1..] == cells[1..] + [c];
    } else {
      assert [c][1..] == [];
    }
  }

  lemma ActiveOfPrefix(cs: seq<Candidate>, cells: seq<Cell>, k: nat)
    requires k < |cs| == |cells|
    ensures ActiveOf(cs[..k + 1], cells[..k + 1])
         == ActiveOf(cs[..k], cells[..k]) + (if cells[k].Active() then [cs[k]] else [])
  {
    ActiveOfSnoc(cs[..k], cells[..k], cs[k], cells[k]);
    assert cs[..k + 1] == cs[..k] + [cs[k]];
    assert cells[..k + 1] == cells[..k] + [cells[k]];
  }

  lemma SumGrantPrefix(cells: seq<Cell>, k: nat, share: real)
    requires k < |cells|
    ensures SumGrant(cells[..k + 1], share) == SumGrant(cells[..k], share) + Grant(cells[k], share)
  {
    SumGrantSnoc(cells[..k], cells[k], share);
    assert cells[..k + 1] == cells[..k] + [cells[k]];
  }

  lemma {:induction false} GrantsOfActives(cells: seq<Cell>, share: real)
    ensures SumGrant(cells, share) == SumGrant(Actives(cells), share)
  {
    if cells != [] {
      GrantsOfActives(cells[1..], share);
      if cells[0].Active() {
        assert Actives(cells)[1..] == Actives(cells[1..]);
      }
    }
  }

  lemma RoundCons(c: Cell, rest: seq<Cell>, share: real, target: real)
    ensures Round([c] + rest, share, target) == [Serve(c, share, target)] + Round(rest, share, target)
  {}

  lemma ActiveOfCons(c: Candidate, cs: seq<Candidate>, cell: Cell, cells: seq<Cell>)
    requires |cs| == |cells|
    ensures ActiveOf([c] + cs, [cell] + cells) == (if cell.Active() then [c] else []) + ActiveOf(cs, cells)
  {
    assert ([c] + cs)[1..] == cs && ([cell] + cells)[1..] == cells;
  }

  lemma ActivesCons(cell: Cell, cells: seq<Cell>)
    ensures Actives([cell] + cells) == (if cell.Active() then [cell] else []) + Actives(cells)
  {
    assert ([cell] + cells)[1..] == cells;
  }

  lemma StillActive(cell: Cell, share: real, target: real)
    ensures Serve(cell, share, target).Active() && cell.minSize > 0.0 ==> cell.Active()
    ensures !cell.Active() ==> Serve(cell, share, target) == cell
  {}

  /** A round over the active candidates alone is a round over all of them. */
  lemma {:induction false} RoundOfActives(cs: seq<Candidate>, cells: seq<Cell>, share: real, target: real)
    requires |cs| == |cells|
    ensures ActiveOf(ActiveOf(cs, cells), Round(Actives(cells), share, target)) == ActiveOf(cs, Round(cells, share, target))
  {
    if cs != [] {
      var c, cell := cs[0], cells[0];
      assert cs == [c] + cs[1..] && cells == [cell] + cells[1..];
      RoundOfActives(cs[1..], cells[1..], share, target);
      RoundCons(cell, cells[1..], share, target);
      ActiveOfCons(c, cs[1..], cell, cells[1..]);
      ActivesCons(cell, cells[1..]);
      ActiveOfCons(c, cs[1..], Serve(cell, share, target), Round(cells[1..], share, target));
      StillActive(cell, share, target);
      if cell.Active() {
        RoundCons(cell, Actives(cells[1..]), share, target);
        ActiveOfCons(c, ActiveOf(cs[1..], cells[1..]), Serve(cell, share, target), Round(Actives(cells[1..]), share, target));
      } else {
        NothingBefore(Actives(cells[1..]), ActiveOf(cs[1..], cells[1..]), ActiveOf(cs[1..], Round(cells[1..], share, target)));
      }
    }
  }

  lemma NothingBefore(a: seq<Cell>, b: seq<Candidate>, c: seq<Candidate>)
    ensures [] + a == a && [] + b == b && [] + c == c
  {}

  /** The offer to one of distinct candidates leaves the others as they are. */
  method OfferAt(active: seq<Candidate>, k: nat, share: real, target: real, ghost before: seq<Cell>, ghost after: seq<Cell>)
      returns (taken: real, stays: bool)
    requires Distinct(active) && share > 0.0 && k < |active| && |before| == |after| == |active|
    requires after[k] == Serve(before[k], share, target) && before[k].Active() && active[k].minOrderSize > 0.0
    requires forall i :: k <= i < |active| ==> active[i].Value() == before[i]
    requires forall i :: 0 <= i < k ==> active[i].Value() == after[i]
    modifies active[k]
    ensures forall i :: k + 1 <= i < |active| ==> active[i].Value() == before[i]
    ensures forall i :: 0 <= i < k + 1 ==> active[i].Value() == after[i]
    ensures taken == Grant(before[k], share) && stays == after[k].Active()
  {
    taken, stays := active[k].Offer(share, target);
    forall i | 0 <= i < |active| && i != k ensures active[i].Value() == old(active[i].Value()) {
      assert active[i] != active[k];
    }
  }

  /** One pass over the active candidates. */
  method DistributeRound(active: seq<Candidate>, share: real, target: real)
      returns (next: seq<Candidate>, spent: real)
    requires Distinct(active) && share > 0.0
    requires forall i :: 0 <= i < |active| ==> active[i].Value().Active() && active[i].minOrderSize > 0.0
    modifies active
    ensures forall i :: 0 <= i < |active| ==> active[i].Value() == Serve(old(Values(active))[i], share, target)
    ensures next == ActiveOf(active, Values(active))
    ensures spent == SumGrant(old(Values(active)), share)
  {
    next := [];
    spent := 0.0;
    ghost var before := Values(active);
    ghost var after := Round(before, share, target);
    for k := 0 to |active|
      invariant forall i :: k <= i < |active| ==> active[i].Value() == before[i]
      invariant forall i :: 0 <= i < k ==> active[i].Value() == after[i]
      invariant next == ActiveOf(active[..k], after[..k])
      invariant spent == SumGrant(before[..k], share)
    {
      ActiveOfPrefix(active, after, k);
      SumGrantPrefix(before, k, share);
      var taken, stays := OfferAt(active, k, share, target, before, after);
      spent := spent + taken;
      if stays {
        next := next + [active[k]];
      }
    }
    assert active[..|active|] == active && after[..|active|] == after && before[..|active|] == before;
    assert Values(active) == after;
  }

  method GiveUpAll(active: seq<Candidate>, reason: Release)
    requires Distinct(active)
    modifies active
    ensures forall i :: 0 <= i < |active| ==> active[i].Value() == old(active[i].Value()).WithRelease(reason)
  {
    for k := 0 to |active|
      invariant forall i :: k <= i < |active| ==> active[i].Value() == old(active[i].Value())
      invariant forall i :: 0 <= i < k ==> active[i].Value() == old(active[i].Value()).WithRelease(reason)
    {
      active[k].GiveUp(reason);
    }
  }

  method SelectActive(candidates: seq<Candidate>) returns (active: seq<Candidate>)
    ensures active == ActiveOf(candidates, Values(candidates))
  {
    active := [];
    ghost var cells := Values(candidates);
    for k := 0 to |candidates|
      invariant active == ActiveOf(candidates[..k], cells[..k])
    {
      ActiveOfPrefix(candidates, cells, k);
      if candidates[k].hardCapacity - candidates[k].buyBudget >= candidates[k].minOrderSize {
        active := active + [candidates[k]];
      }
    }
    assert candidates[..|candidates|] == candidates && cells[..|candidates|] == cells;
  }

  lemma {:induction false} ActivesAreActive(cells: seq<Cell>)
    ensures forall i :: 0 <= i < |Actives(cells)| ==> Actives(cells)[i].Active()
    ensures PositiveMins(cells) ==> PositiveMins(Actives(cells))
  {
    if cells != [] {
      ActivesAreActive(cells[1..]);
    }
  }

  /** One round as the whole candidate list sees it. */
  method RoundFor(candidates: seq<Candidate>, active: seq<Candidate>, share: real, target: real)
      returns (next: seq<Candidate>, spent: real)
    requires Distinct(candidates) && PositiveMins(Values(candidates)) && share > 0.0
    requires active == ActiveOf(candidates, Values(candidates))
    modifies candidates
    ensures Values(candidates) == Round(old(Values(candidates)), share, target)
    ensures next == ActiveOf(candidates, Values(candidates))
    ensures spent == SumGrant(old(Values(candidates)), share)
  {
    ghost var before := Values(candidates);
    ActiveOfFacts(candidates, before);
    ActiveOfValues(candidates);
    ghost var offered := Values(active);
    ActivesAreActive(before);
    assert forall i :: 0 <= i < |active| ==> active[i] in active && active[i].Value() == offered[i];
    next, spent := DistributeRound(active, share, target);
    forall i | 0 <= i < |candidates| ensures candidates[i].Value() == Serve(before[i], share, target) {
      if candidates[i] in active {
        var k :| 0 <= k < |active| && active[k] == candidates[i];
      }
    }
    assert Values(active) == Round(offered, share, target);
    GrantsOfActives(before, share);
    RoundOfActives(candidates, before, share, target);
  }

  method MarkUnserved(candidates: seq<Candidate>, active: seq<Candidate>, reason: Release)
    requires Distinct(candidates) && active == ActiveOf(candidates, Values(candidates))
    modifies candidates
    ensures Values(candidates) == MarkActive(old(Values(candidates)), reason)
  {
    ghost var before := Values(candidates);
    ActiveOfFacts(candidates, before);
    assert forall i :: 0 <= i < |active| ==> active[i] in active && active[i] in candidates;
    GiveUpAll(active, reason);
    forall i | 0 <= i < |candidates|
      ensures candidates[i].Value() == if before[i].Active() then before[i].WithRelease(reason) else before[i]
    {
      if candidates[i] in active {
        var k :| 0 <= k < |active| && active[k] == candidates[i];
      }
    }
  }

  lemma NoGrantNoChange(cells: seq<Cell>, share: real, target: real)
    requires PositiveMins(cells) && share >= 0.0 && SumGrant(cells, share) <= 0.0
    ensures Round(cells, share, target) == cells
  {
    NoGrantMeansSmallShare(cells, share);
  }

  /** The distribution loop. */
  method RunRounds(candidates: seq<Candidate>, pool: real, target: real) returns (left: real, reason: PlanReason)
    requires Distinct(candidates) && PositiveMins(Values(candidates)) && pool >= 0.0
    modifies candidates
    ensures Outcome(Values(candidates), left, reason) == Fill(old(Values(candidates)), pool, target)
  {
    left := pool;
    reason := NoPlanReason;
    ghost var start := Values(candidates);
    var active := SelectActive(candidates);
    while active != [] && left > 0.0
      invariant PositiveMins(Values(candidates)) && left >= 0.0
      invariant active == ActiveOf(candidates, Values(candidates))
      invariant Fill(Values(candidates), left, target) == Fill(start, pool, target)
      invariant reason == NoPlanReason
      decreases RoundsLeft(Values(candidates), left)
    {
      var turn;
      active, left, turn := TakeTurn(candidates, active, left, target);
      if turn.Some? {
        reason := turn.value;
        break;
      }
    }
  }

  /** One turn of the loop, and the reason it ends the loop, if it does. */
  method TakeTurn(candidates: seq<Candidate>, active: seq<Candidate>, pool: real, target: real)
      returns (next: seq<Candidate>, left: real, reason: Option<PlanReason>)
    requires Distinct(candidates) && PositiveMins(Values(candidates)) && pool > 0.0
    requires active != [] && active == ActiveOf(candidates, Values(candidates))
    modifies candidates
    ensures PositiveMins(Values(candidates)) && left >= 0.0
    ensures reason.Some? ==>
      Outcome(Values(candidates), left, reason.value) == Fill(old(Values(candidates)), pool, target)
    ensures reason.None? ==>
      && next == ActiveOf(candidates, Values(candidates))
      && Fill(Values(candidates), left, target) == Fill(old(Values(candidates)), pool, target)
      && RoundsLeft(Values(candidates), left) < RoundsLeft(old(Values(candidates)), pool)
  {
    ghost var before := Values(candidates);
    var share := EqualWeightBudget(pool, |active|);
    var spent;
    next, spent := RoundFor(candidates, active, share, target);
    if spent <= 0.0 {
      NoGrantNoChange(before, share, target);
      FillMarks(before, pool, target, share);
      MarkUnserved(candidates, active, BelowMinOrderSize);
      return active, pool, Some(BudgetRemainingBelowMinOrderSize);
    }
    left := pool - spent;
    TurnFacts(before, pool, target, share, Values(candidates), left);
    var small := IsTooSmall(candidates, next, left);
    reason := if small then Some(BudgetRemainingBelowMinOrderSize) else None;
  }

  lemma TurnFacts(before: seq<Cell>, pool: real, target: real, share: real, after: seq<Cell>, left: real)
    requires PositiveMins(before) && Actives(before) != [] && pool > 0.0 && share == Share(pool, |Actives(before)|)
    requires SumGrant(before, share) > 0.0 && after == Round(before, share, target) && left == pool - SumGrant(before, share)
    ensures PositiveMins(after) && left >= 0.0 && RoundsLeft(after, left) < RoundsLeft(before, pool)
    ensures Fill(before, pool, target)
         == if TooSmall(after, left) then Outcome(after, left, BudgetRemainingBelowMinOrderSize) else Fill(after, left, target)
  {
    RoundFacts(before, pool, target, share);
    FillGoesOn(before, pool, target, share, after, left);
  }

  method IsTooSmall(candidates: seq<Candidate>, active: seq<Candidate>, left: real) returns (small: bool)
    requires active == ActiveOf(candidates, Values(candidates))
    ensures small == TooSmall(Values(candidates), left)
  {
    if active == [] {
      return false;
    }
    ActiveOfValues(candidates);
    small := EqualWeightBudget(left, |active|) < LeastMin(Values(active));
  }

  predicate Mirrors(candidates: seq<Candidate>, eligible: seq<MarketSnapshot>) {
    |candidates| == |eligible| &&
    forall i :: 0 <= i < |candidates| ==>
      candidates[i].snapshot == eligible[i] && candidates[i].exposure == eligible[i].ExposureUsdc()
  }

  method MarketLiquidity(s: MarketSnapshot) returns (liquidity: real)
    ensures liquidity == LiquidityOf(s)
  {
    if s.liquidityUsdc.Some? {
      return s.liquidityUsdc.value;
    }
    liquidity := AskDepthNotional(s.orderbook, None);
  }

  lemma CollectSnoc(front: seq<MarketSnapshot>, s: MarketSnapshot)
    ensures TotalExposure(front + [s]) == TotalExposure(front) + s.ExposureUsdc()
    ensures
      var reason := SkipReasonOf(s);
      && EligibleMarkets(front + [s]) == EligibleMarkets(front) + (if reason.None? then [s] else [])
      && SkippedAllocations(front + [s])
         == SkippedAllocations(front) + (if reason.None? then [] else [NothingFor(s, reason.value)])
  {
    assert (front + [s])[..|front|] == front;
  }

  /** An untouched candidate for this market. */
  predicate Represents(c: Candidate, s: MarketSnapshot, limits: Limits)
    reads c
  {
    c.snapshot == s && c.exposure == s.ExposureUsdc() && c.Value() == CellOf(s, limits)
  }

  method NewCandidate(s: MarketSnapshot, exposure: real, limits: Limits) returns (c: Candidate)
    requires exposure == s.ExposureUsdc()
    ensures fresh(c) && Represents(c, s, limits)
  {
    var liquidity := MarketLiquidity(s);
    c := new Candidate(s, exposure, HardCapacity(exposure, liquidity, limits), liquidity);
  }

  /** Splits the markets into candidates and skipped ones, and sums the exposure of all of them. */
  method CollectCandidates(ss: seq<MarketSnapshot>, limits: Limits)
      returns (candidates: seq<Candidate>, skipped: seq<Allocation>, totalExposure: real)
    ensures fresh(candidates) && Distinct(candidates)
    ensures Mirrors(candidates, EligibleMarkets(ss)) && Values(candidates) == CellsOf(EligibleMarkets(ss), limits)
    ensures skipped == SkippedAllocations(ss) && totalExposure == TotalExposure(ss)
  {
    candidates, skipped, totalExposure := [], [], 0.0;
    NothingCollected(ss, limits);
    for k := 0 to |ss|
      invariant fresh(candidates) && Collected(ss, k, candidates, skipped, totalExposure, limits)
    {
      candidates, skipped, totalExposure := CollectNext(ss, k, candidates, skipped, totalExposure, limits);
    }
    AllCollected(ss, candidates, skipped, totalExposure, limits);
  }

  /** What has been collected from the first `k` markets. */
  ghost predicate Collected(ss: seq<MarketSnapshot>, k: nat, candidates: seq<Candidate>, skipped: seq<Allocation>,
                            totalExposure: real, limits: Limits)
    reads candidates
  {
    && k <= |ss| && Distinct(candidates) && RepresentAll(candidates, EligibleMarkets(ss[..k]), limits)
    && skipped == SkippedAllocations(ss[..k]) && totalExposure == TotalExposure(ss[..k])
  }

  lemma NothingCollected(ss: seq<MarketSnapshot>, limits: Limits)
    ensures Collected(ss, 0, [], [], 0.0, limits)
  {
    assert ss[..0] == [];
  }

  lemma AllCollected(ss: seq<MarketSnapshot>, candidates: seq<Candidate>, skipped: seq<Allocation>, totalExposure: real,
                     limits: Limits)
    requires Collected(ss, |ss|, candidates, skipped, totalExposure, limits)
    ensures Distinct(candidates) && Mirrors(candidates, EligibleMarkets(ss))
    ensures Values(candidates) == CellsOf(EligibleMarkets(ss), limits)
    ensures skipped == SkippedAllocations(ss) && totalExposure == TotalExposure(ss)
  {
    assert ss[..|ss|] == ss;
    RepresentingMirrors(candidates, EligibleMarkets(ss), limits);
  }

  method CollectNext(ss: seq<MarketSnapshot>, k: nat, candidates: seq<Candidate>, skipped: seq<Allocation>,
                     totalExposure: real, limits: Limits)
      returns (more: seq<Candidate>, skippedMore: seq<Allocation>, total: real)
    requires k < |ss| && Collected(ss, k, candidates, skipped, totalExposure, limits)
    ensures Collected(ss, k + 1, more, skippedMore, total, limits)
    ensures candidates <= more && forall i :: |candidates| <= i < |more| ==> fresh(more[i])
  {
    assert ss[..k + 1] == ss[..k] + [ss[k]];
    CollectSnoc(ss[..k], ss[k]);
    var exposure := CurrentExposureUsdc(ss[k].position, ss[k].openOrders);
    total := totalExposure + exposure;
    more, skippedMore := CollectMarket(candidates, EligibleMarkets(ss[..k]), skipped, ss[k], exposure, limits);
  }

  predicate RepresentAll(cs: seq<Candidate>, ss: seq<MarketSnapshot>, limits: Limits)
    reads cs
  {
    |cs| == |ss| && forall i :: 0 <= i < |cs| ==> Represents(cs[i], ss[i], limits)
  }

  lemma RepresentingMirrors(cs: seq<Candidate>, ss: seq<MarketSnapshot>, limits: Limits)
    requires RepresentAll(cs, ss, limits)
    ensures Mirrors(cs, ss) && Values(cs) == CellsOf(ss, limits)
  {
    assert forall i :: 0 <= i < |cs| ==> Represents(cs[i], ss[i], limits);
  }

  method CollectMarket(candidates: seq<Candidate>, ghost ss: seq<MarketSnapshot>, skipped: seq<Allocation>, s: MarketSnapshot,
                       exposure: real, limits: Limits) returns (more: seq<Candidate>, skippedMore: seq<Allocation>)
    requires Distinct(candidates) && RepresentAll(candidates, ss, limits) && exposure == s.ExposureUsdc()
    ensures Distinct(more) && RepresentAll(more, ss + (if SkipReasonOf(s).None? then [s] else []), limits)
    ensures candidates <= more && forall i :: |candidates| <= i < |more| ==> fresh(more[i])
    ensures skippedMore == skipped + (if SkipReasonOf(s).None? then [] else [NothingFor(s, SkipReasonOf(s).value)])
  {
    more, skippedMore := candidates, skipped;
    var reason := SkipReasonOf(s);
    if reason.Some? {
      skippedMore := skipped + [NothingFor(s, reason.value)];
      assert ss + [] == ss;
    } else {
      var c := NewCandidate(s, exposure, limits);
      more := candidates + [c];
      assert forall i :: 0 <= i < |candidates| ==> Represents(candidates[i], ss[i], limits);
      assert skipped + [] == skipped;
    }
  }

  method MarkBelowMinimum(candidates: seq<Candidate>)
    requires Distinct(candidates)
    modifies candidates
    ensures Values(candidates) == MarkInactive(old(Values(candidates)), BelowMinOrderSize)
  {
    for k := 0 to |candidates|
      invariant forall i :: k <= i < |candidates| ==> candidates[i].Value() == old(candidates[i].Value())
      invariant forall i :: 0 <= i < k ==>
        candidates[i].Value() == MarkInactive(old(Values(candidates)), BelowMinOrderSize)[i]
    {
      if candidates[k].hardCapacity - candidates[k].buyBudget < candidates[k].minOrderSize {
        candidates[k].GiveUp(BelowMinOrderSize);
      }
    }
  }

  method FinalizeAllocations(candidates: seq<Candidate>, ghost eligible: seq<MarketSnapshot>, equalTarget: real)
      returns (allocations: seq<Allocation>)
    requires Mirrors(candidates, eligible)
    ensures allocations == Finalized(eligible, Values(candidates), equalTarget)
  {
    allocations := [];
    for k := 0 to |candidates|
      invariant |allocations| == k
      invariant forall i :: 0 <= i < k ==>
        allocations[i] == AllocationOf(eligible[i], candidates[i].Value(), equalTarget)
    {
      var c := candidates[k];
      var target := if c.targetBudget == 0.0 then equalTarget else c.targetBudget;
      var released := target - c.buyBudget;
      if released < 0.0 {
        released := 0.0;
      }
      allocations := allocations + [Allocation(
        c.snapshot.market.conditionId, c.snapshot.tokenId, target, c.buyBudget, c.exposure, released,
        if c.releaseReason == NoRelease then Unreduced else Released(c.releaseReason))];
    }
  }

  /** Runs the rounds once the money to spend is known. */
  method DistributePool(candidates: seq<Candidate>, pool: real, target: real) returns (reason: PlanReason)
    requires Distinct(candidates) && PositiveMins(Values(candidates)) && pool >= 0.0
    modifies candidates
    ensures Values(candidates) == Distribute(old(Values(candidates)), pool, target).cells
    ensures reason == Distribute(old(Values(candidates)), pool, target).reason
  {
    MarkBelowMinimum(candidates);
    ghost var marked := Values(candidates);
    assert PositiveMins(marked);
    var active := SelectActive(candidates);
    ActiveOfFacts(candidates, marked);
    ActiveOfValues(candidates);
    if active == [] {
      return NoMarketMeetsMinOrderSize;
    }
    if pool < LeastMin(Values(active)) {
      MarkUnserved(candidates, active, BelowMinOrderSize);
      return TotalBudgetInsufficient;
    }
    var left;
    left, reason := RunRounds(candidates, pool, target);
  }

  method SpendableUsdc(limits: Limits, totalExposure: real) returns (pool: real)
    ensures pool == InitialPool(limits, totalExposure)
  {
    pool := limits.portfolioBudget;
    if limits.available < pool {
      pool := limits.available;
    }
    if limits.maxTotal - totalExposure < pool {
      pool := limits.maxTotal - totalExposure;
    }
    if pool < 0.0 {
      pool := 0.0;
    }
  }

  method EqualWeightPlan(ss: seq<MarketSnapshot>, limits: Limits) returns (plan: AllocationPlan)
    requires PositiveMinOrders(ss)
    ensures plan == PlanFor(ss, limits)
  {
    var candidates, skipped, totalExposure := CollectCandidates(ss, limits);
    if candidates == [] {
      return AllocationPlan(limits.portfolioBudget, skipped, NoEligibleMarket);
    }
    EligibleArePositive(ss, limits);
    var target := EqualWeightBudget(limits.portfolioBudget, |candidates|);
    var pool := SpendableUsdc(limits, totalExposure);
    var reason := DistributePool(candidates, pool, target);
    var finalized := FinalizeAllocations(candidates, EligibleMarkets(ss), target);
    plan := AllocationPlan(limits.portfolioBudget, skipped + finalized, reason);
  }
}
