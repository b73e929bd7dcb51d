/**
 * The value-level account of the equal-weight allocator: what one round of the
 * distribution loop does to every candidate, what the whole loop computes, and
 * the laws of the result. `Allocation.dfy` holds the loop itself, which works in
 * place on candidate objects and is proved against `Distribute`.
 *
 * Amounts are exact reals.
 */
module WaterFill {

  /** The codes a candidate carries once part of its target was given back. */
  datatype Release =
    | NoRelease
    | BelowMinOrderSize
    | MarketLimitReached
    | DepthInsufficient
    | SingleMarketLimitReached
    | ReallocatedElsewhere

  datatype PlanReason =
    | NoPlanReason
    | NoEligibleMarket
    | NoMarketMeetsMinOrderSize
    | TotalBudgetInsufficient
    | BudgetRemainingBelowMinOrderSize
    | MissingPortfolioBudget
    | MissingMarketState
    | MissingMaxOrderUsdc
    | MissingMaxMarketUsdc
    | MissingMaxTotalUsdc
    | EntryPaused

  /** One allocation candidate: its limits, and what it has been given so far. */
  datatype Cell = Cell(
    cap: real,
    minSize: real,
    liquidity: real,
    budget: real,
    target: real,
    release: Release)
  {
    function Room(): real { cap - budget }

    /** Can this candidate still take an order of at least its minimum size? */
    predicate Active() { Room() >= minSize }

    function WithRelease(r: Release): Cell {
      this.(release := if release == NoRelease then r else release)
    }
  }

  datatype Outcome = Outcome(cells: seq<Cell>, pool: real, reason: PlanReason)

  function Min(a: real, b: real): real { if a <= b then a else b }

  // ---------------------------------------------------------------- one round

  /** What one round gives to one candidate when every active one is offered `share`. */
  function Grant(c: Cell, share: real): real {
    if !c.Active() || Min(share, c.Room()) < c.minSize then 0.0 else Min(share, c.Room())
  }

  function CapacityReason(room: real, cap: real, liquidity: real): Release {
    if room <= 0.0 then MarketLimitReached
    else if liquidity < cap then DepthInsufficient
    else SingleMarketLimitReached
  }

  function Serve(c: Cell, share: real, target: real): Cell {
    if !c.Active() || Min(share, c.Room()) < c.minSize then c
    else
      var served := c.(budget := c.budget + Min(share, c.Room()), target := target);
      if Min(share, c.Room()) < share
      then served.WithRelease(CapacityReason(c.Room(), c.cap, c.liquidity))
      else served
  }

  function Round(cells: seq<Cell>, share: real, target: real): (r: seq<Cell>)
    ensures |r| == |cells|
    ensures forall i :: 0 <= i < |cells| ==> r[i] == Serve(cells[i], share, target)
  {
    seq(|cells|, i requires 0 <= i < |cells| => Serve(cells[i], share, target))
  }

  function Actives(cells: seq<Cell>): (r: seq<Cell>)
    ensures |r| <= |cells|
    ensures PositiveMins(cells) ==> PositiveMins(r)
  {
    if cells == [] then []
    else if cells[0].Active() then [cells[0]] + Actives(cells[1..])
    else Actives(cells[1..])
  }

  function SumBudget(cells: seq<Cell>): real {
    if cells == [] then 0.0 else cells[0].budget + SumBudget(cells[1..])
  }

  function SumGrant(cells: seq<Cell>, share: real): real {
    if cells == [] then 0.0 else Grant(cells[0], share) + SumGrant(cells[1..], share)
  }

  /** The smallest minimum order size among the candidates. */
  function LeastMin(cells: seq<Cell>): (m: real)
    requires cells != []
    ensures forall i :: 0 <= i < |cells| ==> m <= cells[i].minSize
    ensures PositiveMins(cells) ==> m > 0.0
  {
    if |cells| == 1 then cells[0].minSize
    else Min(cells[0].minSize, LeastMin(cells[1..]))
  }

  function MarkActive(cells: seq<Cell>, r: Release): (marked: seq<Cell>)
    ensures |marked| == |cells|
    ensures forall i :: 0 <= i < |cells| ==>
      marked[i] == if cells[i].Active() then cells[i].WithRelease(r) else cells[i]
  {
    seq(|cells|, i requires 0 <= i < |cells| =>
      if cells[i].Active() then cells[i].WithRelease(r) else cells[i])
  }

  function MarkInactive(cells: seq<Cell>, r: Release): (marked: seq<Cell>)
    ensures |marked| == |cells|
    ensures forall i :: 0 <= i < |cells| ==>
      marked[i] == if cells[i].Active() then cells[i] else cells[i].WithRelease(r)
  {
    seq(|cells|, i requires 0 <= i < |cells| =>
      if cells[i].Active() then cells[i] else cells[i].WithRelease(r))
  }

  predicate PositiveMins(cells: seq<Cell>) {
    forall i :: 0 <= i < |cells| ==> cells[i].minSize > 0.0
  }

  /** Rounds still possible: each round that gives anything gives at least the least minimum. */
  function RoundsLeft(cells: seq<Cell>, pool: real): nat
    requires PositiveMins(cells)
  {
    if cells == [] || pool <= 0.0 then 0
    else
      DivNonNegative(pool, LeastMin(cells));
      (pool / LeastMin(cells)).Floor
  }

  lemma DivNonNegative(x: real, y: real)
    requires x >= 0.0 && y > 0.0
    ensures x / y >= 0.0
  {}

  // ----------------------------------------------------------- the whole loop

  /** `k` shares of `x`, by repeated addition. */
  function Times(k: nat, x: real): real {
    if k == 0 then 0.0 else x + Times(k - 1, x)
  }

  lemma Distribute2(a: real, b: real, x: real)
    ensures (a + b) * x == a * x + b * x
  {}

  lemma {:induction false} TimesIsProduct(k: nat, x: real)
    ensures Times(k, x) == k as real * x
  {
    if k > 0 {
      TimesIsProduct(k - 1, x);
      Distribute2((k - 1) as real, 1.0, x);
    }
  }

  /** The equal share of a pool: `n` times the share is the pool. */
  function Share(pool: real, n: nat): (share: real)
    requires n > 0
    ensures Times(n, share) == pool
    ensures pool >= 0.0 ==> share >= 0.0
    ensures pool > 0.0 ==> share > 0.0
  {
    TimesIsProduct(n, pool / n as real);
    pool / n as real
  }

  /** What is left of the pool is too small for an order when shared equally. */
  predicate TooSmall(cells: seq<Cell>, left: real) {
    Actives(cells) != [] && Share(left, |Actives(cells)|) < LeastMin(Actives(cells))
  }

  /** The distribution loop, with its early exit. */
  function Fill(cells: seq<Cell>, pool: real, target: real): (o: Outcome)
    requires PositiveMins(cells)
    ensures |o.cells| == |cells|
    decreases RoundsLeft(cells, pool)
  {
    var n := |Actives(cells)|;
    if n == 0 || pool <= 0.0 then Outcome(cells, pool, NoPlanReason)
    else
      var share := Share(pool, n);
      var spent := SumGrant(cells, share);
      if spent <= 0.0 then
        Outcome(MarkActive(cells, BelowMinOrderSize), pool, BudgetRemainingBelowMinOrderSize)
      else
        RoundFacts(cells, pool, target, share);
        var next, left := Round(cells, share, target), pool - spent;
        if TooSmall(next, left) then Outcome(next, left, BudgetRemainingBelowMinOrderSize) else Fill(next, left, target)
  }

  /** The same loop without the early exit, on budgets alone: the plain account of the algorithm. */
  function PlainFill(cells: seq<Cell>, pool: real, target: real): (o: seq<Cell>)
    requires PositiveMins(cells)
    ensures |o| == |cells|
    decreases RoundsLeft(cells, pool)
  {
    var n := |Actives(cells)|;
    if n == 0 || pool <= 0.0 || SumGrant(cells, Share(pool, n)) <= 0.0 then cells
    else
      RoundFacts(cells, pool, target, Share(pool, n));
      PlainFill(Round(cells, Share(pool, n), target), pool - SumGrant(cells, Share(pool, n)), target)
  }

  /** What the allocator does with its candidates once the pool is known. */
  function Distribute(cells: seq<Cell>, pool: real, target: real): (o: Outcome)
    requires PositiveMins(cells)
    ensures |o.cells| == |cells|
  {
    var marked := MarkInactive(cells, BelowMinOrderSize);
    if Actives(marked) == [] then Outcome(marked, pool, NoMarketMeetsMinOrderSize)
    else if pool < LeastMin(Actives(marked)) then
      Outcome(MarkActive(marked, BelowMinOrderSize), pool, TotalBudgetInsufficient)
    else Fill(marked, pool, target)
  }

  // ------------------------------------------------------------ round lemmas

  lemma {:induction false} SumGrantBound(cells: seq<Cell>, share: real)
    requires PositiveMins(cells) && share >= 0.0
    ensures 0.0 <= SumGrant(cells, share) <= Times(|Actives(cells)|, share)
  {
    if cells != [] {
      SumGrantBound(cells[1..], share);
      assert 0.0 <= Grant(cells[0], share) <= share;
    }
  }

  lemma {:induction false} SumGrantLeast(cells: seq<Cell>, share: real, m: real)
    requires PositiveMins(cells) && share >= 0.0
    requires forall i :: 0 <= i < |cells| ==> m <= cells[i].minSize
    requires SumGrant(cells, share) > 0.0
    ensures SumGrant(cells, share) >= m
  {
    if cells != [] {
      SumGrantBound(cells[1..], share);
      if Grant(cells[0], share) == 0.0 {
        SumGrantLeast(cells[1..], share, m);
      }
    }
  }

  lemma {:induction false} RoundKeepsMins(cells: seq<Cell>, share: real, target: real)
    requires PositiveMins(cells)
    ensures PositiveMins(Round(cells, share, target))
    ensures cells != [] ==> LeastMin(Round(cells, share, target)) == LeastMin(cells)
  {
    var r := Round(cells, share, target);
    if cells != [] {
      RoundKeepsMins(cells[1..], share, target);
      assert r[1..] == Round(cells[1..], share, target);
      assert r[0].minSize == cells[0].minSize;
    }
  }

  /** A round that gives something leaves a smaller pool, never a negative one. */
  lemma RoundFacts(cells: seq<Cell>, pool: real, target: real, share: real)
    requires PositiveMins(cells) && Actives(cells) != [] && pool > 0.0
    requires share >= 0.0 && Times(|Actives(cells)|, share) == pool
    requires SumGrant(cells, share) > 0.0
    ensures
      var spent := SumGrant(cells, share);
      && LeastMin(cells) <= spent <= pool
      && PositiveMins(Round(cells, share, target))
      && RoundsLeft(Round(cells, share, target), pool - spent) < RoundsLeft(cells, pool)
  {
    var m := LeastMin(cells);
    SumGrantBound(cells, share);
    SumGrantLeast(cells, share, m);
    RoundKeepsMins(cells, share, target);
    FloorDrops(pool, SumGrant(cells, share), m);
  }

  lemma FloorDrops(pool: real, spent: real, m: real)
    requires 0.0 < m <= spent <= pool
    ensures (pool / m).Floor >= 1
    ensures (pool - spent) / m >= 0.0
    ensures ((pool - spent) / m).Floor < (pool / m).Floor
  {
    assert pool / m >= 1.0;
    assert (pool - spent) / m == pool / m - spent / m;
    assert spent / m >= 1.0;
  }

  // ------------------------------------------------------------ laws of the loop

  /** Same candidates, same budgets; only release codes and targets may differ. */
  predicate SameMoney(a: seq<Cell>, b: seq<Cell>) {
    |a| == |b| &&
    forall i :: 0 <= i < |a| ==>
      a[i].cap == b[i].cap && a[i].minSize == b[i].minSize && a[i].budget == b[i].budget
  }

  lemma SameMoneyTails(a: seq<Cell>, b: seq<Cell>)
    requires SameMoney(a, b) && a != []
    ensures SameMoney(a[1..], b[1..])
    ensures a[0].cap == b[0].cap && a[0].minSize == b[0].minSize && a[0].budget == b[0].budget
  {}

  lemma {:induction false} SameMoneySameBudget(a: seq<Cell>, b: seq<Cell>)
    requires SameMoney(a, b)
    ensures SumBudget(a) == SumBudget(b)
  {
    if a != [] {
      SameMoneyTails(a, b);
      SameMoneySameBudget(a[1..], b[1..]);
    }
  }

  lemma {:induction false} SameMoneySameActives(a: seq<Cell>, b: seq<Cell>)
    requires SameMoney(a, b)
    ensures SameMoney(Actives(a), Actives(b))
  {
    if a != [] {
      SameMoneyTails(a, b);
      SameMoneySameActives(a[1..], b[1..]);
    }
  }

  lemma {:induction false} SameMoneySameGrants(a: seq<Cell>, b: seq<Cell>, share: real)
    requires SameMoney(a, b)
    ensures SumGrant(a, share) == SumGrant(b, share)
  {
    if a != [] {
      SameMoneyTails(a, b);
      SameMoneySameGrants(a[1..], b[1..], share);
    }
  }

  lemma SameMoneyFacts(a: seq<Cell>, b: seq<Cell>)
    requires SameMoney(a, b)
    ensures SumBudget(a) == SumBudget(b)
    ensures SameMoney(Actives(a), Actives(b))
  {
    SameMoneySameBudget(a, b);
    SameMoneySameActives(a, b);
  }

  lemma {:induction false} ActivesWithin(cells: seq<Cell>, i: nat)
    requires i < |cells| && cells[i].Active()
    ensures cells[i] in Actives(cells)
  {
    if i > 0 {
      ActivesWithin(cells[1..], i - 1);
    }
  }

  lemma {:induction false} RoundConserves(cells: seq<Cell>, share: real, target: real)
    ensures SumBudget(Round(cells, share, target)) == SumBudget(cells) + SumGrant(cells, share)
  {
    var r := Round(cells, share, target);
    if cells != [] {
      RoundConserves(cells[1..], share, target);
      assert r[1..] == Round(cells[1..], share, target);
      assert r[0] == Serve(cells[0], share, target);
    }
  }

  /** A turn of the loop that can give nothing marks who is left and stops. */
  lemma FillMarks(cells: seq<Cell>, pool: real, target: real, share: real)
    requires PositiveMins(cells) && Actives(cells) != [] && pool > 0.0 && share == Share(pool, |Actives(cells)|)
    requires SumGrant(cells, share) <= 0.0
    ensures Fill(cells, pool, target)
         == Outcome(MarkActive(cells, BelowMinOrderSize), pool, BudgetRemainingBelowMinOrderSize)
  {}

  lemma FillTurns(cells: seq<Cell>, pool: real, target: real)
    requires PositiveMins(cells) && Actives(cells) != [] && pool > 0.0
    requires SumGrant(cells, Share(pool, |Actives(cells)|)) > 0.0
    ensures
      var share := Share(pool, |Actives(cells)|);
      var next, left := Round(cells, share, target), pool - SumGrant(cells, share);
      && PositiveMins(next)
      && Fill(cells, pool, target)
         == if TooSmall(next, left) then Outcome(next, left, BudgetRemainingBelowMinOrderSize) else Fill(next, left, target)
  {
    RoundFacts(cells, pool, target, Share(pool, |Actives(cells)|));
  }

  /** Any other turn goes through a round, and stops when what is left is too small. */
  lemma FillGoesOn(cells: seq<Cell>, pool: real, target: real, share: real, next: seq<Cell>, left: real)
    requires PositiveMins(cells) && Actives(cells) != [] && pool > 0.0 && share == Share(pool, |Actives(cells)|)
    requires SumGrant(cells, share) > 0.0 && next == Round(cells, share, target) && left == pool - SumGrant(cells, share)
    requires PositiveMins(next)
    ensures Fill(cells, pool, target)
         == if TooSmall(next, left) then Outcome(next, left, BudgetRemainingBelowMinOrderSize) else Fill(next, left, target)
  {
    FillTurns(cells, pool, target);
  }

  /** Nothing is created or lost: budgets plus what is left of the pool is the initial pool. */
  lemma {:induction false} FillConserves(cells: seq<Cell>, pool: real, target: real)
    requires PositiveMins(cells) && pool >= 0.0
    ensures
      var o := Fill(cells, pool, target);
      o.pool >= 0.0 && SumBudget(o.cells) + o.pool == SumBudget(cells) + pool
    decreases RoundsLeft(cells, pool)
  {
    if Actives(cells) != [] && pool > 0.0 {
      var share := Share(pool, |Actives(cells)|);
      if SumGrant(cells, share) <= 0.0 {
        FillMarks(cells, pool, target, share);
        SameMoneyFacts(cells, MarkActive(cells, BelowMinOrderSize));
      } else {
        var next, left := Round(cells, share, target), pool - SumGrant(cells, share);
        RoundFacts(cells, pool, target, share);
        FillGoesOn(cells, pool, target, share, next, left);
        RoundConserves(cells, share, target);
        if !TooSmall(next, left) {
          FillConserves(next, left, target);
        }
      }
    }
  }

  /** A budget is nothing, or an order the market takes and every limit allows. */
  predicate Fits(c: Cell) {
    c.budget == 0.0 || c.minSize <= c.budget <= c.cap
  }

  predicate AllFit(cells: seq<Cell>) {
    forall i :: 0 <= i < |cells| ==> Fits(cells[i])
  }

  /**
   * Max-min fairness between two candidates: one whose minimum order is no larger
   * can only end up with less than the other when it cannot take another order.
   */
  predicate FairTo(c: Cell, d: Cell) {
    c.minSize <= d.minSize && c.budget < d.budget ==> c.Room() < c.minSize
  }

  predicate AllFair(cells: seq<Cell>) {
    forall i, j :: 0 <= i < |cells| && 0 <= j < |cells| ==> FairTo(cells[i], cells[j])
  }

  lemma ServeKeepsFit(c: Cell, share: real, target: real)
    requires c.minSize > 0.0 && Fits(c)
    ensures Fits(Serve(c, share, target))
  {}

  lemma ServeKeepsFair(c: Cell, d: Cell, share: real, target: real)
    requires c.minSize > 0.0 && d.minSize > 0.0 && share > 0.0 && FairTo(c, d)
    ensures FairTo(Serve(c, share, target), Serve(d, share, target))
  {}

  lemma RoundKeepsFit(cells: seq<Cell>, share: real, target: real)
    requires PositiveMins(cells) && AllFit(cells)
    ensures AllFit(Round(cells, share, target))
  {
    forall i | 0 <= i < |cells| ensures Fits(Round(cells, share, target)[i]) {
      ServeKeepsFit(cells[i], share, target);
    }
  }

  lemma RoundKeepsFair(cells: seq<Cell>, share: real, target: real)
    requires PositiveMins(cells) && share > 0.0 && AllFair(cells)
    ensures AllFair(Round(cells, share, target))
  {
    var r := Round(cells, share, target);
    forall i, j | 0 <= i < |r| && 0 <= j < |r| ensures FairTo(r[i], r[j]) {
      ServeKeepsFair(cells[i], cells[j], share, target);
    }
  }

  lemma MarkKeepsFitAndFair(cells: seq<Cell>, r: Release)
    ensures AllFit(cells) ==> AllFit(MarkActive(cells, r))
    ensures AllFair(cells) ==> AllFair(MarkActive(cells, r))
  {
    var marked := MarkActive(cells, r);
    if AllFair(cells) {
      forall i, j | 0 <= i < |marked| && 0 <= j < |marked| ensures FairTo(marked[i], marked[j]) {
        assert FairTo(cells[i], cells[j]);
      }
    }
  }

  // ---------------------------------------------------------- the loop as a list of shares

  /** Rounds at given shares, one after the other; whoever is left at the end may be marked. */
  function Rounds(cells: seq<Cell>, shares: seq<real>, marked: bool, target: real): (r: seq<Cell>)
    ensures |r| == |cells|
    decreases shares
  {
    if shares == [] then (if marked then MarkActive(cells, BelowMinOrderSize) else cells)
    else Rounds(Round(cells, shares[0], target), shares[1..], marked, target)
  }

  predicate SharesOf(shares: seq<real>, pool: real) {
    forall j :: 0 <= j < |shares| ==> 0.0 < shares[j] <= pool
  }

  lemma RoundsCons(cells: seq<Cell>, share: real, rest: seq<real>, marked: bool, target: real, left: real, pool: real)
    requires 0.0 < share <= pool && left <= pool && SharesOf(rest, left)
    ensures SharesOf([share] + rest, pool)
    ensures Rounds(cells, [share] + rest, marked, target) == Rounds(Round(cells, share, target), rest, marked, target)
  {
    assert ([share] + rest)[1..] == rest;
  }

  /** The loop comes to rounds at some positive shares, none larger than the pool, and possibly marks who was left. */
  lemma {:induction false} FillIsRounds(cells: seq<Cell>, pool: real, target: real) returns (shares: seq<real>, marked: bool)
    requires PositiveMins(cells)
    ensures SharesOf(shares, pool)
    ensures Fill(cells, pool, target).cells == Rounds(cells, shares, marked, target)
    decreases RoundsLeft(cells, pool), 1
  {
    shares, marked := [], false;
    if Actives(cells) != [] && pool > 0.0 {
      var share := Share(pool, |Actives(cells)|);
      if SumGrant(cells, share) <= 0.0 {
        FillMarks(cells, pool, target, share);
        marked := true;
      } else {
        var rest: seq<real>;
        rest, marked := FillIsMoreRounds(cells, pool, target, share);
        shares := [share] + rest;
      }
    }
  }

  lemma {:induction false} FillIsMoreRounds(cells: seq<Cell>, pool: real, target: real, share: real)
      returns (rest: seq<real>, marked: bool)
    requires PositiveMins(cells) && Actives(cells) != [] && pool > 0.0 && share == Share(pool, |Actives(cells)|)
    requires SumGrant(cells, share) > 0.0
    ensures SharesOf([share] + rest, pool)
    ensures Fill(cells, pool, target).cells == Rounds(cells, [share] + rest, marked, target)
    decreases RoundsLeft(cells, pool), 0
  {
    var next, left := Round(cells, share, target), pool - SumGrant(cells, share);
    RoundFacts(cells, pool, target, share);
    rest, marked := FillIsRest(next, left, target);
    FillGoesOn(cells, pool, target, share, next, left);
    ShareIsWithin(pool, |Actives(cells)|);
    RoundsCons(cells, share, rest, marked, target, left, pool);
  }

  lemma {:induction false} FillIsRest(next: seq<Cell>, left: real, target: real) returns (rest: seq<real>, marked: bool)
    requires PositiveMins(next)
    ensures SharesOf(rest, left)
    ensures Rounds(next, rest, marked, target) == if TooSmall(next, left) then next else Fill(next, left, target).cells
    decreases RoundsLeft(next, left), 2
  {
    rest, marked := [], false;
    if !TooSmall(next, left) {
      rest, marked := FillIsRounds(next, left, target);
    }
  }

  lemma ShareIsWithin(pool: real, n: nat)
    requires n > 0 && pool > 0.0
    ensures 0.0 < Share(pool, n) <= pool
  {
    ShareAtMostPool(pool, n);
  }

  lemma {:induction false} RoundsFit(cells: seq<Cell>, shares: seq<real>, marked: bool, target: real)
    requires PositiveMins(cells) && AllFit(cells)
    ensures AllFit(Rounds(cells, shares, marked, target))
    decreases shares
  {
    MarkKeepsFitAndFair(cells, BelowMinOrderSize);
    if shares != [] {
      RoundKeepsMins(cells, shares[0], target);
      RoundKeepsFit(cells, shares[0], target);
      RoundsFit(Round(cells, shares[0], target), shares[1..], marked, target);
    }
  }

  lemma FillFits(cells: seq<Cell>, pool: real, target: real)
    requires PositiveMins(cells) && AllFit(cells)
    ensures AllFit(Fill(cells, pool, target).cells)
  {
    var shares, marked := FillIsRounds(cells, pool, target);
    RoundsFit(cells, shares, marked, target);
  }

  lemma {:induction false} RoundsFair(cells: seq<Cell>, shares: seq<real>, marked: bool, target: real, pool: real)
    requires PositiveMins(cells) && AllFair(cells) && SharesOf(shares, pool)
    ensures AllFair(Rounds(cells, shares, marked, target))
    decreases shares
  {
    MarkKeepsFitAndFair(cells, BelowMinOrderSize);
    if shares != [] {
      RoundKeepsMins(cells, shares[0], target);
      RoundKeepsFair(cells, shares[0], target);
      RoundsFair(Round(cells, shares[0], target), shares[1..], marked, target, pool);
    }
  }

  lemma FillFair(cells: seq<Cell>, pool: real, target: real)
    requires PositiveMins(cells) && AllFair(cells)
    ensures AllFair(Fill(cells, pool, target).cells)
  {
    var shares, marked := FillIsRounds(cells, pool, target);
    RoundsFair(cells, shares, marked, target, pool);
  }

  /** No round can give any candidate anything: the pool is gone, or an equal share of it is too small. */
  predicate Exhausted(cells: seq<Cell>, pool: real) {
    pool == 0.0 || Actives(cells) == [] ||
    forall i :: 0 <= i < |cells| && cells[i].Active() ==>
      Share(pool, |Actives(cells)|) < cells[i].minSize
  }

  lemma {:induction false} NoGrantMeansSmallShare(cells: seq<Cell>, share: real)
    requires PositiveMins(cells) && share >= 0.0
    ensures SumGrant(cells, share) <= 0.0 <==>
      forall i :: 0 <= i < |cells| && cells[i].Active() ==> share < cells[i].minSize
  {
    if cells != [] {
      NoGrantMeansSmallShare(cells[1..], share);
      SumGrantBound(cells[1..], share);
      assert Grant(cells[0], share) >= 0.0;
      assert Grant(cells[0], share) == 0.0 <==> (cells[0].Active() ==> share < cells[0].minSize);
      if SumGrant(cells, share) <= 0.0 {
        forall i | 0 <= i < |cells| && cells[i].Active() ensures share < cells[i].minSize {
          if i > 0 {
            assert cells[i] == cells[1..][i - 1];
          }
        }
      }
      if forall i :: 0 <= i < |cells| && cells[i].Active() ==> share < cells[i].minSize {
        forall i | 0 <= i < |cells[1..]| && cells[1..][i].Active() ensures share < cells[1..][i].minSize {
          assert cells[1..][i] == cells[i + 1];
        }
      }
    }
  }

  lemma {:induction false} BelowLeastMin(cells: seq<Cell>, share: real)
    requires PositiveMins(cells) && Actives(cells) != [] && share < LeastMin(Actives(cells))
    ensures forall i :: 0 <= i < |cells| && cells[i].Active() ==> share < cells[i].minSize
  {
    forall i | 0 <= i < |cells| && cells[i].Active() ensures share < cells[i].minSize {
      ActivesWithin(cells, i);
      var k :| 0 <= k < |Actives(cells)| && Actives(cells)[k] == cells[i];
    }
  }

  lemma MarkKeepsExhausted(cells: seq<Cell>, pool: real, r: Release)
    requires PositiveMins(cells) && Exhausted(cells, pool)
    ensures Exhausted(MarkActive(cells, r), pool)
  {
    var marked := MarkActive(cells, r);
    SameMoneyFacts(cells, marked);
    forall i | 0 <= i < |marked| && marked[i].Active() && Actives(marked) != [] && pool != 0.0
      ensures Share(pool, |Actives(marked)|) < marked[i].minSize
    {
      assert cells[i].Active();
    }
  }

  /** The loop stops only when it is work-conserving. */
  lemma {:induction false} FillExhausts(cells: seq<Cell>, pool: real, target: real)
    requires PositiveMins(cells) && pool >= 0.0
    ensures Exhausted(Fill(cells, pool, target).cells, Fill(cells, pool, target).pool)
    decreases RoundsLeft(cells, pool)
  {
    if Actives(cells) != [] && pool > 0.0 {
      var share := Share(pool, |Actives(cells)|);
      if SumGrant(cells, share) <= 0.0 {
        FillMarks(cells, pool, target, share);
        NoGrantMeansSmallShare(cells, share);
        MarkKeepsExhausted(cells, pool, BelowMinOrderSize);
      } else {
        var next, left := Round(cells, share, target), pool - SumGrant(cells, share);
        RoundFacts(cells, pool, target, share);
        FillGoesOn(cells, pool, target, share, next, left);
        if TooSmall(next, left) {
          TooSmallExhausts(next, left);
        } else {
          FillExhausts(next, left, target);
        }
      }
    }
  }

  lemma TooSmallExhausts(cells: seq<Cell>, left: real)
    requires PositiveMins(cells) && TooSmall(cells, left)
    ensures Exhausted(cells, left)
  {
    BelowLeastMin(cells, Share(left, |Actives(cells)|));
  }

  predicate SameBudgets(a: seq<Cell>, b: seq<Cell>) {
    |a| == |b| && forall i :: 0 <= i < |a| ==> a[i].budget == b[i].budget
  }

  /** The early exit changes no budget: the loop with it and the loop without it pay out the same. */
  lemma {:induction false} EarlyExitIsInvisible(cells: seq<Cell>, pool: real, target: real)
    requires PositiveMins(cells) && pool >= 0.0
    ensures SameBudgets(Fill(cells, pool, target).cells, PlainFill(cells, pool, target))
    decreases RoundsLeft(cells, pool)
  {
    if Actives(cells) != [] && pool > 0.0 {
      var share := Share(pool, |Actives(cells)|);
      if SumGrant(cells, share) <= 0.0 {
        FillMarks(cells, pool, target, share);
      } else {
        var next, left := Round(cells, share, target), pool - SumGrant(cells, share);
        RoundFacts(cells, pool, target, share);
        FillGoesOn(cells, pool, target, share, next, left);
        PlainGoesOn(cells, pool, target, share);
        if TooSmall(next, left) {
          PlainStops(next, left, target);
        } else {
          EarlyExitIsInvisible(next, left, target);
        }
      }
    }
  }

  lemma PlainGoesOn(cells: seq<Cell>, pool: real, target: real, share: real)
    requires PositiveMins(cells) && Actives(cells) != [] && pool > 0.0 && share == Share(pool, |Actives(cells)|)
    requires SumGrant(cells, share) > 0.0 && PositiveMins(Round(cells, share, target))
    ensures PlainFill(cells, pool, target) == PlainFill(Round(cells, share, target), pool - SumGrant(cells, share), target)
  {}

  lemma PlainStops(cells: seq<Cell>, left: real, target: real)
    requires PositiveMins(cells) && left >= 0.0 && TooSmall(cells, left)
    ensures PlainFill(cells, left, target) == cells
  {
    BelowLeastMin(cells, Share(left, |Actives(cells)|));
    NoGrantMeansSmallShare(cells, Share(left, |Actives(cells)|));
  }

  // ----------------------------------------------------- laws of the allocator

  predicate Fresh(cells: seq<Cell>) {
    forall i :: 0 <= i < |cells| ==> cells[i].budget == 0.0 && cells[i].release == NoRelease
  }

  lemma {:induction false} FreshSum(cells: seq<Cell>)
    requires Fresh(cells)
    ensures SumBudget(cells) == 0.0
  {
    if cells != [] {
      FreshSum(cells[1..]);
    }
  }

  /** Conservation, limits, fairness and work conservation of every distribution. */
  lemma DistributeLaws(cells: seq<Cell>, pool: real, target: real)
    requires PositiveMins(cells) && Fresh(cells) && pool >= 0.0
    ensures
      var o := Distribute(cells, pool, target);
      && o.pool >= 0.0
      && SumBudget(o.cells) + o.pool == pool
      && AllFit(o.cells)
      && AllFair(o.cells)
      && Exhausted(o.cells, o.pool)
  {
    var marked := MarkInactive(cells, BelowMinOrderSize);
    SameMoneyFacts(cells, marked);
    FreshSum(cells);
    if Actives(marked) == [] {
    } else if pool < LeastMin(Actives(marked)) {
      var o := MarkActive(marked, BelowMinOrderSize);
      SameMoneyFacts(marked, o);
      ShareAtMostPool(pool, |Actives(marked)|);
      BelowLeastMin(marked, Share(pool, |Actives(marked)|));
      MarkKeepsExhausted(marked, pool, BelowMinOrderSize);
    } else {
      FillConserves(marked, pool, target);
      FillFits(marked, pool, target);
      FillFair(marked, pool, target);
      FillExhausts(marked, pool, target);
    }
  }

  lemma {:induction false} ShareAtMostPool(pool: real, n: nat)
    requires n > 0 && pool >= 0.0
    ensures Share(pool, n) <= pool
  {
    TimesMonotone(n - 1, Share(pool, n));
  }

  lemma {:induction false} TimesMonotone(k: nat, x: real)
    requires x >= 0.0
    ensures Times(k, x) >= 0.0
  {
    if k > 0 {
      TimesMonotone(k - 1, x);
    }
  }

  /** The loop never touches a candidate's limits. */
  predicate SameLimits(a: seq<Cell>, b: seq<Cell>) {
    |a| == |b| &&
    forall i :: 0 <= i < |a| ==>
      a[i].cap == b[i].cap && a[i].minSize == b[i].minSize && a[i].liquidity == b[i].liquidity
  }

  lemma {:induction false} RoundsKeepLimits(cells: seq<Cell>, shares: seq<real>, marked: bool, target: real)
    ensures SameLimits(cells, Rounds(cells, shares, marked, target))
    decreases shares
  {
    if shares != [] {
      RoundsKeepLimits(Round(cells, shares[0], target), shares[1..], marked, target);
      assert SameLimits(cells, Round(cells, shares[0], target));
    }
  }

  lemma FillKeepsLimits(cells: seq<Cell>, pool: real, target: real)
    requires PositiveMins(cells)
    ensures SameLimits(cells, Fill(cells, pool, target).cells)
  {
    var shares, marked := FillIsRounds(cells, pool, target);
    RoundsKeepLimits(cells, shares, marked, target);
  }

  lemma DistributeKeepsLimits(cells: seq<Cell>, pool: real, target: real)
    requires PositiveMins(cells)
    ensures SameLimits(cells, Distribute(cells, pool, target).cells)
  {
    FillKeepsLimits(MarkInactive(cells, BelowMinOrderSize), pool, target);
  }

  /** A candidate that was served has the target it was served with; the others have none yet. */
  predicate Targeted(cells: seq<Cell>, target: real) {
    forall i :: 0 <= i < |cells| ==> cells[i].target == (if cells[i].budget == 0.0 then 0.0 else target)
  }

  lemma RoundKeepsTargets(cells: seq<Cell>, share: real, target: real)
    requires PositiveMins(cells) && AllFit(cells) && Targeted(cells, target)
    ensures Targeted(Round(cells, share, target), target)
  {
    forall i | 0 <= i < |cells|
      ensures Serve(cells[i], share, target).target == (if Serve(cells[i], share, target).budget == 0.0 then 0.0 else target)
    {
      assert Fits(cells[i]) && cells[i].minSize > 0.0;
    }
  }

  lemma {:induction false} RoundsKeepTargets(cells: seq<Cell>, shares: seq<real>, marked: bool, target: real)
    requires PositiveMins(cells) && AllFit(cells) && Targeted(cells, target)
    ensures Targeted(Rounds(cells, shares, marked, target), target)
    decreases shares
  {
    if shares != [] {
      RoundKeepsMins(cells, shares[0], target);
      RoundKeepsFit(cells, shares[0], target);
      RoundKeepsTargets(cells, shares[0], target);
      RoundsKeepTargets(Round(cells, shares[0], target), shares[1..], marked, target);
    }
  }

  lemma FillTargets(cells: seq<Cell>, pool: real, target: real)
    requires PositiveMins(cells) && AllFit(cells) && Targeted(cells, target)
    ensures Targeted(Fill(cells, pool, target).cells, target)
  {
    var shares, marked := FillIsRounds(cells, pool, target);
    RoundsKeepTargets(cells, shares, marked, target);
  }

  /** After a distribution exactly the candidates that received something carry the target. */
  lemma DistributeTargets(cells: seq<Cell>, pool: real, target: real)
    requires PositiveMins(cells) && Fresh(cells)
    requires forall i :: 0 <= i < |cells| ==> cells[i].target == 0.0
    ensures Targeted(Distribute(cells, pool, target).cells, target)
  {
    FillTargets(MarkInactive(cells, BelowMinOrderSize), pool, target);
  }

  /** Every candidate's capacity was already cut to the depth of its book. */
  predicate CutToDepth(cells: seq<Cell>) {
    forall i :: 0 <= i < |cells| ==> cells[i].cap <= cells[i].liquidity || cells[i].cap == 0.0
  }

  predicate NoneSays(cells: seq<Cell>, r: Release) {
    forall i :: 0 <= i < |cells| ==> cells[i].release != r
  }

  // -------------------------------------------------------- what the reasons amount to

  /** Only a candidate that has all it may have is said to have reached its limit; the other reason is its order size. */
  predicate Explained(cells: seq<Cell>) {
    forall i :: 0 <= i < |cells| ==>
      && cells[i].release in {NoRelease, BelowMinOrderSize, SingleMarketLimitReached}
      && (cells[i].release == SingleMarketLimitReached ==> cells[i].budget == cells[i].cap)
  }

  lemma RoundExplains(cells: seq<Cell>, share: real, target: real)
    requires PositiveMins(cells) && AllFit(cells) && CutToDepth(cells) && Explained(cells)
    ensures CutToDepth(Round(cells, share, target)) && Explained(Round(cells, share, target))
  {
    forall i | 0 <= i < |cells|
      ensures Serve(cells[i], share, target).release in {NoRelease, BelowMinOrderSize, SingleMarketLimitReached}
      ensures Serve(cells[i], share, target).release == SingleMarketLimitReached ==>
        Serve(cells[i], share, target).budget == cells[i].cap
    {
      var c := cells[i];
      assert c.Active() ==> c.cap >= c.budget + c.minSize > 0.0;
    }
  }

  lemma {:induction false} RoundsExplain(cells: seq<Cell>, shares: seq<real>, marked: bool, target: real)
    requires PositiveMins(cells) && AllFit(cells) && CutToDepth(cells) && Explained(cells)
    ensures Explained(Rounds(cells, shares, marked, target))
    decreases shares
  {
    if shares != [] {
      RoundKeepsMins(cells, shares[0], target);
      RoundKeepsFit(cells, shares[0], target);
      RoundExplains(cells, shares[0], target);
      RoundsExplain(Round(cells, shares[0], target), shares[1..], marked, target);
    }
  }

  /** So a release reason is true of its candidate. */
  lemma ReleaseReasonsAreTrue(cells: seq<Cell>, pool: real, target: real)
    requires PositiveMins(cells) && Fresh(cells) && CutToDepth(cells)
    ensures Explained(Distribute(cells, pool, target).cells)
  {
    var marked := MarkInactive(cells, BelowMinOrderSize);
    var shares, last := FillIsRounds(marked, pool, target);
    RoundsExplain(marked, shares, last, target);
  }

  /**
   * The code `depth_insufficient` is never reported: capacity is cut to the depth before
   * the loop compares the two, so a market limited by its book reads `single_market_limit_reached`.
   */
  lemma DepthIsNeverBlamed(cells: seq<Cell>, pool: real, target: real)
    requires PositiveMins(cells) && Fresh(cells) && CutToDepth(cells)
    ensures NoneSays(Distribute(cells, pool, target).cells, DepthInsufficient)
  {
    ReleaseReasonsAreTrue(cells, pool, target);
  }

  /** Why a loop ends: nothing is left, or nobody has room for an order; or somebody has, but not the money. */
  predicate EndsFor(o: Outcome) {
    && o.reason in {NoPlanReason, BudgetRemainingBelowMinOrderSize}
    && (o.reason == NoPlanReason ==> o.pool <= 0.0 || Actives(o.cells) == [])
    && (o.reason == BudgetRemainingBelowMinOrderSize ==> Actives(o.cells) != [])
  }

  lemma {:induction false} FillEndsFor(cells: seq<Cell>, pool: real, target: real)
    requires PositiveMins(cells)
    ensures EndsFor(Fill(cells, pool, target))
    decreases RoundsLeft(cells, pool)
  {
    if Actives(cells) != [] && pool > 0.0 {
      var share := Share(pool, |Actives(cells)|);
      var next, left := Round(cells, share, target), pool - SumGrant(cells, share);
      if SumGrant(cells, share) <= 0.0 {
        FillMarks(cells, pool, target, share);
        SameMoneyFacts(cells, MarkActive(cells, BelowMinOrderSize));
      } else {
        RoundFacts(cells, pool, target, share);
        FillGoesOn(cells, pool, target, share, next, left);
        if !TooSmall(next, left) {
          FillEndsFor(next, left, target);
        }
      }
    }
  }

  lemma {:induction false} LeastMinIsOne(cells: seq<Cell>)
    requires cells != []
    ensures exists c :: c in cells && c.minSize == LeastMin(cells)
  {
    if |cells| > 1 {
      LeastMinIsOne(cells[1..]);
      assert cells == [cells[0]] + cells[1..];
    }
    assert cells[0] in cells;
  }

  lemma ActiveOnes(cells: seq<Cell>)
    ensures Actives(cells) == [] <==> forall i :: 0 <= i < |cells| ==> !cells[i].Active()
  {
    ActivesAreWithin(cells);
    if Actives(cells) == [] {
      forall i | 0 <= i < |cells| ensures !cells[i].Active() {
        if cells[i].Active() {
          ActivesWithin(cells, i);
        }
      }
    } else {
      assert Actives(cells)[0] in Actives(cells);
    }
  }

  lemma BelowEveryMin(cells: seq<Cell>, pool: real)
    requires Actives(cells) != []
    ensures pool < LeastMin(Actives(cells)) <==> forall i :: 0 <= i < |cells| && cells[i].Active() ==> pool < cells[i].minSize
  {
    ActivesAreWithin(cells);
    LeastMinIsOne(Actives(cells));
    forall i | 0 <= i < |cells| && cells[i].Active() ensures LeastMin(Actives(cells)) <= cells[i].minSize {
      ActivesWithin(cells, i);
    }
  }

  /** The reason of a whole distribution, in terms of the limits and order sizes it started from. */
  lemma PlanReasonExactlyWhen(cells: seq<Cell>, pool: real, target: real)
    requires PositiveMins(cells) && Fresh(cells)
    ensures
      var o := Distribute(cells, pool, target);
      && (o.reason == NoMarketMeetsMinOrderSize <==> forall i :: 0 <= i < |cells| ==> cells[i].cap < cells[i].minSize)
      && (o.reason == TotalBudgetInsufficient <==>
           && (exists i :: 0 <= i < |cells| && cells[i].cap >= cells[i].minSize)
           && (forall i :: 0 <= i < |cells| && cells[i].cap >= cells[i].minSize ==> pool < cells[i].minSize))
      && (o.reason == BudgetRemainingBelowMinOrderSize ==>
           exists i :: 0 <= i < |o.cells| && o.cells[i].cap - o.cells[i].budget >= o.cells[i].minSize)
      && (o.reason == NoPlanReason ==>
           o.pool <= 0.0 || forall i :: 0 <= i < |o.cells| ==> o.cells[i].cap - o.cells[i].budget < o.cells[i].minSize)
  {
    var marked := MarkInactive(cells, BelowMinOrderSize);
    assert forall i :: 0 <= i < |cells| ==> (marked[i].Active() <==> cells[i].cap >= cells[i].minSize);
    ActiveOnes(marked);
    if Actives(marked) != [] {
      BelowEveryMin(marked, pool);
      if pool >= LeastMin(Actives(marked)) {
        FillEndsFor(marked, pool, target);
        ActiveOnes(Fill(marked, pool, target).cells);
      }
    }
  }

  // ------------------------------------------------------------- how far fairness goes

  /** Rounds only add to a budget. */
  lemma {:induction false} RoundsOnlyAdd(cells: seq<Cell>, shares: seq<real>, marked: bool, target: real, i: nat)
    requires PositiveMins(cells) && i < |cells|
    ensures Rounds(cells, shares, marked, target)[i].budget >= cells[i].budget
    decreases shares
  {
    if shares != [] {
      RoundKeepsMins(cells, shares[0], target);
      RoundsOnlyAdd(Round(cells, shares[0], target), shares[1..], marked, target, i);
    }
  }

  lemma FillOnlyAdds(cells: seq<Cell>, pool: real, target: real, i: nat)
    requires PositiveMins(cells) && i < |cells|
    ensures Fill(cells, pool, target).cells[i].budget >= cells[i].budget
  {
    var shares, marked := FillIsRounds(cells, pool, target);
    RoundsOnlyAdd(cells, shares, marked, target, i);
  }

  /** A pool below a candidate's minimum order never serves it. */
  lemma {:induction false} RoundsSkipLarger(cells: seq<Cell>, shares: seq<real>, marked: bool, target: real, pool: real, i: nat)
    requires i < |cells| && SharesOf(shares, pool) && pool < cells[i].minSize
    ensures Rounds(cells, shares, marked, target)[i].budget == cells[i].budget
    decreases shares
  {
    if shares != [] {
      assert Round(cells, shares[0], target)[i] == cells[i];
      RoundsSkipLarger(Round(cells, shares[0], target), shares[1..], marked, target, pool, i);
    }
  }

  lemma FillSkipsLarger(cells: seq<Cell>, pool: real, target: real, i: nat)
    requires PositiveMins(cells) && i < |cells| && pool < cells[i].minSize
    ensures Fill(cells, pool, target).cells[i].budget == cells[i].budget
  {
    var shares, marked := FillIsRounds(cells, pool, target);
    RoundsSkipLarger(cells, shares, marked, target, pool, i);
  }

  /**
   * Of two candidates with room, an equal share that is an order for the second only goes
   * to the second: the first ends with nothing, although it has room for an order.
   */
  lemma SmallerMinimumIsServed(c: Cell, d: Cell, pool: real, target: real)
    requires c.budget == 0.0 && d.budget == 0.0 && c.Active() && 0.0 < d.minSize
    requires d.minSize <= Share(pool, 2) < c.minSize && Share(pool, 2) <= d.cap
    ensures
      var after := Distribute([c, d], pool, target).cells;
      && after[0].budget == 0.0 && after[0].Active()
      && after[1].budget >= Share(pool, 2)
  {
    var share := Share(pool, 2);
    var served := Serve(d, share, target);
    TwoActives(c, d);
    TwoIsDistributed(c, d, pool, target, share);
    assert Serve(c, share, target) == c;
    DistributeKeepsLimits([c, d], pool, target);
    FillSkipsLarger([c, served], share, target, 0);
    FillOnlyAdds([c, served], share, target, 1);
  }

  lemma TwoIsDistributed(c: Cell, d: Cell, pool: real, target: real, share: real)
    requires c.Active() && d.Active() && 0.0 < d.minSize <= share < c.minSize && share <= d.Room() && share == Share(pool, 2)
    ensures
      var next := [c, Serve(d, share, target)];
      && PositiveMins(next)
      && (Distribute([c, d], pool, target).cells == next
          || Distribute([c, d], pool, target).cells == Fill(next, share, target).cells)
  {
    TwoActives(c, d);
    TwoGrants(c, d, share);
    TwiceIsSum(share);
    assert MarkInactive([c, d], BelowMinOrderSize) == [c, d];
    assert Round([c, d], share, target) == [c, Serve(d, share, target)];
    RoundFacts([c, d], pool, target, share);
    FillGoesOn([c, d], pool, target, share, [c, Serve(d, share, target)], share);
  }

  lemma TwiceIsSum(share: real)
    ensures Times(2, share) == share + share
  {
    assert Times(1, share) == share;
  }

  /** From this pool, the first of two candidates only ends with less when it has no room for another order. */
  predicate FairFrom(c: Cell, d: Cell, pool: real, target: real)
    requires c.minSize > 0.0 && d.minSize > 0.0
  {
    var after := Distribute([c, d], pool, target).cells;
    after[0].budget < after[1].budget ==> after[0].Room() < after[0].minSize
  }

  /** So the order of the minimum sizes is all that fairness needs, and it needs it. */
  lemma FairFromEveryPoolExactlyWhen(c: Cell, d: Cell, target: real)
    requires Fresh([c, d]) && 0.0 < c.minSize <= c.cap && 0.0 < d.minSize <= d.cap
    ensures (forall pool: real :: pool >= 0.0 ==> FairFrom(c, d, pool, target)) <==> c.minSize <= d.minSize
  {
    assert [c, d][0] == c && [c, d][1] == d;
    if c.minSize <= d.minSize {
      forall pool: real | pool >= 0.0 ensures FairFrom(c, d, pool, target) {
        DistributeLaws([c, d], pool, target);
        DistributeKeepsLimits([c, d], pool, target);
        var after := Distribute([c, d], pool, target).cells;
        assert FairTo(after[0], after[1]);
      }
    } else {
      var pool := d.minSize + d.minSize;
      TimesIsProduct(2, Share(pool, 2));
      SmallerMinimumIsServed(c, d, pool, target);
      assert !FairFrom(c, d, pool, target);
    }
  }

  lemma TwoActives(c: Cell, d: Cell)
    requires c.Active() && d.Active() && c.minSize > 0.0 && d.minSize > 0.0
    ensures Actives([c, d]) == [c, d]
    ensures LeastMin([c, d]) == Min(c.minSize, d.minSize)
  {
    assert [c, d][1..] == [d];
  }

  lemma TwoGrants(c: Cell, d: Cell, share: real)
    ensures SumGrant([c, d], share) == Grant(c, share) + Grant(d, share)
  {
    assert [c, d][1..] == [d];
    assert SumGrant([d], share) == Grant(d, share) + SumGrant([], share);
  }

  lemma OneActive(c: Cell, share: real)
    requires c.minSize > 0.0
    ensures Actives([c]) == if c.Active() then [c] else []
    ensures c.Active() ==> LeastMin([c]) == c.minSize
    ensures SumGrant([c], share) == Grant(c, share)
  {
    assert [c][1..] == [];
  }

  /** A single candidate with room for the whole pool takes all of it. */
  lemma OneCandidateTakesAll(c: Cell, pool: real, target: real)
    requires c.budget == 0.0 && 0.0 < c.minSize <= pool <= c.cap
    ensures Distribute([c], pool, target).cells[0].budget == pool
  {
    OneActive(c, pool);
    assert MarkInactive([c], BelowMinOrderSize) == [c];
    assert Times(1, Share(pool, 1)) == pool;
    var next := Serve(c, pool, target);
    OneActive(next, pool);
    assert Round([c], pool, target) == [next];
    RoundFacts([c], pool, target, pool);
    assert next.budget == pool;
    NothingLeftNothingDone([next], target);
    assert Fill([c], pool, target).cells == [next];
  }

  lemma NothingLeftNothingDone(cells: seq<Cell>, target: real)
    requires PositiveMins(cells)
    ensures Fill(cells, 0.0, target).cells == cells
  {}

  // ---------------------------------------------------------------- a pool spent to the last

  predicate Uniform(cells: seq<Cell>, size: real) {
    forall i :: 0 <= i < |cells| && cells[i].Active() ==> cells[i].minSize == cells[i].Room() == size
  }

  lemma {:induction false} UniformGrants(cells: seq<Cell>, size: real)
    requires Uniform(cells, size)
    ensures SumGrant(cells, size) == Times(|Actives(cells)|, size)
  {
    if cells != [] {
      UniformGrants(cells[1..], size);
    }
  }

  lemma UniformShare(n: nat, size: real)
    requires n > 0 && size > 0.0
    ensures Share(Times(n, size), n) == size && Times(n, size) >= size
  {
    TimesIsProduct(n, size);
    TimesIsProduct(n, Share(Times(n, size), n));
    SameFactor(n as real, Share(Times(n, size), n), size);
    TimesMonotone(n - 1, size);
  }

  lemma OneRoundSpendsAll(cells: seq<Cell>, pool: real, size: real, target: real)
    requires PositiveMins(cells) && Actives(cells) != [] && Uniform(cells, size)
    requires pool > 0.0 && size == Share(pool, |Actives(cells)|)
    ensures Fill(cells, pool, target).pool == 0.0
  {
    UniformGrants(cells, size);
    RoundFacts(cells, pool, target, size);
  }

  /** Candidates that take one order of the same size each spend as many such orders to the last. */
  lemma UniformPoolIsSpent(cells: seq<Cell>, size: real, target: real)
    requires PositiveMins(cells) && size > 0.0 && Actives(cells) != [] && Uniform(cells, size)
    ensures Distribute(cells, Times(|Actives(cells)|, size), target).pool == 0.0
  {
    var marked := MarkInactive(cells, BelowMinOrderSize);
    SameMoneyFacts(cells, marked);
    UniformShare(|Actives(cells)|, size);
    LeastIsUniform(marked, size);
    OneRoundSpendsAll(marked, Times(|Actives(cells)|, size), size, target);
  }

  lemma SameFactor(n: real, x: real, y: real)
    requires n > 0.0 && n * x == n * y
    ensures x == y
  {}

  lemma {:induction false} ActivesAreWithin(cells: seq<Cell>)
    ensures forall c :: c in Actives(cells) ==> c in cells && c.Active()
  {
    if cells != [] {
      ActivesAreWithin(cells[1..]);
    }
  }

  lemma LeastIsUniform(cells: seq<Cell>, size: real)
    requires Actives(cells) != []
    requires forall i :: 0 <= i < |cells| && cells[i].Active() ==> cells[i].minSize == size
    ensures LeastMin(Actives(cells)) <= size
  {
    ActivesAreWithin(cells);
    assert Actives(cells)[0] in cells;
  }
}
