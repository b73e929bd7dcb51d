/**
 * The entry planner: from a book update it gathers a candidate for every token that has a
 * book, has them sized, and turns a positive allocation of the focus into a BUY intent.
 */
module EntryPlanner {
  import opened Wrappers
  import opened Domain
  import opened WaterFill
  import opened Allocation
  import opened Risk
  import opened EntrySizing

  /** What the planner sees of the account: its gate, its pauses and its money. */
  datatype AccountView = AccountView(
    allowNewEntries: bool,
    pausedMarkets: set<string>,
    balanceUsdc: real,
    allowanceUsdc: real,
    positions: seq<Position>,
    openOrders: seq<Order>)

  datatype PlanRequest = PlanRequest(
    market: Option<Market>,
    tokenId: string,
    orderbook: Option<Orderbook>,
    registryMarkets: seq<Market>,
    books: map<string, Orderbook>,
    account: Option<AccountView>,
    portfolioBudget: real,
    available: Option<real>,
    maxOrder: real,
    maxMarket: real,
    maxTotal: real,
    positions: seq<Position>,
    openOrders: seq<Order>)

  datatype EntryPlan = EntryPlan(
    market: Option<Market>,
    orderbook: Option<Orderbook>,
    plan: AllocationPlan,
    allocation: Option<Allocation>,
    intent: Option<OrderIntent>)
  {
    predicate ReadyToTrade() { intent.Some? && allocation.Some? && market.Some? }
  }

  datatype PlanResult = Planned(plan: EntryPlan) | RaisedMissingPrimary

  function AvailableUsdc(r: PlanRequest): Option<real> {
    if r.account.None? || r.available.Some? then r.available
    else Some(Min(r.account.value.balanceUsdc, r.account.value.allowanceUsdc))
  }

  function PositionsOf(r: PlanRequest): seq<Position> {
    if r.account.Some? && r.positions == [] then r.account.value.positions else r.positions
  }

  function OpenOrdersOf(r: PlanRequest): seq<Order> {
    if r.account.Some? && r.openOrders == [] then r.account.value.openOrders else r.openOrders
  }

  /** The position indexed under a key: the last one given. */
  function IndexedPosition(positions: seq<Position>, key: Key): Option<Position> {
    if positions == [] then None
    else
      var last := positions[|positions| - 1];
      if (last.conditionId, last.tokenId) == key then Some(last)
      else IndexedPosition(positions[..|positions| - 1], key)
  }

  function CandidateFor(r: PlanRequest, market: Market, tokenId: string, book: Orderbook): EntryCandidate {
    var key := (market.conditionId, tokenId);
    EntryCandidate(market, tokenId, book, IndexedPosition(PositionsOf(r), key), OrdersFor(OpenOrdersOf(r), key))
  }

  /** The book used for a candidate: the focus book for the focus token, the cached one otherwise. */
  function BookFor(r: PlanRequest, focus: Market, focusBook: Orderbook, market: Market, tokenId: string): Option<Orderbook> {
    if market.conditionId == focus.conditionId && tokenId == r.tokenId then Some(focusBook)
    else if tokenId in r.books then Some(r.books[tokenId])
    else None
  }

  /** Candidates of the first `n` tokens of a market: those with a book. */
  function TokenCandidates(r: PlanRequest, focus: Market, focusBook: Orderbook, market: Market, n: nat): seq<EntryCandidate>
    requires n <= |market.outcomes|
  {
    if n == 0 then []
    else
      var tokenId := market.outcomes[n - 1].tokenId;
      var book := BookFor(r, focus, focusBook, market, tokenId);
      TokenCandidates(r, focus, focusBook, market, n - 1)
      + (if book.None? then [] else [CandidateFor(r, market, tokenId, book.value)])
  }

  function MarketCandidates(r: PlanRequest, focus: Market, focusBook: Orderbook, markets: seq<Market>): seq<EntryCandidate> {
    if markets == [] then []
    else
      var last := markets[|markets| - 1];
      MarketCandidates(r, focus, focusBook, markets[..|markets| - 1])
      + TokenCandidates(r, focus, focusBook, last, |last.outcomes|)
  }

  function MarketsOf(r: PlanRequest, focus: Market): seq<Market> {
    if r.registryMarkets != [] then r.registryMarkets else [focus]
  }

  function EntryCandidates(r: PlanRequest, focus: Market, focusBook: Orderbook): (cs: seq<EntryCandidate>)
    ensures cs != []
  {
    var found := MarketCandidates(r, focus, focusBook, MarketsOf(r, focus));
    if found != [] then found else [CandidateFor(r, focus, r.tokenId, focusBook)]
  }

  function Both(x: real): Figure { Figure(Some(x), Some(x)) }

  function ContextOf(r: PlanRequest, focus: Market, focusBook: Orderbook): SizingContext {
    var key := (focus.conditionId, r.tokenId);
    SizingContext(Some(focus), Some(r.tokenId), Some(focusBook),
                  IndexedPosition(PositionsOf(r), key), OrdersFor(OpenOrdersOf(r), key),
                  EntryCandidates(r, focus, focusBook),
                  Both(r.portfolioBudget), Both(AvailableUsdc(r).GetOr(r.portfolioBudget)),
                  Both(r.maxOrder), Both(r.maxMarket), Both(r.maxTotal))
  }

  /** The strategy's BUY decision: never above the entry price, never without an amount. */
  function DecideEntry(config: StrategyConfig, market: Market, tokenId: string, book: Orderbook, amount: Figure)
    : (r: Option<OrderIntent>)
    ensures r.Some? ==> r.value.BuyIntent? && r.value.price == config.entryPriceMax && r.value.amountUsdc > 0.0
    ensures r.Some? <==>
      && book.bestAsk.Some? && book.bestAsk.value <= config.entryPriceMax
      && amount.Resolve().Some? && amount.Resolve().value > 0.0
  {
    if book.bestAsk.None? || book.bestAsk.value > config.entryPriceMax then None
    else if amount.Resolve().None? || amount.Resolve().value <= 0.0 then None
    else Some(BuyIntent(market.conditionId, FirstText(Some(tokenId), book.tokenId), config.entryPriceMax, amount.Resolve().value))
  }

  predicate EntriesBlocked(r: PlanRequest, focus: Market) {
    r.account.Some? && (!r.account.value.allowNewEntries || focus.conditionId in r.account.value.pausedMarkets)
  }

  function Unavailable(r: PlanRequest, reason: PlanReason): PlanResult {
    Planned(EntryPlan(r.market, r.orderbook, AllocationPlan(r.portfolioBudget, [], reason), None, None))
  }

  /** Every market the planner may look at asks for orders of some positive size. */
  predicate PositiveMarkets(r: PlanRequest) {
    && (r.market.Some? ==> r.market.value.minOrderSize > 0.0)
    && forall i :: 0 <= i < |r.registryMarkets| ==> r.registryMarkets[i].minOrderSize > 0.0
  }

  lemma {:induction false} TokenCandidatesFacts(r: PlanRequest, focus: Market, focusBook: Orderbook, market: Market, n: nat)
    requires n <= |market.outcomes|
    ensures forall i :: 0 <= i < |TokenCandidates(r, focus, focusBook, market, n)| ==>
      var c := TokenCandidates(r, focus, focusBook, market, n)[i];
      && c.market == market && c == CandidateFor(r, market, c.tokenId, c.orderbook)
      && BookFor(r, focus, focusBook, market, c.tokenId) == Some(c.orderbook)
      && exists k :: 0 <= k < n && market.outcomes[k].tokenId == c.tokenId
  {
    if n > 0 {
      TokenCandidatesFacts(r, focus, focusBook, market, n - 1);
    }
  }

  /** A candidate of one of these markets, built from the request. */
  predicate BuiltFrom(r: PlanRequest, focus: Market, focusBook: Orderbook, markets: seq<Market>, c: EntryCandidate) {
    && c == CandidateFor(r, c.market, c.tokenId, c.orderbook)
    && BookFor(r, focus, focusBook, c.market, c.tokenId) == Some(c.orderbook)
    && exists i :: 0 <= i < |markets| && markets[i] == c.market
  }

  lemma {:induction false} MarketCandidatesFacts(r: PlanRequest, focus: Market, focusBook: Orderbook, markets: seq<Market>)
    ensures forall i :: 0 <= i < |MarketCandidates(r, focus, focusBook, markets)| ==>
      BuiltFrom(r, focus, focusBook, markets, MarketCandidates(r, focus, focusBook, markets)[i])
  {
    if markets != [] {
      var n := |markets| - 1;
      var last := markets[n];
      MarketCandidatesFacts(r, focus, focusBook, markets[..n]);
      TokenCandidatesFacts(r, focus, focusBook, last, |last.outcomes|);
      var front := MarketCandidates(r, focus, focusBook, markets[..n]);
      var all := MarketCandidates(r, focus, focusBook, markets);
      forall i | 0 <= i < |all| ensures BuiltFrom(r, focus, focusBook, markets, all[i]) {
        if i < |front| {
          assert BuiltFrom(r, focus, focusBook, markets[..n], front[i]);
          var k :| 0 <= k < n && markets[..n][k] == front[i].market;
          assert markets[k] == all[i].market;
        } else {
          assert markets[n] == all[i].market;
        }
      }
    }
  }

  lemma EntryCandidatesFacts(r: PlanRequest, focus: Market, focusBook: Orderbook)
    ensures forall i :: 0 <= i < |EntryCandidates(r, focus, focusBook)| ==>
      var c := EntryCandidates(r, focus, focusBook)[i];
      && c == CandidateFor(r, c.market, c.tokenId, c.orderbook)
      && BookFor(r, focus, focusBook, c.market, c.tokenId) == Some(c.orderbook)
      && (c.market == focus || exists k :: 0 <= k < |r.registryMarkets| && r.registryMarkets[k] == c.market)
  {
    MarketCandidatesFacts(r, focus, focusBook, MarketsOf(r, focus));
  }

  lemma ContextIsPositive(r: PlanRequest, focus: Market, focusBook: Orderbook)
    requires PositiveMarkets(r) && r.market == Some(focus)
    ensures PositiveMinOrderSizes(CandidateSnapshots(ContextOf(r, focus, focusBook)))
  {
    EntryCandidatesFacts(r, focus, focusBook);
  }

  function PlanFromSizing(config: StrategyConfig, focus: Market, focusBook: Orderbook, tokenId: string, sizing: Sizing)
    : PlanResult
  {
    var allocation :=
      if sizing.allocation.Some? then sizing.allocation
      else Pick(sizing.plan.allocations, focus.conditionId, tokenId);
    var intent :=
      if allocation.Some? && allocation.value.buyBudget > 0.0 then
        DecideEntry(config, focus, FirstText(Some(allocation.value.tokenId), tokenId), focusBook,
                    Both(allocation.value.buyBudget))
      else None;
    Planned(EntryPlan(Some(focus), Some(focusBook), sizing.plan, allocation, intent))
  }

  function PlanEntry(config: StrategyConfig, r: PlanRequest): PlanResult
    requires PositiveMarkets(r)
  {
    if r.market.None? || r.orderbook.None? then Unavailable(r, MissingMarketState)
    else if EntriesBlocked(r, r.market.value) then Unavailable(r, PlanReason.EntryPaused)
    else
      ContextIsPositive(r, r.market.value, r.orderbook.value);
      match SizingFor(config, ContextOf(r, r.market.value, r.orderbook.value))
      case MissingPrimaryOutcome => RaisedMissingPrimary
      case Sized(sizing) => PlanFromSizing(config, r.market.value, r.orderbook.value, r.tokenId, sizing)
  }

  /** The candidates of one market, token by token, after those listed so far. */
  method AddCandidates(r: PlanRequest, focus: Market, focusBook: Orderbook, market: Market, listed: seq<EntryCandidate>)
      returns (candidates: seq<EntryCandidate>)
    ensures candidates == listed + TokenCandidates(r, focus, focusBook, market, |market.outcomes|)
  {
    candidates := listed;
    for t := 0 to |market.outcomes|
      invariant candidates == listed + TokenCandidates(r, focus, focusBook, market, t)
    {
      ghost var before := TokenCandidates(r, focus, focusBook, market, t);
      var tokenId := market.outcomes[t].tokenId;
      var book := BookFor(r, focus, focusBook, market, tokenId);
      if book.None? {
        assert TokenCandidates(r, focus, focusBook, market, t + 1) == before;
        continue;
      }
      var candidate := CandidateFor(r, market, tokenId, book.value);
      assert TokenCandidates(r, focus, focusBook, market, t + 1) == before + [candidate];
      assert listed + (before + [candidate]) == listed + before + [candidate];
      candidates := candidates + [candidate];
    }
  }

  method BuildEntryCandidates(r: PlanRequest, focus: Market, focusBook: Orderbook) returns (candidates: seq<EntryCandidate>)
    ensures candidates == MarketCandidates(r, focus, focusBook, MarketsOf(r, focus))
  {
    var markets := MarketsOf(r, focus);
    candidates := [];
    for m := 0 to |markets|
      invariant candidates == MarketCandidates(r, focus, focusBook, markets[..m])
    {
      assert markets[..m + 1][..m] == markets[..m];
      candidates := AddCandidates(r, focus, focusBook, markets[m], candidates);
    }
    assert markets[..|markets|] == markets;
  }

  method BuildEntryPlan(config: StrategyConfig, r: PlanRequest) returns (result: PlanResult)
    requires PositiveMarkets(r)
    ensures result == PlanEntry(config, r)
  {
    if r.market.None? || r.orderbook.None? {
      return Unavailable(r, MissingMarketState);
    }
    var focus, book := r.market.value, r.orderbook.value;
    if EntriesBlocked(r, focus) {
      return Unavailable(r, PlanReason.EntryPaused);
    }
    var candidates := BuildEntryCandidates(r, focus, book);
    if candidates == [] {
      candidates := [CandidateFor(r, focus, r.tokenId, book)];
    }
    ContextIsPositive(r, focus, book);
    var context := ContextOf(r, focus, book).(candidates := candidates);
    var sized := SizeEntry(config, context);
    if sized == MissingPrimaryOutcome {
      return RaisedMissingPrimary;
    }
    return PlanFromSizing(config, focus, book, r.tokenId, sized.sizing);
  }
}
