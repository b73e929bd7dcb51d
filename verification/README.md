# Verified model of the trading runtime

The runtime trades event markets: it discovers markets, sizes entries over a portfolio,
checks every order against a list of gates, keeps an account ledger from order results,
and reconciles that ledger with the exchange. This project models the parts whose
guarantees span several functions, and proves them.

- `WaterFill`, `Allocation`, `AmountLaws`, `EntrySizing`, `EntryLaws`, `TotalLimit`,
  `EntryPlanner`, `SelectionLaws`, `Risk`, `EntryGate`: the equal-weight allocator as a loop over mutable candidates, the strategy's
  sizing around it, the total limit it keeps, the planner, the risk gate, and the theorem
  that what the allocator returns meets the conditions the gate checks on its own.
- `AccountStore`, `AccountLaws`, `Projection`, `ReconcileActions`, `HoldingLaws`, `OrderLaws`,
  `LedgerLaws`, `LedgerRuns`: the account state, the projection of order results, the
  reconcile actions, holdings as the sum of their fills, and the agreement between the shares
  being sold as maintained and as recomputed, over whole runs.
- `Reconcile`, `Recovery`, `DecisionLaws`, `RecoveryLaws`, `PassLaws`, `PauseLaws`, `Quarantine`, `EntryLatch`:
  reconcile passes under an arbitrary extension, a pass of the current strategy as a
  fixpoint, which pauses last, and the latch that lets one entry order through per market.
- `EventBus`, `BusLaws`: the low-priority lanes against one first-in first-out list.
- `Discovery`, `DiscoveryLaws`, `DiscoveryTurns`: cursor chains and round-robin turns.
- `Registry`, `RegistryLaws`, `RegistryReaders`: indexes against scans, and readers without locks.
- `Persistence`, `PersistenceLaws`: merging, writing and settling a batch.
- `Fees`: taker fees and their rounding.
- `Wrappers`, `Dict`, `Domain`: optional values, insertion-ordered dictionaries, and the
  entities shared by all.

Where the code updates objects step by step the model is a class whose methods are proved
against a function of the old state; the laws are lemmas about those functions. Code between
two suspension points is one step. Amounts are exact reals.

`dafny verify dfyconfig.toml` checks the project.

## Where the code does less than one might expect

- The total limit counts the exposure of buyable markets only (`TotalLimit.TotalIsAlwaysKeptExactlyWhen`).
- The release reason for insufficient depth is unreachable (`EntryLaws.PlanNeverBlamesDepth`).
- A BUY result handled with an old snapshot writes back old shares being sold
  (`LedgerLaws.BuyKeepsAgreementExactlyWhen`).
- A recovery sale is stored under an id made of the pass's trace, so a repeated trace
  overwrites it (`PassLaws.PassIsFixpointExactlyWhen`).
- A manual replacement that fills at once stays in the ledger as an open order
  (`LedgerLaws.FilledByHandMisleadsExactlyWhen`).
- A lasting pause without a reason, or with a recoverable one, is softened by the next pass
  (`PauseLaws.StickyPauseLastsExactlyWhen`).
- Stopping entries is undone by the next refused order or reconcile
  (`AccountLaws.StopIsLiftedByNextDecision`).
- The consumer of all lanes lets later events overtake retained ones
  (`BusLaws.NextEventLetsLaterEventsOvertake`); the runtime's workers use the other consumers.
- The allocator and the gate read different depths off a book whose levels do not count but whose top of book
  does (`EntryGate.DepthsDifferExactlyWhen`).
- Removing a market that shares a token leaves the other one unindexed (`RegistryLaws.SharedKeyIsLost`).
- Balance updates are never acknowledged (`PersistenceLaws.BalanceUpdateIsNeverAcknowledged`).
- A fee preview can show a negative rate that its quotes do not use
  (`Fees.PreviewShowsItsRateExactlyWhen`).

## Model

| member | source | states |
|---|---|---|
| WaterFill.RoundFacts | src/strategies/current/allocation.py:159-215 | a round that gives anything hands out at least the least minimum and at most the pool, so the loop ends: what decreases is the pool divided by the smallest minimum size |
| WaterFill.FillConserves | src/strategies/current/allocation.py:159-225 | budgets handed out plus what is left of the pool are the pool, over the whole loop |
| WaterFill.FillFair | src/strategies/current/allocation.py:159-225 | max-min fairness: with a minimum size no larger than j's, i ends with less than j only if i's remaining capacity is below its minimum |
| WaterFill.FillExhausts | src/strategies/current/allocation.py:159-225 | the loop stops only with an empty pool, or when no candidate can take an equal share of what is left |
| WaterFill.EarlyExitIsInvisible | src/strategies/current/allocation.py:217-225 | leaving out the early exit changes no buy budget |
| WaterFill.DistributeLaws | src/strategies/current/allocation.py:131-225 | conservation, individual limits, fairness and work conservation of a whole distribution |
| WaterFill.DepthIsNeverBlamed | src/strategies/current/allocation.py:344-354 | the release reason for insufficient depth is never reported, because capacity is cut to the depth before the two are compared |
| WaterFill.ReleaseReasonsAreTrue | src/strategies/current/allocation.py:172-204 | a candidate released for its market limit has all it may have; the only other reason is its order size |
| WaterFill.PlanReasonExactlyWhen | src/strategies/current/allocation.py:144-225 | the reason of a distribution: nobody's limit makes an order, or the money makes none for anybody who could take one, or the money ran out, or somebody with room was left over |
| WaterFill.SmallerMinimumIsServed | src/strategies/current/allocation.py:182-194 | of two candidates with room, an equal share that is an order for the one only goes to it: the other, with the larger minimum size, ends with nothing although it has room for an order |
| WaterFill.FairFromEveryPoolExactlyWhen | src/strategies/current/allocation.py:159-225 | of two candidates with room, the first is treated fairly from every pool if and only if its minimum size is no larger than the second's |
| WaterFill.UniformPoolIsSpent | src/strategies/current/allocation.py:159-225 | a pool of as many orders as there are candidates that take one such order each is spent to the last |
| WaterFill.OneCandidateTakesAll | src/strategies/current/allocation.py:159-225 | a single candidate with room for the whole pool receives all of it |
| Allocation.HardCapacity | src/strategies/current/allocation.py:297-319 | the most a market may receive is never negative and stays within what is left of the market limit, the order limit, the money available and the depth; unless nothing, it reaches one of them |
| Allocation.InitialPool | src/strategies/current/allocation.py:131-139 | what may be spent stays within the budget, the money available and what the total limit leaves beside the exposure given; unless nothing, it reaches one of them |
| Allocation.AskDepthNotional | src/strategies/current/allocation.py:330-341 | the loop over the book sums the ask levels at or below the cap; the top of book stands in for a book without levels |
| Allocation.Candidate.Offer | src/strategies/current/allocation.py:172-204 | offering a share changes the candidate in place as one cell of a round, and says what it took and whether it stays |
| Allocation.DistributeRound | src/strategies/current/allocation.py:170-205 | one pass over the active candidates serves each, collects those that stay and adds up what was spent |
| Allocation.RunRounds | src/strategies/current/allocation.py:159-225 | the in-place loop over candidate objects leaves the budgets, the pool and the reason of the recursive account of it |
| Allocation.EqualWeightPlan | src/strategies/current/allocation.py:61-266 | the method with its mutable candidates returns the plan the specification gives, skipped markets first |
| Domain.CurrentExposureUsdc | src/polymarket_trader/domain/allocation.py:68-94 | exposure is the position's cost, its cost share of what is being sold, and the resting BUY orders |
| Domain.ExposureNonNegative | src/polymarket_trader/domain/allocation.py:68-94 | exposure of a ledger without negative amounts is not negative |
| AmountLaws.SellingCountsTwice | src/polymarket_trader/domain/allocation.py:71-78 | while shares are being sold, exposure times shares is cost times shares held and sold together |
| AmountLaws.OversellingCountsTwice | src/polymarket_trader/domain/allocation.py:71-78 | selling more than is held counts the cost twice |
| AmountLaws.OtherwiseCostCounts | src/polymarket_trader/domain/allocation.py:71-78 | with nothing sold, or no shares, exposure is the cost, and without a position nothing |
| AmountLaws.OrderAdds | src/polymarket_trader/domain/allocation.py:79-94 | a BUY order that may rest adds its amount, else its notional, else price times size; SELL and fill-and-kill orders add nothing |
| AmountLaws.WithinMarketLimit | src/strategies/current/allocation.py:297-319 | what a market may receive and what it ties up already, its cost counted with the share being sold, stay within the market limit |
| AmountLaws.DepthGrowsWithCap | src/strategies/current/allocation.py:330-341 | a higher price cap, or none, never shows less depth |
| AmountLaws.LevelAdds | src/strategies/current/allocation.py:330-341 | a level adds price times size when it is within the cap, and nothing otherwise |
| AmountLaws.TopStandsIn | src/strategies/current/allocation.py:330-341 | without levels the best ask and its size stand in, within the cap; without them there is no depth |
| EntrySizing.SplitCandidates | src/strategies/current/trading.py:81-110 | candidates are split into buyable ones, with their depth cut at the entry price, and skipped ones by key; a market of the universe without its primary outcome stops the split |
| EntrySizing.MergeAllocationPlan | src/strategies/current/trading.py:389-413 | the merged plan lists one allocation per candidate in candidate order |
| EntrySizing.SizeEntry | src/strategies/current/trading.py:26-126 | sizing as a whole, with every early answer for a missing figure |
| SelectionLaws.BuyableExactlyWhen | src/strategies/current/trading.py:322-367 | a candidate is handed to the allocator exactly when it qualifies: primary outcome, trading market, filter, fresh book within the entry price and the spread |
| SelectionLaws.SkipReasonIsTrue | src/strategies/current/trading.py:322-367 | the reason a skipped candidate is given says something that is so of it |
| SelectionLaws.FundedCandidatesQualify | src/strategies/current/trading.py:81-126 | whatever the limits, no candidate receives money that does not qualify |
| SelectionLaws.SizingNeedsItsFigures | src/strategies/current/trading.py:26-80 | which missing figure is named, and that nothing is planned without it |
| SelectionLaws.FocusIsAnswered | src/strategies/current/trading.py:114-126 | the allocation of a sizing is that of the token asked for, or else of the token of the book |
| EntryLaws.PlanNeverOverspends | src/strategies/current/allocation.py:131-225 | the sum of buy budgets is at most the budget, the money available, and what the total limit leaves beside the exposure of the markets given to the allocator |
| EntryLaws.PlanStaysWithinLimits | src/strategies/current/allocation.py:297-319 | each budget is zero or lies between the market's minimum order size and its hard capacity |
| EntryLaws.PlanNeverBlamesDepth | src/strategies/current/allocation.py:61-128 | so no allocation of any plan is released for insufficient depth |
| EntryLaws.SkippedExactlyWhen | src/strategies/current/allocation.py:273-295 | a market is skipped exactly when one of the eight conditions fails, and the reason names one that does |
| EntryLaws.FundedMarketsMayReceive | src/strategies/current/allocation.py:61-128 | whatever the markets and the limits, no market receives money that fails one of them |
| EntryLaws.MergeKeepsTotal | src/strategies/current/trading.py:389-413 | when no candidate that can be bought shares its key, merging skipped markets back in keeps the total |
| EntryLaws.MergedPlan | src/strategies/current/trading.py:81-126 | the merged plan holds for every candidate its own allocation, within its limits, and its total stays within what may be spent |
| EntryLaws.MergedTotal | src/strategies/current/trading.py:389-413 | for any candidates, bought and skipped, and any allocations, the merged total differs from the allocated one by exactly what the merged table holds for the candidates beyond their own allocations, however often keys repeat |
| EntryLaws.EveryTotalIsKeptExactlyWhen | src/strategies/current/trading.py:389-413 | merging keeps the total of every plan if and only if no candidate that can be bought shares its key with another candidate, bought or skipped |
| TotalLimit.TotalIsKeptBeside | src/strategies/current/trading.py:81-126 | the plan stays within the total limit beside the exposure of all markets looked at whenever the limit has room for the whole pool beside it, which can be told before planning |
| TotalLimit.TotalIsAlwaysKeptExactlyWhen | src/strategies/current/trading.py:81-126 | under every set of limits that is not exceeded already the plan stays within the total limit beside all markets, if and only if the skipped markets hold nothing or no market that can be bought has depth for an order |
| TotalLimit.SpentBeyond | src/strategies/current/allocation.py:131-225 | for buyable markets with depth and anything held elsewhere there are limits, not exceeded already, that the plan exceeds |
| EntryLaws.TargetsAreEqualShares | src/strategies/current/allocation.py:357-384 | every eligible market has the same target, the targets add up to the portfolio budget, and what a market does not receive of its target is released |
| EntryPlanner.BuildEntryCandidates | src/polymarket_trader/app/entry_planner.py:281-340 | the nested loops collect a candidate for every token of every registered market that has a book |
| EntryPlanner.BuildEntryPlan | src/polymarket_trader/app/entry_planner.py:38-180 | the planner: unavailable market, entries paused, sizing, the intent of a positive allocation |
| EntryPlanner.DecideEntry | src/strategies/current/trading.py:129-164 | an entry decision is a BUY at the entry price, made if and only if the best ask is known and no higher and the amount is known and positive |
| SelectionLaws.BookedTokenIsCandidate | src/polymarket_trader/app/entry_planner.py:281-340 | every token of a registered market that has a book is a candidate, with that book and its own position and orders |
| SelectionLaws.CandidateHasBook | src/polymarket_trader/app/entry_planner.py:281-340 | and every candidate is one |
| SelectionLaws.EntersExactlyWhen | src/polymarket_trader/app/entry_planner.py:77-180 | a plan is ready exactly when the market is available, entries are open, the focus receives money and its ask is no higher than the entry price |
| SelectionLaws.EntrySpendsWithinMoney | src/polymarket_trader/app/entry_planner.py:374-387 | a ready entry spends at most the money given, or else both the balance and the allowance of the account |
| Risk.CheckOrderIntent | src/polymarket_trader/domain/risk.py:38-196 | the sequence of checks refuses at the gate the specification names, is retryable exactly for missing liquidity, and passes exactly when every logged check passed |
| Risk.CheckMarketState | src/polymarket_trader/domain/risk.py:256-318 | the market flags are checked in order, the first one that fails refuses |
| Risk.CheckExposure | src/polymarket_trader/domain/risk.py:384-443 | order, market and total limits against the exposure recomputed from position and subject orders |
| Risk.OrderbookDepthUsdc | src/polymarket_trader/domain/risk.py:699-711 | depth at or below the limit price, or the top of book when no level counts |
| Risk.HasPendingBuy | src/polymarket_trader/domain/risk.py:728-749 | a BUY order of the subject that has not ended is pending |
| Risk.RestingBuyRefuses | src/polymarket_trader/domain/risk.py:549-578 | with a resting BUY order of the token no check list passes, and without one the last gate never refuses |
| Risk.MarketGatesMean | src/polymarket_trader/domain/risk.py:256-361 | what the gates on market and price ask for, in terms of the market, the flags given and the book |
| Risk.TickGateMeans | src/polymarket_trader/domain/risk.py:680-696 | a price is on the tick exactly when it is a whole number of ticks, of the book or else of the market |
| Risk.MinimumGateMeans | src/polymarket_trader/domain/risk.py:667-677 | the least order is the larger of the market's minimum and the one given |
| Risk.PortfolioTotal | src/polymarket_trader/domain/risk.py:614-628 | the total already invested is the figure given, or what makes the plan's total together with the intent, and never negative |
| Risk.RefusalIsFirstFailure | src/polymarket_trader/domain/risk.py:38-196 | the refusing gate is the first of the twenty-two that the intent does not meet, and none refuses exactly when all are met |
| Risk.OnlyFirstFailureRefuses | src/polymarket_trader/domain/risk.py:38-196 | there is only one such gate, so an intent is refused at a gate exactly when that gate is the first it does not meet |
| EntryGate.SnapshotsHaveDistinctKeys | src/polymarket_trader/app/entry_planner.py:281-340 | candidates of a registry without repeated markets or tokens have distinct keys |
| EntryGate.SameExposure | src/polymarket_trader/domain/risk.py:384-443 | gate and allocator compute the same exposure for the focus token |
| EntryGate.EntryIsRefusedOnlyFor | src/polymarket_trader/workers/trading_decision_worker.py:208-230 | a BUY intent built from a positive sizing is never refused for size, market state, minimum, order, market or total limit or liquidity; the gate's answer is exactly the first of price, tick, order count, retries, balance, allowance and pending BUY |
| EntryGate.BalanceCoversAvailable | src/polymarket_trader/workers/trading_decision_worker.py:208-230 | the balance does not refuse it either when it covers the money the planner was told is available |
| EntryGate.FirstTryIsRefusedExactlyWhen | src/polymarket_trader/workers/trading_decision_worker.py:208-230 | a review is a first try, refused for retries exactly when none are allowed |
| EntryGate.EntryHasPrice | src/polymarket_trader/domain/risk.py:320-361 | without negative sizes in the book the price gate never refuses such an intent |
| AccountStore.AccountSnapshot.OpenSellSharesForMarket | src/polymarket_trader/domain/account.py:155-162 | the shares being sold are summed over the open SELL orders of the token |
| AccountStore.AccountStateStore.ReplaceAllPositions | src/polymarket_trader/runtime/account_state.py:54-60 | replacing all positions assigns each under its key in turn and publishes |
| AccountStore.AccountStateStore.UpsertOpenOrder | src/polymarket_trader/runtime/account_state.py:62-68 | an order is stored under its id, else its idempotency key, else its description, and the snapshot shows the new fields |
| AccountStore.AccountStateStore.MarkUserWsConnected | src/polymarket_trader/runtime/account_state.py:95-103 | a drop closes entries and forgets the reconcile; a connection opens them only after one |
| AccountStore.AccountStateStore.SetAllow | src/polymarket_trader/runtime/account_state.py:105-108 | entries are allowed only while the gate can open |
| AccountStore.AccountStateStore.Pause | src/polymarket_trader/runtime/account_state.py:110-125 | a pause is stored under its market with its derived source and recoverability |
| OrderLaws.StoredUnder | src/polymarket_trader/app/order_projection.py:52-55 | an order is named by its id, or else by its idempotency key |
| OrderLaws.PauseIs | src/polymarket_trader/domain/account.py:56-78 | who a pause is put down to by its reason, and whether reconciling may lift it |
| AccountStore.AccountStateStore.Reconciled | src/polymarket_trader/runtime/account_state.py:132-136 | a reconcile opens entries when the user stream is connected |
| AccountLaws.EntriesAllowedExactlyWhen | src/polymarket_trader/runtime/account_state.py:95-139 | in every reachable state entries are allowed if and only if the user stream is connected, a reconcile came after its last drop, and the last decision was not a stop |
| AccountLaws.RunsAreWellKeyed | src/polymarket_trader/runtime/account_state.py:49-130 | over every run positions, orders and pauses are stored once, under their own keys |
| AccountLaws.FirstPositionIsGet | src/polymarket_trader/domain/account.py:108-112 | scanning a published snapshot for a position finds the stored one |
| AccountLaws.SellSharesIsTotal | src/polymarket_trader/domain/account.py:148-162 | the recomputed shares being sold are a sum over the stored orders |
| Projection.AccountStateProjector.ApplyBuyResult | src/polymarket_trader/app/order_projection.py:127-170 | a BUY result adds its filled shares and cost to the position of the snapshot it was handled with |
| Projection.AccountStateProjector.ApplySellResult | src/polymarket_trader/app/order_projection.py:172-252 | a SELL result stores or removes its order and moves the shares being sold |
| Projection.AccountStateProjector.ApplyResultFlags | src/polymarket_trader/app/order_projection.py:254-268 | an unexpected resting order stops entries and pauses its market; a refusal asks to allow entries again |
| Projection.AccountStateProjector.ApplySubmittedIntent | src/polymarket_trader/app/order_projection.py:270-331 | a submitted intent becomes a submitted order and raises its position's open shares |
| Projection.AccountStateProjector.RefreshPositionCoverage | src/polymarket_trader/app/order_projection.py:404-448 | open shares are recomputed from the orders of the token |
| Projection.AccountStateProjector.ApplyReplaceResult | src/polymarket_trader/app/order_projection.py:333-402 | the source order goes, the replacement is kept unless it ended, coverage is recomputed |
| HoldingLaws.FillIsBooked | src/polymarket_trader/app/order_projection.py:127-170 | a fill adds what was matched to the shares and what was spent to the cost of the position it was handled with, and to its confirmed shares |
| HoldingLaws.UnreportedFill | src/polymarket_trader/app/order_projection.py:76-91 | a fill that does not say how much: what is missing of the size asked for, or the notional divided by the price |
| HoldingLaws.NoFillStoresNothing | src/polymarket_trader/app/order_projection.py:127-170 | any other BUY result leaves the positions as they are |
| HoldingLaws.HoldingsAreFills | src/polymarket_trader/app/order_projection.py:127-448 | over every run of results, submissions, cancels, replaces and reports whose fills see current positions, the shares of a token and its cost are what they were plus what its fills matched and spent; nothing else moves them |
| OrderLaws.RefreshBooks | src/polymarket_trader/app/order_projection.py:404-448 | recomputed coverage is the sum of what remains of the token's open orders, side by side |
| OrderLaws.SellAdds | src/polymarket_trader/domain/account.py:148-162 | an open SELL order adds what remains of it, or else its size, to the shares being sold |
| OrderLaws.BuyAdds | src/polymarket_trader/app/order_projection.py:404-448 | an open BUY order adds the same to the shares being bought, never less than nothing |
| OrderLaws.RefreshOfUnknown | src/polymarket_trader/app/order_projection.py:404-448 | a token without a position is given an empty one exactly when something of it is open |
| OrderLaws.PositionsAreReplaced | src/polymarket_trader/runtime/account_state.py:54-60 | after positions are replaced each is found under its own key, the last one where two share it |
| OrderLaws.UnreportedPositionIsGone | src/polymarket_trader/runtime/account_state.py:54-60 | and a position that was not given is gone |
| OrderLaws.OrdersAreReplaced | src/polymarket_trader/runtime/account_state.py:75-83 | the same for orders |
| OrderLaws.UnreportedOrderIsGone | src/polymarket_trader/runtime/account_state.py:75-83 | and an order that was not given is gone |
| OrderLaws.SubmissionBooks | src/polymarket_trader/app/order_projection.py:270-331 | a submission is stored as a submitted order under its key, or one made of its trace |
| OrderLaws.SubmissionRaises | src/polymarket_trader/app/order_projection.py:293-331 | and raises the shares being bought by what its amount buys at its price, or the shares being sold by its size |
| OrderLaws.SellResultBooks | src/polymarket_trader/app/order_projection.py:197-252 | the order a resting or partly filled SELL leaves open: what it says remains, or else the size asked for less what was matched |
| OrderLaws.SizeAnswered | src/polymarket_trader/app/order_projection.py:469-477 | the size a SELL result takes for its order: what remained of it, or else its size |
| OrderLaws.SizeTakenBack | src/polymarket_trader/app/order_projection.py:58-65 | the size a cancel or a replace takes back: what remains, or else the size, or else the amount |
| OrderLaws.StatusesAre | src/polymarket_trader/app/order_projection.py:26-36 | the order status each result status ends in |
| OrderLaws.FlagsSay | src/polymarket_trader/app/order_projection.py:254-268 | refusals let entries in again when the gate can open, a resting fill-and-kill order shuts them out, anything else leaves entries and pauses as they are |
| OrderLaws.FlagsShowMoney | src/polymarket_trader/app/order_projection.py:450-456 | balance and allowance are then those of the snapshot |
| OrderLaws.ByHandSays | src/polymarket_trader/app/order_projection.py:347-402 | the order a manual replacement leaves, its price, size and remainder |
| OrderLaws.ByHandIsWorth | src/polymarket_trader/app/order_projection.py:363-369 | it is worth what the result says, or else its price times its size |
| OrderLaws.ByHandStaysExactlyWhen | src/polymarket_trader/app/order_projection.py:333-402 | the source of a manual replacement goes, the replacement is stored exactly when it rests, filled in part or filled at once, and no other order is touched |
| ReconcileActions.ReconcileActionApplier.ApplyCancel | src/polymarket_trader/workers/reconcile_action_applier.py:68-99 | a confirmed cancel removes the order and releases its open shares |
| ReconcileActions.ReconcileActionApplier.ApplySubmitOrder | src/polymarket_trader/workers/reconcile_action_applier.py:101-140 | an accepted submission is projected, a refused one changes nothing |
| ReconcileActions.ReconcileActionApplier.ApplyReplace | src/polymarket_trader/workers/reconcile_action_applier.py:142-263 | a confirmed replace swaps the order and moves the open shares by the difference |
| OrderLaws.EntryCancelBooks | src/polymarket_trader/workers/reconcile_action_applier.py:68-99 | a confirmed cancel of a BUY order leaves no shares being bought and moves nothing else of its position |
| OrderLaws.ReplacementSays | src/polymarket_trader/workers/reconcile_action_applier.py:177-240 | the order a replace puts in place of its source: price, size, notional, remainder, status and side |
| OrderLaws.SourceIsCurrent | src/polymarket_trader/workers/reconcile_action_applier.py:160-172 | the order a replace names is looked up among the current orders, and only without one there in the snapshot of the pass |
| OrderLaws.EntryReplaceBooks | src/polymarket_trader/workers/reconcile_action_applier.py:177-263 | a replaced BUY order takes what was left of it from the shares being bought and adds what is left of its replacement |
| OrderLaws.UnknownSourceAdds | src/polymarket_trader/workers/reconcile_action_applier.py:173-263 | without a source order the replacement only adds what is left of it |
| LedgerRuns.DistinctIdsKeepAgreement | src/polymarket_trader/app/order_projection.py:172-448 | they are equal over every run in which each order id belongs to one side of one token, new orders get ids not in play, results say what is left of their orders, and stored orders are replaced |
| LedgerRuns.RunsFromTheStartAgree | src/polymarket_trader/app/order_projection.py:172-448 | so they are equal after every such run from an empty account |
| LedgerRuns.CancelIsWellFormed | src/polymarket_trader/app/reconcile_service.py:300-376 | the cancel a plan builds from the current orders takes its order away with the side and size it is stored with |
| LedgerLaws.IncrementsAgreeWithRecompute | src/polymarket_trader/app/order_projection.py:172-448 | over every history of results, submissions, cancels and replaces that are each well-formed for the state they meet, the maintained shares being sold equal the recompute from open SELL orders, for every token |
| LedgerLaws.SellKeepsAgreementExactlyWhen | src/polymarket_trader/app/order_projection.py:197-252 | a SELL result keeps that agreement if and only if the size it takes for its order is what the order stored under its id was selling, or exceeds all there is when that order was all |
| LedgerLaws.BuyKeepsAgreementExactlyWhen | src/polymarket_trader/app/order_projection.py:127-170 | a BUY result keeps it if and only if its snapshot still shows the current shares being sold |
| LedgerLaws.SubmissionKeepsAgreementExactlyWhen | src/polymarket_trader/app/order_projection.py:270-331 | a submission keeps it if and only if the id it is stored under sells nothing yet |
| LedgerLaws.RefreshRestores | src/polymarket_trader/app/order_projection.py:404-448 | recomputing coverage makes a token agree whatever it was before |
| LedgerLaws.CancelKeeps | src/polymarket_trader/workers/reconcile_action_applier.py:68-99 | a cancel of the stored order keeps the agreement |
| LedgerLaws.ReplaceKeeps | src/polymarket_trader/workers/reconcile_action_applier.py:142-263 | a replace of the stored order, under its own or a fresh id, keeps the agreement |
| LedgerLaws.ReplacementKeeps | src/polymarket_trader/app/order_projection.py:333-402 | a manual replace keeps the agreement |
| LedgerLaws.AnsweredById | src/polymarket_trader/app/order_projection.py:469-477 | a result that names its order is matched with the order stored under that name |
| LedgerLaws.FilledByHandIsLeftOpen | src/polymarket_trader/app/order_projection.py:347-402 | a manual replacement answered by a full fill leaves its order open in the ledger, matched and with nothing remaining, and what the source was selling is no longer sold |
| LedgerLaws.FilledByHandMisleadsExactlyWhen | src/polymarket_trader/app/order_projection.py:278-402 | after it, a later full fill under the same id breaks the agreement if and only if the replaced order was not all that was being sold of the token |
| LedgerLaws.FilledReplacementMisleadsExactlyWhen | src/polymarket_trader/app/order_projection.py:347-402 | a replacement filled at once stays as an open order with nothing left; a later full fill under its id breaks the agreement if and only if anything else of the token is being sold |
| Reconcile.ReconcileWorker.BuildMarketPlan | src/polymarket_trader/app/reconcile_service.py:163-278 | the plan of a market: a resume, the extension's actions, a pause, and the reason of the pause |
| Reconcile.ReconcileWorker.ReconcileOnce | src/polymarket_trader/workers/reconcile_worker.py:196-326 | a pass pauses, applies every action in order and marks the account reconciled |
| DecisionLaws.DecisionBecomes | src/polymarket_trader/app/reconcile_service.py:281-334 | the action each decision of an extension becomes, and when it becomes none |
| DecisionLaws.PlanPausesExactlyWhen | src/polymarket_trader/app/reconcile_service.py:206-237 | a plan pauses its market exactly when the market ended, has a pause that is not recoverable, or the extension asks for it |
| DecisionLaws.PauseReasonIs | src/polymarket_trader/app/reconcile_service.py:337-376 | the reason of the pause: that of a pause that stays, the extension's, or the market's own |
| DecisionLaws.PassPausesExactlyWhen | src/polymarket_trader/workers/reconcile_worker.py:251-275 | after a pass a market is paused exactly then, by the reconcile worker and never without a reason |
| DecisionLaws.ExtensionSees | src/polymarket_trader/app/reconcile_service.py:350-358 | the extension is shown the whole account, but for the market's own pause when that is recoverable |
| DecisionLaws.UnconfirmedPlanKeepsLedger | src/polymarket_trader/workers/reconcile_action_applier.py:68-158 | a plan none of whose actions the exchange confirms moves no order and no position |
| Recovery.DecideRecovery | src/strategies/current/recovery.py:15-93 | cancels for resting entries, a sale for what exits do not cover, a pause for untradable or paused markets |
| DecisionLaws.RecoveryPausesExactlyWhen | src/strategies/current/recovery.py:15-93 | the strategy asks for a pause exactly when the market has no primary outcome, ended, or is shown as paused |
| DecisionLaws.RecoveryReads | src/strategies/current/recovery.py:15-45 | the orders and the position it decides on: the context's when they are of the token, or else the account's |
| DecisionLaws.ExitCovers | src/strategies/current/recovery.py:104-114 | an open SELL order covers what remains of it, or else its size, and never less than nothing |
| RecoveryLaws.RecoverAsks | src/strategies/current/recovery.py:15-93 | what the strategy asks for in terms of the account: the entries to cancel and the shortage to sell |
| RecoveryLaws.NothingToRecoverExactlyWhen | src/strategies/current/recovery.py:46-79 | the strategy asks for nothing if and only if no entry rests and exits cover the position |
| RecoveryLaws.PlanRecovers | src/polymarket_trader/workers/reconcile_action_applier.py:68-140 | one market's plan, carried out on an account in which its token is as it was planned for, settles the token if and only if nothing was short or the id of the sale was selling nothing |
| PassLaws.PassIsFixpointExactlyWhen | src/polymarket_trader/workers/reconcile_worker.py:229-313 | after a pass over all markets, recovering again asks for no cancel and no sale of a market the exchange accepted, if and only if nothing was short or the id of its sale, made of the pass's trace, was selling nothing |
| PassLaws.SecondPassChangesNothing | src/polymarket_trader/workers/reconcile_worker.py:229-313 | after an accepted pass under a fresh trace every market is settled, and the next pass changes no order and no position |
| PassLaws.PassSpares | src/polymarket_trader/workers/reconcile_worker.py:251-286 | whatever the exchange answers, a pass leaves the orders and the position of every token it does not manage as they are |
| PassLaws.PlansSpare | src/polymarket_trader/workers/reconcile_worker.py:251-286 | the plans of other markets leave a market's token alone, although all plans act on one dictionary of orders |
| PassLaws.PlainIdsKeepSalesApart | src/polymarket_trader/app/order_projection.py:278-280 | the sales of different markets are stored under different ids when condition ids hold no colon |
| PassLaws.SharedSaleIdLosesSale | src/polymarket_trader/app/order_projection.py:278-331 | that they differ is needed: of two short markets anywhere in a list with one id for their sales, an accepted pass leaves the first unsettled |
| PassLaws.PassKeepsAgreementExactlyWhen | src/polymarket_trader/workers/reconcile_action_applier.py:68-140 | an accepted pass keeps the agreement of maintained and recomputed shares being sold if and only if it settles every market |
| PassLaws.FreshPassKeepsAgreement | src/polymarket_trader/workers/reconcile_action_applier.py:68-140 | under a fresh trace every pass keeps it, whatever the exchange answers |
| PauseLaws.PassDecidesPause | src/polymarket_trader/workers/reconcile_worker.py:251-275 | a pass decides the pause of each market it looks at from the pause before it |
| PauseLaws.PassLeavesOthers | src/polymarket_trader/workers/reconcile_worker.py:251-326 | and leaves the pauses of other markets alone |
| PauseLaws.StickyPauseLastsExactlyWhen | src/polymarket_trader/app/reconcile_service.py:206-223 | a pause that is not recoverable is renewed by every pass with the same reason, and stays so if and only if it gives a reason that is not one of the two recoverable ones |
| PauseLaws.PauseClearedExactlyWhen | src/polymarket_trader/app/reconcile_service.py:189-237 | under the current strategy one pass leaves a market unpaused if and only if it is tradable, has its primary outcome, and its pause was not a lasting one |
| PauseLaws.SoftPauseIsGoneAfterTwoPasses | src/polymarket_trader/domain/account.py:56-78 | a risk pause that names a recoverable reason is cleared by the second pass |
| Quarantine.CallKeepsQuarantineExactlyWhen | src/polymarket_trader/runtime/account_state.py:110-130 | a direct call of the store ends a quarantine if and only if it resumes the market, or pauses it anew with a pause that does not last |
| Quarantine.QuarantineIsForever | src/polymarket_trader/app/reconcile_service.py:189-237 | no sequence of passes under any extension, ledger events, pauses of the decision worker and calls of the store that neither resume the market nor pause it anew for a reason reconciling clears ends or softens a quarantine |
| Quarantine.RestingEntryIsQuarantined | src/polymarket_trader/app/order_projection.py:254-261 | a resting entry order stops entries and quarantines its market |
| Quarantine.NoEntryAfterRestingOrder | src/polymarket_trader/app/entry_planner.py:77-87 | after it, as long as no call of the store lifts the pause, the planner returns no ready plan for that market |
| EntryLatch.TradingDecisionWorker.OnBookUpdated | src/polymarket_trader/workers/trading_decision_worker.py:131-212 | up to its first suspension a handler enters only from the watching state, and leaves that state first |
| EntryLatch.TradingDecisionWorker.TransitionFromResult | src/polymarket_trader/workers/trading_decision_worker.py:372-389 | the lifecycle an order result leads to |
| EntryLatch.NeverWatchesAgain | src/polymarket_trader/workers/trading_decision_worker.py:131-212 | once a market has left the watching state no segment of any handler puts it back |
| EntryLatch.AtMostOneEntryPerMarket | src/polymarket_trader/workers/trading_decision_worker.py:131-212 | however handlers interleave at their suspension points, every market gets at most one entry order |
| EntryLatch.TradingOrderResultProcessor.Handle | src/polymarket_trader/workers/trading_order_result_processor.py:90-242 | an order result from its first transition through its branch and follow-ups to its flags |
| EntryLatch.BuyResultDecides | src/polymarket_trader/workers/trading_order_result_processor.py:90-242 | what a BUY result comes to without follow-ups: the state its market is left in, what is booked and what is cancelled |
| EntryLatch.SellResultDecides | src/polymarket_trader/workers/trading_order_result_processor.py:90-242 | and a SELL result |
| EntryLatch.RestingEntryIsHandled | src/polymarket_trader/workers/trading_order_result_processor.py:183-231 | a resting entry order has exactly its cancel issued, its market quarantined, entries stopped, and its market left unable to enter |
| EventBus.Bus.Publish | src/polymarket_trader/runtime/event_bus.py:115-144 | trading events join their queue; low-priority ones are queued or retained; what is published is mirrored to the outbox |
| BusLaws.PublishedIsNext | src/polymarket_trader/runtime/event_bus.py:115-163 | on a bus whose maintenance lane is idle and not paused an event published at priority 2 is the next one handed out to maintenance |
| BusLaws.PriorityTwoIsAccountedFor | src/polymarket_trader/runtime/event_bus.py:36-144 | over every run of calls of the bus the maintenance lane is given exactly the events published at priority 2, as often, and accounts for each |
| BusLaws.CoalescesExactlyWhen | src/polymarket_trader/runtime/event_bus.py:224-233 | of two events published while paused the second replaces the first exactly when they share an identity |
| BusLaws.IdentityIsFirstText | src/polymarket_trader/runtime/event_bus.py:55-66 | which is the first text among the event's keys |
| EventBus.Bus.FlushLane | src/polymarket_trader/runtime/event_bus.py:204-222 | the loop moves retained events up while there is room |
| EventBus.Bus.NextMaintenanceEvent | src/polymarket_trader/runtime/event_bus.py:160-163 | the head is handed out, then retained events of both lanes move up |
| EventBus.Bus.NextEvent | src/polymarket_trader/runtime/event_bus.py:146-153 | retained events move up first, then the first lane with an event hands one out |
| EventBus.Bus.ResumeLowPriority | src/polymarket_trader/runtime/event_bus.py:173-176 | resuming lets retained events move up |
| BusLaws.RunsRefineList | src/polymarket_trader/runtime/event_bus.py:115-233 | over every run a low-priority lane is one list: paused, or nothing retained, or the queue full; retained identities distinct and within capacity |
| BusLaws.LaneRefinesList | src/polymarket_trader/runtime/event_bus.py:115-233 | each move of queue and retained events is the same move of the reference list |
| BusLaws.EveryEventIsAccountedFor | src/polymarket_trader/runtime/event_bus.py:115-233 | every published event is handed out, queued, retained, replaced or dropped, as often as it was published |
| BusLaws.DeliveryIsFirstInFirstOut | src/polymarket_trader/runtime/event_bus.py:115-233 | events are handed out in the order their places were taken, ahead of everything waiting |
| BusLaws.PlacesKeepIdentities | src/polymarket_trader/runtime/event_bus.py:224-233 | an event is only ever replaced by one of the same identity |
| BusLaws.NothingLostNothingReordered | src/polymarket_trader/runtime/event_bus.py:115-233 | while nothing was replaced or dropped, what was handed out and what waits is what was published |
| BusLaws.NextEventKeepsInvariantExactlyWhen | src/polymarket_trader/runtime/event_bus.py:146-153 | the consumer of all lanes, which flushes before it takes, keeps the invariant if and only if the lanes are paused or nothing is retained |
| BusLaws.NextEventLetsLaterEventsOvertake | src/polymarket_trader/runtime/event_bus.py:146-153 | otherwise the next event published overtakes the retained ones |
| Discovery.FullMarketDiscoveryState.NextQuery | src/polymarket_trader/runtime/discovery_runner.py:61-79 | the next query is the first unfinished one from the current place on; its own cursor becomes the current one |
| Discovery.FullMarketDiscoveryState.RecordPage | src/polymarket_trader/runtime/discovery_runner.py:81-102 | a page moves its query's cursor or finishes it, and counts |
| Discovery.FullMarketDiscoveryState.FinishRound | src/polymarket_trader/runtime/discovery_runner.py:104-115 | closing a round keeps its counters and starts afresh |
| Discovery.FullMarketDiscoveryState.Tick | src/polymarket_trader/runtime/discovery_runner.py:159-207 | a tick is a sequence of requests, each made with fewer than two requests and fewer than a thousand markets behind it |
| DiscoveryLaws.RoundsAreCompleteChains | src/polymarket_trader/runtime/discovery_runner.py:61-115 | in every round each query's pages are exactly its cursor chain, a round closes only when all chains have ended, and the closed round's counters are its pages and markets |
| DiscoveryLaws.CursorIsOwn | src/polymarket_trader/runtime/discovery_runner.py:253-255 | a request is sent with the query's own cursor, never one another query left behind |
| DiscoveryLaws.PagesAreChainLengths | src/polymarket_trader/runtime/discovery_runner.py:81-115 | a round takes as many pages as its queries' chains are long together |
| DiscoveryTurns.OthersHaveExactlyOneTurn | src/polymarket_trader/runtime/discovery_runner.py:61-79 | between two turns of one query every other unfinished query is served exactly once, whatever fails |
| Registry.MarketRegistry.DetachIndexes | src/polymarket_trader/runtime/registry.py:327-339 | entries that point to the market are dropped, others stay |
| Registry.MarketRegistry.Upsert | src/polymarket_trader/runtime/registry.py:242-268 | an upsert replaces the market and its index entries, or changes nothing without its lock |
| Registry.MarketRegistry.UpdateMarket | src/polymarket_trader/runtime/registry.py:270-302 | an update does so for a registered market |
| Registry.MarketRegistry.RemoveMarket | src/polymarket_trader/runtime/registry.py:304-325 | a removal drops the market and its entries |
| Registry.MarketRegistry.GetByTokenId | src/polymarket_trader/runtime/registry.py:61-65 | a token is looked up in the index, then among the markets |
| RegistryLaws.EntriesPointToCarriers | src/polymarket_trader/runtime/registry.py:242-350 | in every reachable state each index entry points to a registered market that answers to its key |
| RegistryLaws.LookupIsScan | src/polymarket_trader/runtime/registry.py:16-32 | in every run in which no two registered markets ever share a token (a slug) indexed lookup equals the snapshot's scan |
| RegistryLaws.SharedKeyIsLost | src/polymarket_trader/runtime/registry.py:327-339 | that nothing is shared now is not enough: a key two markets shared is lost from the index when the later one is removed |
| RegistryLaws.RemovalKeepsIndexExactlyWhen | src/polymarket_trader/runtime/registry.py:304-339 | a removal leaves every remaining key indexed if and only if the market held no entry another one needs |
| RegistryLaws.RegisteringKeepsIndexExactlyWhen | src/polymarket_trader/runtime/registry.py:242-302 | so does an upsert or update, if and only if it gives up no entry another market needs |
| RegistryLaws.CommitKeepsIndexExactlyWhen | src/polymarket_trader/runtime/registry.py:242-350 | the same for every commit |
| RegistryReaders.ReadFindsCarrierOrNothing | src/polymarket_trader/runtime/registry.py:61-65 | a lock-free token read that falls anywhere between the assignments of commits finds nothing or a market carrying the token |
| RegistryReaders.VisibleMarketIsAlwaysFound | src/polymarket_trader/runtime/registry.py:341-350 | once the entry of a never-removed market is visible every later read of the token finds the market |
| Persistence.CoalesceLowPriority | src/polymarket_trader/workers/persistence_worker.py:252-276 | critical events in order, then the latest of each route sorted, and the number merged |
| Persistence.PersistenceWorker.WriteKind | src/polymarket_trader/workers/persistence_worker.py:325-370 | one batch write or single writes, counted per event, with each event's first failure |
| Persistence.PersistenceWorker.PersistBatch | src/polymarket_trader/workers/persistence_worker.py:278-323 | a batch is written kind by kind and each of its events settled once |
| Persistence.PersistenceWorker.BuildPlannedRecords | src/polymarket_trader/workers/persistence_records.py:51-62 | records are planned event by event and counted per event |
| PersistenceLaws.EachEventHasItsRecords | src/polymarket_trader/workers/persistence_records.py:51-93 | of a batch with distinct ids each event is planned as one audit and one outbox record, its family's record when it carries one, and its fills, positions and allocations; and as nothing else |
| PersistenceLaws.AcknowledgedIsWritten | src/polymarket_trader/workers/persistence_worker.py:372-401 | an acknowledged event has a record of every kind it calls for, planned and written |
| PersistenceLaws.AcknowledgedOrderIsWritten | src/polymarket_trader/workers/persistence_worker.py:372-401 | so an acknowledged order event that carries an order has its order record written |
| PersistenceLaws.MergingLosesNone | src/polymarket_trader/workers/persistence_worker.py:252-276 | kept and merged events together are the batch |
| PersistenceLaws.LowEventKeptExactlyWhenLast | src/polymarket_trader/workers/persistence_worker.py:252-276 | a low-priority event is kept if and only if no later one of its route is in the batch; an event's own merge key comes first in its route |
| PersistenceLaws.KeptAreSettledOnce | src/polymarket_trader/workers/persistence_worker.py:252-323 | the events kept from a batch with distinct ids have distinct ids, and each is exactly once acknowledged, retried or dead-lettered |
| PersistenceLaws.SortingKeepsAll | src/polymarket_trader/workers/persistence_worker.py:274-276 | sorting keeps every event, ordered by creation and id |
| PersistenceLaws.AcknowledgedExactlyWhenWritten | src/polymarket_trader/workers/persistence_worker.py:372-401 | an event is acknowledged if and only if every record planned for it was written |
| PersistenceLaws.BalanceUpdateIsNeverAcknowledged | src/polymarket_trader/workers/persistence_worker.py:300-312 | a balance update never is, because no place in the order of writing takes its account record |
| PersistenceLaws.RetriesAreBounded | src/polymarket_trader/workers/persistence_worker.py:457-464 | an event is retried at most as often as the limit allows |
| PersistenceLaws.RetriedExactlyWhen | src/polymarket_trader/workers/persistence_worker.py:403-464 | an event that was not acknowledged is retried or given up by its failure and its retries |
| PersistenceLaws.RouteIsOwnKeyOrSubject | src/polymarket_trader/workers/persistence_records.py:249-258 | the route low-priority events are merged by |
| Fees.FeeBounds | src/polymarket_trader/domain/fees.py:43-83 | a fee is not negative and at most a quarter of size times rate plus half a quantum; no rate, no fee |
| Fees.FeeIsSymmetric | src/polymarket_trader/domain/fees.py:63-68 | the fee at a price is the fee at its complement |
| Fees.FeeGrowsWithSize | src/polymarket_trader/domain/fees.py:63-68 | the fee does not fall with the size |
| Fees.FeeSharesAreNear | src/polymarket_trader/domain/fees.py:69-71 | after both roundings the fee in shares is within half a quantum plus half a quantum over the price of the exact one |
| Fees.TakerFeeIs | src/polymarket_trader/domain/fees.py:43-83 | takers pay rate times size times price times its complement, the rate in thousandths, to half a quantum |
| Fees.NoFeeWhen | src/polymarket_trader/domain/fees.py:56-62 | makers, markets without fees, and absent or non-positive rates pay nothing |
| Fees.QuoteFailsExactlyWhen | src/polymarket_trader/domain/fees.py:159-168 | a quote is refused for a price outside the unit interval, then for a negative size, and for nothing else |
| Fees.PreviewExactlyWhen | src/polymarket_trader/domain/fees.py:86-132 | exactly when a preview is shown, absent or refused, and what it then shows |

## Left out

- Decimal arithmetic at 28 digits: amounts are exact reals, so the rounding of the equal share is not modelled.
- Minimum order sizes of zero: the allocator's loop need not end there, so the allocator, sizing and planner require positive ones.
- Reason texts, budget-change events, timestamps, trace records, fee and slug fields of orders and positions: no decision depends on them; reasons are enumerated codes, except pause reasons.
- Names of outcomes are compared as given, without trimming and upper-casing; the strategy's text filter is a parameter.
- Reading figures from context metadata by several keys and types: a figure is a field and one optional metadata value.
- Exit and follow-up decisions of the strategy, and other extensions: the reconcile pass and order results take arbitrary answers.
- Fills in the account state, and the projection of user-stream messages: they touch neither pauses nor the figures proved here.
- Refreshing positions and orders from the exchange: a history starts from any sound state; what the exchange reports is not modelled.
- REST and WebSocket clients, the order executor, the outbox queue and repositories: their answers are parameters.
- A reconcile pass is one step: no other worker changes the account between its actions.
- Missing tokens of reconcile actions and missing services: the service never builds such actions.
- Position-in-place aliasing: positions, orders and markets are values, as the frozen records of the source are; only stores, candidates, workers and buses are objects.
- Locks: a call of the account state or a registry commit is one step; a registry lock that times out is an argument.
- Registry status setters: instances of an update that keeps a market's identity.
- The identity of an event without keys, which formats the object's address: the model takes that text as a field of the event.
- Slots of a lane carry the number of their publication, and the decision worker a list of its entries: bookkeeping of the model, read by no decision.
- Sequence numbers of queued events, wake-up signals and statistics of the workers.
- Discovery queries are names with fixed parameters, the same over a run; two queries of one name are one chain.
- Payload parsing in the persistence records: whether a payload holds a market, a book or an order, and how many fills, positions and allocations, are fields of the event.
- Low-priority events merged away in a batch are not acknowledged by the source, and not by the model.
- Recovery.DecideRecovery: the market slug and reason texts of its decisions are not modelled, because they decide nothing.
- Allocation.Candidate.Offer: the first branch of the source's loop body, for candidates without room for an order, is not modelled, because active candidates never take it.
- EntryLatch.AtMostOneEntryPerMarket: does not cover BUY orders an extension asks for as follow-ups, because the current strategy asks for none.
- PassLaws.PassIsFixpointExactlyWhen: requires different ids for the sales of different markets, as condition ids without colons give them; without, it fails (`PassLaws.SharedSaleIdLosesSale`).
- LedgerLaws.IncrementsAgreeWithRecompute: its conditions depend on the state an event meets; `LedgerRuns.DistinctIdsKeepAgreement` derives them from the events alone, for results handled with a current snapshot.
- LedgerRuns.DistinctIdsKeepAgreement: a manual replacement that fills at once is left out, because it breaks the agreement later (`LedgerLaws.FilledByHandMisleadsExactlyWhen`).
- Reconcile.ReconcileWorker.ReconcileOnce: neither the refresh from the exchange before a pass nor the pruning of markets outside the universe after it is modelled; both touch the registry or replace the account as a whole.
- Allocation.EqualWeightPlan: the budget-change events of a plan are not modelled, because they repeat its allocations.
- EntrySizing.SizeEntry: the reason text of a sizing and its budget-change events are not modelled.
- EntryPlanner.BuildEntryPlan: market and book are given, not looked up by ids; reason texts of plans are codes.
- Quarantine.QuarantineIsForever: excludes calls of the store that resume the market, or pause it anew with a pause that does not last, because exactly those end a quarantine.
- BusLaws.DeliveryIsFirstInFirstOut: holds for the consumers of single lanes, because the consumer of all lanes breaks it.
