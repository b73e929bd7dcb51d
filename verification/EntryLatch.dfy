/**
 * The trading decision worker: a lifecycle per market that lets at most one entry order
 * through, and what it does with an order result. A handler runs without interruption
 * between two suspension points; handlers of different events interleave there.
 */
module EntryLatch {
  import opened Wrappers
  import opened Domain
  import opened AccountStore
  import opened Projection
  import opened PauseLaws
  import opened LedgerLaws
  import opened Quarantine

  datatype Lifecycle =
    | WatchingOrderbook | EntryReady | EntrySubmitting | EntryRejected | PositionOpen | FollowUpOrderOpen | Halted

  type Lifecycles = map<string, Lifecycle>

  /** What the planner answered to a book update. */
  datatype PlanAnswer = NoMarket | EntriesStopped | NotReady | ReadyToEnter

  /** What a handler does between two suspension points. */
  datatype Segment =
    | BookUpdated(conditionId: string, answer: PlanAnswer)
    | SkipPublished(conditionId: string)
    | ResultSeen(result: OrderResult)
    | EntryUnfilled(conditionId: string)
    | EntryRefused(conditionId: string)
    | MarketHalted(conditionId: string)
    | PositionSeen(conditionId: string)

  /** The lifecycle an order result leads to, if any. */
  function LifecycleAfter(r: OrderResult): Option<Lifecycle> {
    if r.side == Some(Buy) then
      match r.status
      case FullFill => Some(PositionOpen)
      case PartialFill => Some(PositionOpen)
      case Resting => Some(Halted)
      case NothingFilled => Some(EntryReady)
      case Refused => Some(EntryRejected)
      case Failed => Some(EntryRejected)
      case UnknownTimeout => Some(EntryRejected)
      case CancelDone => None
    else if r.side == Some(Sell) then
      match r.status
      case Resting => Some(FollowUpOrderOpen)
      case PartialFill => Some(FollowUpOrderOpen)
      case FullFill => Some(PositionOpen)
      case _ => None
    else None
  }

  /** A book update may go on to an entry: the market is new, or still being watched. */
  predicate MayEnter(m: Lifecycles, conditionId: string) {
    conditionId !in m || m[conditionId] == WatchingOrderbook
  }

  function AfterResult(m: Lifecycles, r: OrderResult): Lifecycles {
    if LifecycleAfter(r).None? then m else m[r.conditionId := LifecycleAfter(r).value]
  }

  function Advance(m: Lifecycles, g: Segment): Lifecycles {
    match g
    case BookUpdated(id, answer) =>
      if answer == NoMarket || !MayEnter(m, id) then m
      else if answer == ReadyToEnter then m[id := EntrySubmitting]
      else m[id := WatchingOrderbook]
    case SkipPublished(id) => m[id := Halted]
    case ResultSeen(r) => AfterResult(m, r)
    case EntryUnfilled(id) => m[id := EntryReady]
    case EntryRefused(id) => m[id := EntryRejected]
    case MarketHalted(id) => m[id := Halted]
    case PositionSeen(id) => m[id := PositionOpen]
  }

  predicate Enters(m: Lifecycles, g: Segment) {
    g.BookUpdated? && g.answer == ReadyToEnter && MayEnter(m, g.conditionId)
  }

  class TradingDecisionWorker {
    var lifecycles: Lifecycles
    /** Markets an entry order was handed to the trading service for, in order. */
    var entries: seq<string>

    constructor ()
      ensures lifecycles == map[] && entries == []
    {
      lifecycles, entries := map[], [];
    }

    method Transition(conditionId: string, lifecycle: Lifecycle)
      modifies this`lifecycles
      ensures lifecycles == old(lifecycles)[conditionId := lifecycle]
    {
      lifecycles := lifecycles[conditionId := lifecycle];
    }

    /** Up to the first suspension: with an entry, its lifecycle is set before the order is reviewed. */
    method OnBookUpdated(conditionId: string, answer: PlanAnswer)
      modifies this
      ensures lifecycles == Advance(old(lifecycles), BookUpdated(conditionId, answer))
      ensures entries == old(entries) + if Enters(old(lifecycles), BookUpdated(conditionId, answer)) then [conditionId] else []
    {
      if answer == NoMarket {
        return;
      }
      if conditionId !in lifecycles {
        Transition(conditionId, WatchingOrderbook);
      } else if lifecycles[conditionId] != WatchingOrderbook {
        return;
      }
      if answer == EntriesStopped {
        return;
      }
      if answer == NotReady {
        Transition(conditionId, WatchingOrderbook);
        return;
      }
      Transition(conditionId, EntrySubmitting);
      entries := entries + [conditionId];
    }

    method OnSkipPublished(conditionId: string)
      modifies this`lifecycles
      ensures lifecycles == Advance(old(lifecycles), SkipPublished(conditionId))
      ensures lifecycles == old(lifecycles)[conditionId := Halted]
    {
      Transition(conditionId, Halted);
    }

    method OnPositionSeen(conditionId: string)
      modifies this`lifecycles
      ensures lifecycles == Advance(old(lifecycles), PositionSeen(conditionId))
      ensures lifecycles == old(lifecycles)[conditionId := PositionOpen]
    {
      Transition(conditionId, PositionOpen);
    }

    method TransitionFromResult(r: OrderResult)
      modifies this`lifecycles
      ensures lifecycles == Advance(old(lifecycles), ResultSeen(r))
      ensures r.side == Some(Buy) && r.status in {FullFill, PartialFill} ==>
        lifecycles == old(lifecycles)[r.conditionId := PositionOpen]
      ensures r.side == Some(Buy) && r.status == Resting ==> lifecycles == old(lifecycles)[r.conditionId := Halted]
      ensures r.side == Some(Buy) && r.status == NothingFilled ==> lifecycles == old(lifecycles)[r.conditionId := EntryReady]
      ensures r.side == Some(Buy) && r.status in {Refused, Failed, UnknownTimeout} ==>
        lifecycles == old(lifecycles)[r.conditionId := EntryRejected]
      ensures r.side == Some(Sell) && r.status in {Resting, PartialFill} ==>
        lifecycles == old(lifecycles)[r.conditionId := FollowUpOrderOpen]
      ensures r.side == Some(Sell) && r.status == FullFill ==> lifecycles == old(lifecycles)[r.conditionId := PositionOpen]
      ensures r.side.None? || r.status == CancelDone || (r.side == Some(Sell) && r.status !in {Resting, PartialFill, FullFill})
        ==> lifecycles == old(lifecycles)
    {
      if r.side.None? {
        return;
      }
      if r.side == Some(Buy) {
        if r.status == FullFill || r.status == PartialFill {
          Transition(r.conditionId, PositionOpen);
        } else if r.status == Resting {
          Transition(r.conditionId, Halted);
        } else if r.status == NothingFilled {
          Transition(r.conditionId, EntryReady);
        } else if r.status != CancelDone {
          Transition(r.conditionId, EntryRejected);
        }
      } else if r.side == Some(Sell) {
        if r.status == Resting || r.status == PartialFill {
          Transition(r.conditionId, FollowUpOrderOpen);
        } else if r.status == FullFill {
          Transition(r.conditionId, PositionOpen);
        }
      }
    }
  }

  // --------------------------------------------------------------------- whole runs

  function Lived(m: Lifecycles, run: seq<Segment>): Lifecycles {
    if run == [] then m else Advance(Lived(m, run[..|run| - 1]), run[|run| - 1])
  }

  /** The markets a run of segments sends an entry order for, in order. */
  function Sent(m: Lifecycles, run: seq<Segment>): seq<string> {
    if run == [] then []
    else
      var front := run[..|run| - 1];
      Sent(m, front) + (if Enters(Lived(m, front), run[|run| - 1]) then [run[|run| - 1].conditionId] else [])
  }

  lemma AdvanceKeepsLeft(m: Lifecycles, g: Segment, conditionId: string)
    requires !MayEnter(m, conditionId)
    ensures !MayEnter(Advance(m, g), conditionId)
  {}

  /** Once a market has left the watching state no segment of any handler puts it back. */
  lemma {:induction false} NeverWatchesAgain(m: Lifecycles, run: seq<Segment>, i: nat, conditionId: string)
    requires i <= |run| && !MayEnter(Lived(m, run[..i]), conditionId)
    ensures !MayEnter(Lived(m, run), conditionId)
  {
    if i == |run| {
      assert run[..i] == run;
    } else {
      var n := |run| - 1;
      assert run[..n][..i] == run[..i];
      NeverWatchesAgain(m, run[..n], i, conditionId);
      AdvanceKeepsLeft(Lived(m, run[..n]), run[n], conditionId);
    }
  }

  /** However the handlers interleave, every market gets at most one entry order. */
  lemma {:induction false} AtMostOneEntryPerMarket(run: seq<Segment>)
    ensures forall i, j :: 0 <= i < j < |Sent(map[], run)| ==> Sent(map[], run)[i] != Sent(map[], run)[j]
    ensures forall i :: 0 <= i < |Sent(map[], run)| ==> !MayEnter(Lived(map[], run), Sent(map[], run)[i])
  {
    if run != [] {
      var n := |run| - 1;
      var front := run[..n];
      AtMostOneEntryPerMarket(front);
      var sent := Sent(map[], run);
      forall i | 0 <= i < |sent| ensures !MayEnter(Lived(map[], run), sent[i]) {
        if i < |Sent(map[], front)| {
          AdvanceKeepsLeft(Lived(map[], front), run[n], sent[i]);
        }
      }
    }
  }

  // ------------------------------------------------------------------- order results

  /** A follow-up order of the extension: what was asked for, and what came of it. */
  datatype FollowUp = FollowUp(intent: Option<TradeIntent>, result: Option<OrderResult>, seen: Option<AccountSnapshot>)

  datatype Handled = Handled(lifecycles: Lifecycles, account: AccountState, cancels: seq<string>)

  function Projected(s: AccountState, r: OrderResult, seen: Option<AccountSnapshot>, executed: Option<TradeIntent>): AccountState {
    if r.side == Some(Buy) && r.status in {FullFill, PartialFill, NothingFilled} then BuyResult(s, r, seen)
    else if executed.Some? && executed.value.SellTrade? && r.side == Some(Sell) then SellResult(s, r, seen, executed.value)
    else s
  }

  function CancelId(r: OrderResult): string {
    FirstText(r.orderId, r.traceId + ":" + r.conditionId + ":" + r.tokenId)
  }

  /** The branch of a BUY result after its projection. */
  function BuyBranch(h: Handled, r: OrderResult, cancelled: Option<OrderResult>): Handled {
    if r.side != Some(Buy) || r.status in {FullFill, PartialFill} then h
    else if r.status == NothingFilled then h.(lifecycles := Advance(h.lifecycles, EntryUnfilled(r.conditionId)))
    else if HasUnexpectedRestingOrder(r) then
      var answered :=
        if cancelled.Some? && cancelled.value.status == CancelDone
        then Advance(h.lifecycles, ResultSeen(cancelled.value)) else h.lifecycles;
      Handled(Advance(answered, MarketHalted(r.conditionId)),
              Step(h.account, PauseMarket(BuildPause(r.conditionId, UNEXPECTED_RESTING_ORDER, Some(ByRisk), None))),
              h.cancels + [CancelId(r)])
    else if r.status in {Refused, Failed, UnknownTimeout} then
      h.(lifecycles := Advance(h.lifecycles, EntryRefused(r.conditionId)))
    else h
  }

  function AfterFollowUp(h: Handled, f: FollowUp): Handled {
    if f.result.None? then h
    else
      var sold :=
        if f.intent.Some? && f.intent.value.SellTrade? then SellResult(h.account, f.result.value, f.seen, f.intent.value)
        else h.account;
      Handled(Advance(h.lifecycles, ResultSeen(f.result.value)), ResultFlags(sold, f.result.value, f.seen), h.cancels)
  }

  function AfterFollowUps(h: Handled, fs: seq<FollowUp>): Handled {
    if fs == [] then h else AfterFollowUp(AfterFollowUps(h, fs[..|fs| - 1]), fs[|fs| - 1])
  }

  /** An order result, from the first transition to the flags at the end. */
  function HandleResult(m: Lifecycles, s: AccountState, r: OrderResult, seen: Option<AccountSnapshot>,
                        executed: Option<TradeIntent>, cancelled: Option<OrderResult>, fs: seq<FollowUp>): Handled {
    var first := Handled(Advance(m, ResultSeen(r)), Projected(s, r, seen, executed), []);
    var followed := AfterFollowUps(BuyBranch(first, r, cancelled), fs);
    followed.(account := ResultFlags(followed.account, r, seen))
  }

  class TradingOrderResultProcessor {
    const worker: TradingDecisionWorker
    const projector: AccountStateProjector

    constructor (worker: TradingDecisionWorker, projector: AccountStateProjector)
      ensures this.worker == worker && this.projector == projector
    {
      this.worker, this.projector := worker, projector;
    }

    method ApplyFollowUp(f: FollowUp)
      requires projector.store.Valid()
      modifies worker`lifecycles, projector.store
      ensures projector.store.Valid()
      ensures
        var h := AfterFollowUp(Handled(old(worker.lifecycles), old(projector.store.State()), []), f);
        worker.lifecycles == h.lifecycles && projector.store.State() == h.account
    {
      if f.result.None? {
        return;
      }
      worker.TransitionFromResult(f.result.value);
      if f.intent.Some? && f.intent.value.SellTrade? {
        projector.ApplySellResult(f.result.value, f.seen, f.intent.value);
      }
      projector.ApplyResultFlags(f.result.value, f.seen);
    }

    method HandleBuyBranch(r: OrderResult, cancelled: Option<OrderResult>) returns (cancels: seq<string>)
      requires projector.store.Valid()
      modifies worker`lifecycles, projector.store
      ensures projector.store.Valid()
      ensures Handled(worker.lifecycles, projector.store.State(), cancels)
           == BuyBranch(Handled(old(worker.lifecycles), old(projector.store.State()), []), r, cancelled)
    {
      cancels := [];
      if r.side == Some(Buy) {
        if r.status == FullFill || r.status == PartialFill {
          return;
        } else if r.status == NothingFilled {
          worker.Transition(r.conditionId, EntryReady);
        } else if HasUnexpectedRestingOrder(r) {
          cancels := cancels + [CancelId(r)];
          if cancelled.Some? && cancelled.value.status == CancelDone {
            worker.TransitionFromResult(cancelled.value);
          }
          worker.Transition(r.conditionId, Halted);
          projector.store.Pause(r.conditionId, UNEXPECTED_RESTING_ORDER, Some(ByRisk), None);
        } else if r.status in {Refused, Failed, UnknownTimeout} {
          worker.Transition(r.conditionId, EntryRejected);
        }
      }
    }

    method Project(r: OrderResult, seen: Option<AccountSnapshot>, executed: Option<TradeIntent>)
      requires projector.store.Valid()
      modifies projector.store
      ensures projector.store.Valid()
      ensures projector.store.State() == Projected(old(projector.store.State()), r, seen, executed)
    {
      if r.side == Some(Buy) && r.status in {FullFill, PartialFill, NothingFilled} {
        projector.ApplyBuyResult(r, seen);
      } else if executed.Some? && executed.value.SellTrade? && r.side == Some(Sell) {
        projector.ApplySellResult(r, seen, executed.value);
      }
    }

    method ApplyFollowUps(fs: seq<FollowUp>, ghost cancels: seq<string>)
      requires projector.store.Valid()
      modifies worker`lifecycles, projector.store
      ensures projector.store.Valid()
      ensures Handled(worker.lifecycles, projector.store.State(), cancels)
           == AfterFollowUps(Handled(old(worker.lifecycles), old(projector.store.State()), cancels), fs)
    {
      ghost var h := Handled(worker.lifecycles, projector.store.State(), cancels);
      for k := 0 to |fs|
        invariant projector.store.Valid()
        invariant Handled(worker.lifecycles, projector.store.State(), cancels) == AfterFollowUps(h, fs[..k])
      {
        assert fs[..k + 1][..k] == fs[..k];
        ApplyFollowUp(fs[k]);
      }
      assert fs[..|fs|] == fs;
    }

    method Handle(r: OrderResult, seen: Option<AccountSnapshot>, executed: Option<TradeIntent>,
                  cancelled: Option<OrderResult>, fs: seq<FollowUp>) returns (cancels: seq<string>)
      requires projector.store.Valid()
      modifies worker`lifecycles, projector.store
      ensures projector.store.Valid()
      ensures Handled(worker.lifecycles, projector.store.State(), cancels)
           == HandleResult(old(worker.lifecycles), old(projector.store.State()), r, seen, executed, cancelled, fs)
    {
      worker.TransitionFromResult(r);
      Project(r, seen, executed);
      cancels := HandleBuyBranch(r, cancelled);
      ApplyFollowUps(fs, cancels);
      projector.ApplyResultFlags(r, seen);
    }
  }

  /** What a BUY result comes to without follow-ups: where its market is left, what is booked, and what is cancelled. */
  lemma BuyResultDecides(m: Lifecycles, s: AccountState, r: OrderResult, seen: Option<AccountSnapshot>,
                         executed: Option<TradeIntent>, cancelled: Option<OrderResult>)
    requires r.side == Some(Buy) && (cancelled.Some? ==> cancelled.value.conditionId == r.conditionId)
    ensures
      var h := HandleResult(m, s, r, seen, executed, cancelled, []);
      match r.status
      case FullFill => LeftIn(h, m[r.conditionId := PositionOpen], BuyResult(s, r, seen), [])
      case PartialFill => LeftIn(h, m[r.conditionId := PositionOpen], BuyResult(s, r, seen), [])
      case NothingFilled => LeftIn(h, m[r.conditionId := EntryReady], BuyResult(s, r, seen), [])
      case Refused => LeftIn(h, m[r.conditionId := EntryRejected], s, [])
      case Failed => LeftIn(h, m[r.conditionId := EntryRejected], s, [])
      case UnknownTimeout => LeftIn(h, m[r.conditionId := EntryRejected], s, [])
      case CancelDone => LeftIn(h, m, s, [])
      case Resting =>
        LeftIn(h, m[r.conditionId := Halted], s, if r.orderType == Some(Fak) then [CancelId(r)] else [])
  {
    var first := Handled(Advance(m, ResultSeen(r)), Projected(s, r, seen, executed), []);
    var branched := BuyBranch(first, r, cancelled);
    BranchLeaves(m, r, cancelled, first);
    BranchBooks(first, r, cancelled);
    FlagsChangeOnlyFlags(branched.account, r, seen);
    assert HandleResult(m, s, r, seen, executed, cancelled, [])
        == branched.(account := ResultFlags(branched.account, r, seen));
  }

  lemma BranchBooks(first: Handled, r: OrderResult, cancelled: Option<OrderResult>)
    ensures BuyBranch(first, r, cancelled).account.positions == first.account.positions
    ensures BuyBranch(first, r, cancelled).account.openOrders == first.account.openOrders
  {}

  lemma BranchLeaves(m: Lifecycles, r: OrderResult, cancelled: Option<OrderResult>, first: Handled)
    requires r.side == Some(Buy) && (cancelled.Some? ==> cancelled.value.conditionId == r.conditionId)
    requires first.lifecycles == Advance(m, ResultSeen(r)) && first.cancels == []
    ensures
      var h := BuyBranch(first, r, cancelled);
      match r.status
      case FullFill => h.lifecycles == m[r.conditionId := PositionOpen] && h.cancels == []
      case PartialFill => h.lifecycles == m[r.conditionId := PositionOpen] && h.cancels == []
      case NothingFilled => h.lifecycles == m[r.conditionId := EntryReady] && h.cancels == []
      case Refused => h.lifecycles == m[r.conditionId := EntryRejected] && h.cancels == []
      case Failed => h.lifecycles == m[r.conditionId := EntryRejected] && h.cancels == []
      case UnknownTimeout => h.lifecycles == m[r.conditionId := EntryRejected] && h.cancels == []
      case CancelDone => h.lifecycles == m && h.cancels == []
      case Resting =>
        && h.lifecycles == m[r.conditionId := Halted]
        && h.cancels == if r.orderType == Some(Fak) then [CancelId(r)] else []
  {}

  /** Handled with these lifecycles and cancels, and with the positions and orders of `t`. */
  predicate LeftIn(h: Handled, lifecycles: Lifecycles, t: AccountState, cancels: seq<string>) {
    && h.lifecycles == lifecycles && h.cancels == cancels
    && h.account.positions == t.positions && h.account.openOrders == t.openOrders
  }

  /** And a SELL result: a resting or partly filled order is followed, a filled one leaves the position. */
  lemma SellResultDecides(m: Lifecycles, s: AccountState, r: OrderResult, seen: Option<AccountSnapshot>,
                          executed: TradeIntent, cancelled: Option<OrderResult>)
    requires r.side == Some(Sell) && executed.SellTrade?
    ensures
      var h := HandleResult(m, s, r, seen, Some(executed), cancelled, []);
      var t := SellResult(s, r, seen, executed);
      match r.status
      case Resting => LeftIn(h, m[r.conditionId := FollowUpOrderOpen], t, [])
      case PartialFill => LeftIn(h, m[r.conditionId := FollowUpOrderOpen], t, [])
      case FullFill => LeftIn(h, m[r.conditionId := PositionOpen], t, [])
      case _ => LeftIn(h, m, t, [])
  {
    FlagsChangeOnlyFlags(Projected(s, r, seen, Some(executed)), r, seen);
  }

  lemma {:induction false} FollowUpsKeepCancels(h: Handled, fs: seq<FollowUp>)
    ensures AfterFollowUps(h, fs).cancels == h.cancels
  {
    if fs != [] {
      FollowUpsKeepCancels(h, fs[..|fs| - 1]);
    }
  }

  lemma {:induction false} FollowUpsKeepLeft(h: Handled, fs: seq<FollowUp>, conditionId: string)
    requires !MayEnter(h.lifecycles, conditionId)
    ensures !MayEnter(AfterFollowUps(h, fs).lifecycles, conditionId)
  {
    if fs != [] {
      FollowUpsKeepLeft(h, fs[..|fs| - 1], conditionId);
    }
  }

  /**
   * An entry order that had to fill at once and came back resting: whatever the follow-ups
   * do, exactly its cancel was issued, its market is quarantined, entries are stopped and
   * the market can enter no more.
   */
  lemma RestingEntryIsHandled(m: Lifecycles, s: AccountState, r: OrderResult, seen: Option<AccountSnapshot>,
                              executed: Option<TradeIntent>, cancelled: Option<OrderResult>, fs: seq<FollowUp>)
    requires r.side == Some(Buy) && HasUnexpectedRestingOrder(r)
    ensures
      var h := HandleResult(m, s, r, seen, executed, cancelled, fs);
      && h.cancels == [CancelId(r)] && Quarantined(h.account, r.conditionId) && !h.account.allowNewEntries
      && !MayEnter(h.lifecycles, r.conditionId)
  {
    var first := Handled(Advance(m, ResultSeen(r)), Projected(s, r, seen, executed), []);
    var branched := BuyBranch(first, r, cancelled);
    FollowUpsKeepCancels(branched, fs);
    FollowUpsKeepLeft(branched, fs, r.conditionId);
    RestingEntryIsQuarantined(AfterFollowUps(branched, fs).account, r, seen);
  }
}
