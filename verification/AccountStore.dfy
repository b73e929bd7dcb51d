/**
 * The account state every worker shares. Writers change the fields one call at a time
 * and publish a fresh snapshot; readers only ever see a published snapshot.
 */
module AccountStore {
  import opened Wrappers
  import opened Dict
  import opened Domain

  // ---------------------------------------------------------------------- pauses

  datatype PauseSource = ByOperator | ByReconcile | ByRisk | ByStrategy

  const MANUAL_PAUSE := "manual_pause"
  const MARKET_NOT_TRADABLE := "market_not_tradable"
  const MISSING_PRIMARY_OUTCOME := "missing_primary_outcome"
  const UNEXPECTED_RESTING_ORDER := "unexpected_resting_order"

  predicate RecoverableReason(reason: string) {
    reason == MARKET_NOT_TRADABLE || reason == MISSING_PRIMARY_OUTCOME
  }

  function DefaultSource(reason: string): PauseSource {
    if reason == MANUAL_PAUSE then ByOperator
    else if reason == UNEXPECTED_RESTING_ORDER then ByRisk
    else ByReconcile
  }

  datatype MarketPause = MarketPause(conditionId: string, reason: string, source: PauseSource, recoverable: bool)

  function BuildPause(conditionId: string, reason: string, source: Option<PauseSource>, recoverable: Option<bool>): MarketPause {
    var origin := source.GetOr(DefaultSource(reason));
    MarketPause(conditionId, reason, origin, recoverable.GetOr(origin == ByReconcile && RecoverableReason(reason)))
  }

  // ------------------------------------------------------------------- snapshots

  datatype AccountSnapshot = AccountSnapshot(
    balanceUsdc: real,
    allowanceUsdc: real,
    positions: seq<Position>,
    openOrders: seq<Order>,
    userWsConnected: bool,
    allowNewEntries: bool,
    marketPauses: seq<MarketPause>,
    lastReconcileAt: Option<int>)
  {
    function GetPosition(key: Key): Option<Position> {
      FirstPosition(positions, key)
    }

    function PauseForMarket(conditionId: string): Option<MarketPause> {
      FirstPause(marketPauses, conditionId)
    }

    function WithoutMarketPause(conditionId: string): AccountSnapshot {
      this.(marketPauses := OtherPauses(marketPauses, conditionId))
    }

    function OpenOrdersForMarket(key: Key): seq<Order> {
      OrdersFor(openOrders, key)
    }

    function OpenSellShares(key: Key): real {
      SellShares(OpenOrdersForMarket(key))
    }

    /** Recomputes the shares being sold of a token from its open SELL orders. */
    method OpenSellSharesForMarket(key: Key) returns (total: real)
      ensures total == OpenSellShares(key)
    {
      var orders := OpenOrdersForMarket(key);
      total := 0.0;
      for k := 0 to |orders|
        invariant total == SellShares(orders[..k])
      {
        assert orders[..k + 1][..k] == orders[..k];
        if orders[k].side != Sell || !orders[k].Open() {
          continue;
        }
        if orders[k].remainingShares.Some? {
          total := total + orders[k].remainingShares.value;
        } else if orders[k].sizeShares.Some? {
          total := total + orders[k].sizeShares.value;
        }
      }
      assert orders[..|orders|] == orders;
    }
  }

  function FirstPause(pauses: seq<MarketPause>, conditionId: string): Option<MarketPause> {
    if pauses == [] then None
    else if pauses[0].conditionId == conditionId then Some(pauses[0])
    else FirstPause(pauses[1..], conditionId)
  }

  function OtherPauses(pauses: seq<MarketPause>, conditionId: string): seq<MarketPause> {
    if pauses == [] then []
    else (if pauses[0].conditionId == conditionId then [] else [pauses[0]]) + OtherPauses(pauses[1..], conditionId)
  }

  /** Shares an open SELL order still has to sell. */
  function SellWeight(o: Order): real {
    if !o.OpenSell() then 0.0
    else if o.remainingShares.Some? then o.remainingShares.value
    else if o.sizeShares.Some? then o.sizeShares.value
    else 0.0
  }

  function SellShares(orders: seq<Order>): real {
    if orders == [] then 0.0
    else SellShares(orders[..|orders| - 1]) + SellWeight(orders[|orders| - 1])
  }

  // ---------------------------------------------------------------- the account state

  datatype AccountState = AccountState(
    positions: Dict<Key, Position>,
    openOrders: Dict<string, Order>,
    balanceUsdc: real,
    allowanceUsdc: real,
    userWsConnected: bool,
    allowNewEntries: bool,
    marketPauses: Dict<string, MarketPause>,
    lastReconcileAt: Option<int>)
  {
    /** The condition for entries to be allowed at all. */
    predicate EntryGateCanOpen() {
      userWsConnected && lastReconcileAt.Some?
    }

    function Published(): AccountSnapshot {
      AccountSnapshot(balanceUsdc, allowanceUsdc, Values(positions), Values(openOrders), userWsConnected,
                      allowNewEntries, Values(marketPauses), lastReconcileAt)
    }
  }

  const INITIAL := AccountState([], [], 0.0, 0.0, false, false, [], None)

  function PositionKey(p: Position): Key { (p.conditionId, p.tokenId) }

  function SideText(side: Side): string {
    match side case Buy => "BUY" case Sell => "SELL"
  }

  function StatusText(status: OrderStatus): string {
    match status
    case Created => "created" case Signed => "signed" case Submitted => "submitted"
    case CancelRequested => "cancel_requested" case Matched => "matched"
    case PartiallyFilled => "partially_filled" case NoFill => "no_fill" case Live => "live"
    case Cancelled => "cancelled" case OrderRejected => "rejected" case OrderFailed => "failed"
  }

  /** The identifier an order is stored under. */
  function OrderKey(o: Order): string {
    FirstText(o.orderId, FirstText(o.idempotencyKey,
      o.conditionId + ":" + o.tokenId + ":" + SideText(o.side) + ":" + StatusText(o.status)))
  }

  function KeyedPositions(ps: seq<Position>): (pairs: seq<(Key, Position)>)
    ensures |pairs| == |ps|
  {
    seq(|ps|, i requires 0 <= i < |ps| => (PositionKey(ps[i]), ps[i]))
  }

  function KeyedOrders(os: seq<Order>): (pairs: seq<(string, Order)>)
    ensures |pairs| == |os| && forall i :: 0 <= i < |os| ==> pairs[i] == (OrderKey(os[i]), os[i])
  {
    seq(|os|, i requires 0 <= i < |os| => (OrderKey(os[i]), os[i]))
  }

  datatype StoreOp =
    | UpdateBalances(balance: Option<real>, allowance: Option<real>)
    | UpsertPosition(position: Position)
    | ReplacePositions(positions: seq<Position>)
    | UpsertOrder(order: Order)
    | RemoveOrder(orderId: string)
    | ReplaceOpenOrders(orders: seq<Order>)
    | MarkUserWs(connected: bool)
    | SetAllowNewEntries(allowed: bool)
    | PauseMarket(pause: MarketPause)
    | ResumeMarket(conditionId: string)
    | MarkReconciled(at: int)

  /** What one call of the store does to its state. */
  function Step(s: AccountState, op: StoreOp): AccountState {
    match op
    case UpdateBalances(b, a) =>
      s.(balanceUsdc := b.GetOr(s.balanceUsdc), allowanceUsdc := a.GetOr(s.allowanceUsdc))
    case UpsertPosition(p) => s.(positions := Put(s.positions, PositionKey(p), p))
    case ReplacePositions(ps) => s.(positions := FromPairs(KeyedPositions(ps)))
    case UpsertOrder(o) => s.(openOrders := Put(s.openOrders, OrderKey(o), o))
    case RemoveOrder(id) => s.(openOrders := Pop(s.openOrders, id))
    case ReplaceOpenOrders(os) => s.(openOrders := FromPairs(KeyedOrders(os)))
    case MarkUserWs(connected) =>
      if connected then
        s.(userWsConnected := true, allowNewEntries := s.lastReconcileAt.Some?)
      else
        s.(userWsConnected := false, lastReconcileAt := None, allowNewEntries := false)
    case SetAllowNewEntries(allowed) => s.(allowNewEntries := allowed && s.EntryGateCanOpen())
    case PauseMarket(p) => s.(marketPauses := Put(s.marketPauses, p.conditionId, p))
    case ResumeMarket(id) => s.(marketPauses := Pop(s.marketPauses, id))
    case MarkReconciled(at) => s.(lastReconcileAt := Some(at), allowNewEntries := s.userWsConnected)
  }

  class AccountStateStore {
    var positions: Dict<Key, Position>
    var openOrders: Dict<string, Order>
    var balanceUsdc: real
    var allowanceUsdc: real
    var userWsConnected: bool
    var allowNewEntries: bool
    var marketPauses: Dict<string, MarketPause>
    var lastReconcileAt: Option<int>
    var snapshot: AccountSnapshot

    ghost function State(): AccountState
      reads this
    {
      AccountState(positions, openOrders, balanceUsdc, allowanceUsdc, userWsConnected, allowNewEntries,
                   marketPauses, lastReconcileAt)
    }

    /** Readers see the fields as they are: every call ends with a publication. */
    ghost predicate Valid()
      reads this
    {
      snapshot == State().Published()
    }

    constructor ()
      ensures Valid() && State() == INITIAL
      ensures positions == [] && openOrders == [] && balanceUsdc == 0.0 && allowanceUsdc == 0.0 && !allowNewEntries
    {
      positions, openOrders := [], [];
      balanceUsdc, allowanceUsdc := 0.0, 0.0;
      userWsConnected, allowNewEntries := false, false;
      marketPauses, lastReconcileAt := [], None;
      snapshot := AccountSnapshot(0.0, 0.0, [], [], false, false, [], None);
    }

    method PublishSnapshot()
      modifies this`snapshot
      ensures Valid()
    {
      snapshot := AccountSnapshot(balanceUsdc, allowanceUsdc, Values(positions), Values(openOrders), userWsConnected,
                                  allowNewEntries, Values(marketPauses), lastReconcileAt);
    }

    predicate EntryGateCanOpen()
      reads this
    {
      userWsConnected && lastReconcileAt.Some?
    }

    method UpdateBalancesOf(balance: Option<real>, allowance: Option<real>)
      modifies this
      ensures Valid() && State() == Step(old(State()), UpdateBalances(balance, allowance))
      ensures balanceUsdc == (if balance.Some? then balance.value else old(balanceUsdc))
      ensures allowanceUsdc == (if allowance.Some? then allowance.value else old(allowanceUsdc))
    {
      if balance.Some? {
        balanceUsdc := balance.value;
      }
      if allowance.Some? {
        allowanceUsdc := allowance.value;
      }
      PublishSnapshot();
    }

    method Upsert(position: Position)
      modifies this
      ensures Valid() && State() == Step(old(State()), UpsertPosition(position))
    {
      positions := Put(positions, PositionKey(position), position);
      PublishSnapshot();
    }

    method ReplaceAllPositions(ps: seq<Position>)
      modifies this
      ensures Valid() && State() == Step(old(State()), ReplacePositions(ps))
    {
      positions := Filled(KeyedPositions(ps));
      PublishSnapshot();
    }

    method UpsertOpenOrder(order: Order)
      modifies this
      ensures Valid() && State() == Step(old(State()), UpsertOrder(order))
    {
      openOrders := Put(openOrders, OrderKey(order), order);
      PublishSnapshot();
    }

    method RemoveOpenOrder(orderId: string)
      modifies this
      ensures Valid() && State() == Step(old(State()), RemoveOrder(orderId))
    {
      openOrders := Pop(openOrders, orderId);
      PublishSnapshot();
    }

    method ReplaceAllOrders(orders: seq<Order>)
      modifies this
      ensures Valid() && State() == Step(old(State()), ReplaceOpenOrders(orders))
    {
      openOrders := Filled(KeyedOrders(orders));
      PublishSnapshot();
    }

    method MarkUserWsConnected(connected: bool)
      modifies this
      ensures Valid() && State() == Step(old(State()), MarkUserWs(connected))
    {
      userWsConnected := connected;
      if !connected {
        lastReconcileAt := None;
        allowNewEntries := false;
      } else {
        allowNewEntries := EntryGateCanOpen();
      }
      PublishSnapshot();
    }

    method SetAllow(allowed: bool)
      modifies this
      ensures Valid() && State() == Step(old(State()), SetAllowNewEntries(allowed))
    {
      allowNewEntries := allowed && EntryGateCanOpen();
      PublishSnapshot();
    }

    method Pause(conditionId: string, reason: string, source: Option<PauseSource>, recoverable: Option<bool>)
      modifies this
      ensures Valid()
      ensures State() == Step(old(State()), PauseMarket(BuildPause(conditionId, reason, source, recoverable)))
    {
      marketPauses := Put(marketPauses, conditionId, BuildPause(conditionId, reason, source, recoverable));
      PublishSnapshot();
    }

    method Resume(conditionId: string)
      modifies this
      ensures Valid() && State() == Step(old(State()), ResumeMarket(conditionId))
    {
      marketPauses := Pop(marketPauses, conditionId);
      PublishSnapshot();
    }

    method Reconciled(at: int)
      modifies this
      ensures Valid() && State() == Step(old(State()), MarkReconciled(at))
    {
      lastReconcileAt := Some(at);
      allowNewEntries := EntryGateCanOpen();
      PublishSnapshot();
    }
  }
}
