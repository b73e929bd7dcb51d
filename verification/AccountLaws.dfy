/** What holds of the account state after every sequence of calls. */
module AccountLaws {
  import opened Dict
  import opened Domain
  import opened AccountStore

  function Run(s: AccountState, ops: seq<StoreOp>): AccountState {
    if ops == [] then s else Step(Run(s, ops[..|ops| - 1]), ops[|ops| - 1])
  }

  // ----------------------------------------------------------------- the entry gate

  /** The user stream connected with call `c` and has not dropped since. */
  predicate ConnectedAt(ops: seq<StoreOp>, c: nat) {
    c < |ops| && ops[c] == MarkUserWs(true) && forall j :: c < j < |ops| ==> ops[j] != MarkUserWs(false)
  }

  /** Call `r` reconciled the account and the user stream has not dropped since. */
  predicate ReconciledAt(ops: seq<StoreOp>, r: nat) {
    r < |ops| && ops[r].MarkReconciled? && forall j :: r < j < |ops| ==> ops[j] != MarkUserWs(false)
  }

  predicate DecidesEntries(op: StoreOp) {
    op.MarkUserWs? || op.SetAllowNewEntries? || op.MarkReconciled?
  }

  /** Call `k` stopped entries, and no later call decided anew. */
  predicate StoppedAt(ops: seq<StoreOp>, k: nat) {
    k < |ops| && ops[k] == SetAllowNewEntries(false) && forall j :: k < j < |ops| ==> !DecidesEntries(ops[j])
  }

  ghost predicate Connected(ops: seq<StoreOp>) { exists c: nat :: ConnectedAt(ops, c) }
  ghost predicate ReconciledSinceDrop(ops: seq<StoreOp>) { exists r: nat :: ReconciledAt(ops, r) }
  ghost predicate Stopped(ops: seq<StoreOp>) { exists k: nat :: StoppedAt(ops, k) }

  lemma ConnectedStep(ops: seq<StoreOp>)
    requires ops != []
    ensures
      var last := ops[|ops| - 1];
      Connected(ops) <==> if last.MarkUserWs? then last.connected else Connected(ops[..|ops| - 1])
  {
    var n := |ops| - 1;
    if ops[n] == MarkUserWs(true) {
      assert ConnectedAt(ops, n);
    } else if !ops[n].MarkUserWs? {
      if c: nat :| ConnectedAt(ops[..n], c) {
        assert ConnectedAt(ops, c);
      }
      if c: nat :| ConnectedAt(ops, c) {
        assert ConnectedAt(ops[..n], c);
      }
    }
  }

  lemma ReconciledStep(ops: seq<StoreOp>)
    requires ops != []
    ensures
      var last := ops[|ops| - 1];
      ReconciledSinceDrop(ops) <==>
        last.MarkReconciled? || (last != MarkUserWs(false) && ReconciledSinceDrop(ops[..|ops| - 1]))
  {
    var n := |ops| - 1;
    if ops[n].MarkReconciled? {
      assert ReconciledAt(ops, n);
    } else if ops[n] != MarkUserWs(false) {
      if r: nat :| ReconciledAt(ops[..n], r) {
        assert ReconciledAt(ops, r);
      }
      if r: nat :| ReconciledAt(ops, r) {
        assert ReconciledAt(ops[..n], r);
      }
    }
  }

  lemma StoppedStep(ops: seq<StoreOp>)
    requires ops != []
    ensures
      var last := ops[|ops| - 1];
      Stopped(ops) <==>
        if DecidesEntries(last) then last == SetAllowNewEntries(false) else Stopped(ops[..|ops| - 1])
  {
    var n := |ops| - 1;
    if ops[n] == SetAllowNewEntries(false) {
      assert StoppedAt(ops, n);
    } else if !DecidesEntries(ops[n]) {
      if k: nat :| StoppedAt(ops[..n], k) {
        assert StoppedAt(ops, k);
      }
      if k: nat :| StoppedAt(ops, k) {
        assert StoppedAt(ops[..n], k);
      }
    }
  }

  /** What one call makes of the three flags. */
  lemma FlagsStep(s: AccountState, op: StoreOp)
    ensures
      var t := Step(s, op);
      && t.userWsConnected == (if op.MarkUserWs? then op.connected else s.userWsConnected)
      && t.lastReconcileAt.Some? == (op.MarkReconciled? || (op != MarkUserWs(false) && s.lastReconcileAt.Some?))
      && t.allowNewEntries == if DecidesEntries(op)
                              then op != SetAllowNewEntries(false) && t.userWsConnected && t.lastReconcileAt.Some?
                              else s.allowNewEntries
  {}

  /**
   * When entries are allowed, over every sequence of calls: exactly when the user stream
   * is connected, the account was reconciled after the last drop, and the last call that
   * decided about entries was not a stop.
   */
  lemma {:induction false} EntriesAllowedExactlyWhen(ops: seq<StoreOp>)
    ensures Run(INITIAL, ops).userWsConnected <==> Connected(ops)
    ensures Run(INITIAL, ops).lastReconcileAt.Some? <==> ReconciledSinceDrop(ops)
    ensures Run(INITIAL, ops).allowNewEntries <==> Connected(ops) && ReconciledSinceDrop(ops) && !Stopped(ops)
  {
    if ops == [] {
      assert !Connected(ops) && !ReconciledSinceDrop(ops);
    } else {
      var front, last := ops[..|ops| - 1], ops[|ops| - 1];
      EntriesAllowedExactlyWhen(front);
      FlagsStep(Run(INITIAL, front), last);
      assert Run(INITIAL, ops) == Step(Run(INITIAL, front), last);
      ConnectedStep(ops);
      ReconciledStep(ops);
      StoppedStep(ops);
    }
  }

  /** A stop is not lasting: a later request to allow entries, or a reconcile pass, lifts it. */
  lemma StopIsLiftedByNextDecision(s: AccountState, at: int)
    requires s.EntryGateCanOpen()
    ensures !Step(s, SetAllowNewEntries(false)).allowNewEntries
    ensures Step(Step(s, SetAllowNewEntries(false)), SetAllowNewEntries(true)).allowNewEntries
    ensures Step(Step(s, SetAllowNewEntries(false)), MarkReconciled(at)).allowNewEntries
  {}

  // --------------------------------------------------------------------- well-keyed

  predicate WellKeyed(s: AccountState) {
    && DistinctKeys(s.positions) && DistinctKeys(s.openOrders) && DistinctKeys(s.marketPauses)
    && (forall e :: e in s.positions ==> e.0 == PositionKey(e.1))
    && (forall e :: e in s.openOrders ==> e.0 == OrderKey(e.1))
    && (forall e :: e in s.marketPauses ==> e.0 == e.1.conditionId)
  }

  lemma {:induction false} PairsAreEntries<K, V>(pairs: seq<(K, V)>)
    ensures forall e :: e in FromPairs(pairs) ==> e in pairs
  {
    if pairs != [] {
      var n := |pairs| - 1;
      PairsAreEntries(pairs[..n]);
      PutEntries(FromPairs(pairs[..n]), pairs[n].0, pairs[n].1);
      forall e | e in FromPairs(pairs) ensures e in pairs {
        assert pairs[n] in pairs;
      }
    }
  }

  lemma StepKeepsKeys(s: AccountState, op: StoreOp)
    requires WellKeyed(s)
    ensures WellKeyed(Step(s, op))
  {
    match op
    case UpsertPosition(p) =>
      PutDistinct(s.positions, PositionKey(p), p);
      PutEntries(s.positions, PositionKey(p), p);
    case ReplacePositions(ps) =>
      FromPairsDistinct(KeyedPositions(ps));
      PairsAreEntries(KeyedPositions(ps));
    case UpsertOrder(o) =>
      PutDistinct(s.openOrders, OrderKey(o), o);
      PutEntries(s.openOrders, OrderKey(o), o);
    case RemoveOrder(id) =>
      PopDistinct(s.openOrders, id);
      PopKeys(s.openOrders, id);
    case ReplaceOpenOrders(os) =>
      FromPairsDistinct(KeyedOrders(os));
      PairsAreEntries(KeyedOrders(os));
    case PauseMarket(p) =>
      PutDistinct(s.marketPauses, p.conditionId, p);
      PutEntries(s.marketPauses, p.conditionId, p);
    case ResumeMarket(id) =>
      PopDistinct(s.marketPauses, id);
      PopKeys(s.marketPauses, id);
    case _ =>
  }

  lemma {:induction false} RunsAreWellKeyed(s: AccountState, ops: seq<StoreOp>)
    requires WellKeyed(s)
    ensures WellKeyed(Run(s, ops))
  {
    if ops != [] {
      RunsAreWellKeyed(s, ops[..|ops| - 1]);
      StepKeepsKeys(Run(s, ops[..|ops| - 1]), ops[|ops| - 1]);
    }
  }

  // ------------------------------------------------- snapshots answer like the dictionaries

  lemma {:induction false} FirstPositionIsGet(positions: Dict<Key, Position>, key: Key)
    requires forall e :: e in positions ==> e.0 == PositionKey(e.1)
    ensures FirstPosition(Values(positions), key) == Get(positions, key)
  {
    if positions != [] {
      assert positions[0] in positions;
      assert Values(positions)[1..] == Values(positions[1..]);
      FirstPositionIsGet(positions[1..], key);
    }
  }

  lemma {:induction false} FirstPauseIsGet(pauses: Dict<string, MarketPause>, conditionId: string)
    requires forall e :: e in pauses ==> e.0 == e.1.conditionId
    ensures FirstPause(Values(pauses), conditionId) == Get(pauses, conditionId)
  {
    if pauses != [] {
      assert pauses[0] in pauses;
      assert Values(pauses)[1..] == Values(pauses[1..]);
      FirstPauseIsGet(pauses[1..], conditionId);
    }
  }

  /** The shares an order adds to the selling of a token. */
  function SellWeightOf(key: Key): Order -> real {
    (o: Order) => if (o.conditionId, o.tokenId) == key then SellWeight(o) else 0.0
  }

  lemma {:induction false} SellSharesHead(o: Order, rest: seq<Order>, key: Key)
    ensures SellShares(OrdersFor([o] + rest, key)) == SellWeightOf(key)(o) + SellShares(OrdersFor(rest, key))
  {
    var all := [o] + rest;
    if rest == [] {
      assert all[..0] == [];
    } else {
      var n := |rest| - 1;
      assert all[..|all| - 1] == [o] + rest[..n];
      assert all[|all| - 1] == rest[n];
      SellSharesHead(o, rest[..n], key);
      SellSharesOfFilter([o] + rest[..n], rest[n], key);
      SellSharesOfFilter(rest[..n], rest[n], key);
      assert [o] + rest[..n] + [rest[n]] == all && rest[..n] + [rest[n]] == rest;
    }
  }

  lemma SellSharesOfFilter(front: seq<Order>, last: Order, key: Key)
    ensures SellShares(OrdersFor(front + [last], key)) == SellShares(OrdersFor(front, key)) + SellWeightOf(key)(last)
  {
    var all := front + [last];
    assert all[..|all| - 1] == front;
    var kept := OrdersFor(front, key);
    if (last.conditionId, last.tokenId) == key {
      assert (kept + [last])[..|kept|] == kept;
    } else {
      assert OrdersFor(all, key) == kept;
    }
  }

  /** The recomputed shares being sold are a sum over the stored orders. */
  lemma {:induction false} SellSharesIsTotal(orders: Dict<string, Order>, key: Key)
    ensures SellShares(OrdersFor(Values(orders), key)) == Total(orders, SellWeightOf(key))
  {
    if orders != [] {
      assert Values(orders) == [orders[0].1] + Values(orders[1..]);
      SellSharesHead(orders[0].1, Values(orders[1..]), key);
      SellSharesIsTotal(orders[1..], key);
    }
  }
}
