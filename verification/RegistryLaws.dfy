/**
 * The registry's indexes against its markets, over every sequence of commits, and what a
 * reader sees that takes no lock while a commit is being published.
 */
module RegistryLaws {
  import opened Wrappers
  import opened Dict
  import opened Domain
  import opened Registry

  datatype RegistryOp =
    | UpsertOp(market: Market)
    | UpdateOp(conditionId: string, updater: Market -> Market)
    | RemoveOp(conditionId: string)

  function Commit(c: Catalogue, op: RegistryOp): Catalogue {
    match op
    case UpsertOp(m) => Upserted(c, m)
    case UpdateOp(id, updater) => Updated(c, id, updater)
    case RemoveOp(id) => Removed(c, id)
  }

  /** Updates change a market's fields, not its identity. */
  predicate KeepsIdentity(c: Catalogue, op: RegistryOp) {
    op.UpdateOp? && Get(c.markets, op.conditionId).Some? ==>
      op.updater(Get(c.markets, op.conditionId).value).conditionId == op.conditionId
  }

  function Committed(c: Catalogue, ops: seq<RegistryOp>): Catalogue {
    if ops == [] then c else Commit(Committed(c, ops[..|ops| - 1]), ops[|ops| - 1])
  }

  predicate KeepIdentities(c: Catalogue, ops: seq<RegistryOp>) {
    forall i :: 0 <= i < |ops| ==> KeepsIdentity(Committed(c, ops[..i]), ops[i])
  }

  // ------------------------------------------------------------------ entries and carriers

  predicate CarriesAmong(m: Market, tokenId: string, n: nat)
    requires n <= |m.outcomes|
  {
    exists i :: 0 <= i < n && m.outcomes[i].tokenId == tokenId
  }

  function Lookup(index: Index, key: string): Option<string> {
    if key in index then Some(index[key]) else None
  }

  lemma {:induction false} DetachedTokens(index: Index, m: Market, n: nat, t: string)
    requires n <= |m.outcomes|
    ensures Lookup(DetachTokens(index, m, n), t)
         == if CarriesAmong(m, t, n) && Lookup(index, t) == Some(m.conditionId) then None else Lookup(index, t)
  {
    if n > 0 {
      DetachedTokens(index, m, n - 1, t);
      assert CarriesAmong(m, t, n) <==> CarriesAmong(m, t, n - 1) || m.outcomes[n - 1].tokenId == t;
    }
  }

  lemma {:induction false} AttachedTokens(index: Index, m: Market, n: nat, t: string)
    requires n <= |m.outcomes|
    ensures Lookup(AttachTokens(index, m, n), t) == if CarriesAmong(m, t, n) then Some(m.conditionId) else Lookup(index, t)
  {
    if n > 0 {
      AttachedTokens(index, m, n - 1, t);
      assert CarriesAmong(m, t, n) <==> CarriesAmong(m, t, n - 1) || m.outcomes[n - 1].tokenId == t;
    }
  }

  /** The two indexes. */
  datatype Kind = Tokens | Slugs

  function IndexOf(c: Catalogue, kind: Kind): Index {
    if kind.Tokens? then c.tokens else c.slugs
  }

  /** A market answers to its tokens, and to its market and event slugs. */
  predicate AnswersTo(m: Market, kind: Kind, key: string) {
    if kind.Tokens? then Carries(m, key) else IndexedSlug(m, key)
  }

  function Scan(markets: seq<Market>, kind: Kind, key: string): Option<Market> {
    if kind.Tokens? then ScanToken(markets, key) else ScanSlug(markets, key)
  }

  function Indexed(c: Catalogue, kind: Kind, key: string): Option<Market> {
    if kind.Tokens? then c.ByToken(key) else c.BySlug(key)
  }

  function Entry(c: Catalogue, kind: Kind, key: string): Option<string> {
    Lookup(IndexOf(c, kind), key)
  }

  lemma EntryAfterDetach(c: Catalogue, m: Market, kind: Kind, key: string)
    ensures Entry(Detached(c, m), kind, key)
         == if AnswersTo(m, kind, key) && Entry(c, kind, key) == Some(m.conditionId) then None else Entry(c, kind, key)
  {
    DetachedTokens(c.tokens, m, |m.outcomes|, key);
  }

  lemma EntryAfterAttach(c: Catalogue, m: Market, kind: Kind, key: string)
    ensures Entry(Attached(c, m.conditionId, m), kind, key)
         == if AnswersTo(m, kind, key) then Some(m.conditionId) else Entry(c, kind, key)
  {
    AttachedTokens(c.tokens, m, |m.outcomes|, key);
  }

  /** An index entry points to a registered market that answers to its key. */
  predicate EntryHolds(c: Catalogue, kind: Kind, key: string) {
    var id := Entry(c, kind, key);
    id.Some? ==> Get(c.markets, id.value).Some? && AnswersTo(Get(c.markets, id.value).value, kind, key)
  }

  ghost predicate Sound(c: Catalogue) {
    && DistinctKeys(c.markets)
    && (forall id: string :: Get(c.markets, id).Some? ==> Get(c.markets, id).value.conditionId == id)
    && (forall kind: Kind, key: string :: EntryHolds(c, kind, key))
  }

  /** `m` about to be registered: what was registered under its id, if anything, is detached. */
  function Cleared(c: Catalogue, id: string): Catalogue {
    if Get(c.markets, id).Some? then Detached(c, Get(c.markets, id).value) else c
  }

  function Registering(c: Catalogue, m: Market): Catalogue {
    Attached(Cleared(c, m.conditionId), m.conditionId, m)
  }

  lemma EntryAfterRegistering(c: Catalogue, m: Market, kind: Kind, key: string)
    requires Sound(c)
    ensures Entry(Registering(c, m), kind, key)
         == if AnswersTo(m, kind, key) then Some(m.conditionId)
            else if Entry(c, kind, key) == Some(m.conditionId) then None else Entry(c, kind, key)
  {
    assert EntryHolds(c, kind, key);
    EntryAfterAttach(Cleared(c, m.conditionId), m, kind, key);
    if Get(c.markets, m.conditionId).Some? {
      EntryAfterDetach(c, Get(c.markets, m.conditionId).value, kind, key);
    }
  }

  lemma MarketAfterRegistering(c: Catalogue, m: Market, id: string)
    ensures Get(Registering(c, m).markets, id) == if id == m.conditionId then Some(m) else Get(c.markets, id)
  {
    GetPut(c.markets, m.conditionId, m, id);
  }

  lemma RegisteringKeepsSound(c: Catalogue, m: Market)
    requires Sound(c)
    ensures Sound(Registering(c, m))
  {
    var e := Registering(c, m);
    PutDistinct(c.markets, m.conditionId, m);
    forall id: string ensures Get(e.markets, id).Some? ==> Get(e.markets, id).value.conditionId == id {
      MarketAfterRegistering(c, m, id);
    }
    forall kind: Kind, key: string ensures EntryHolds(e, kind, key) {
      assert EntryHolds(c, kind, key);
      EntryAfterRegistering(c, m, kind, key);
      if Entry(e, kind, key).Some? {
        MarketAfterRegistering(c, m, Entry(e, kind, key).value);
      }
    }
  }

  lemma MarketAfterRemoving(c: Catalogue, id: string, other: string)
    requires Sound(c)
    ensures Get(Removed(c, id).markets, other) == if other == id then None else Get(c.markets, other)
  {
    GetPop(c.markets, id, other);
  }

  lemma EntryAfterRemoving(c: Catalogue, id: string, kind: Kind, key: string)
    requires Sound(c)
    ensures Entry(Removed(c, id), kind, key) == if Entry(c, kind, key) == Some(id) then None else Entry(c, kind, key)
  {
    assert EntryHolds(c, kind, key);
    if Get(c.markets, id).Some? {
      EntryAfterDetach(c, Get(c.markets, id).value, kind, key);
    }
  }

  lemma RemovingKeepsSound(c: Catalogue, id: string)
    requires Sound(c)
    ensures Sound(Removed(c, id))
  {
    var e := Removed(c, id);
    PopDistinct(c.markets, id);
    forall other: string ensures Get(e.markets, other).Some? ==> Get(e.markets, other).value.conditionId == other {
      MarketAfterRemoving(c, id, other);
    }
    forall kind: Kind, key: string ensures EntryHolds(e, kind, key) {
      assert EntryHolds(c, kind, key);
      EntryAfterRemoving(c, id, kind, key);
      if Entry(e, kind, key).Some? {
        MarketAfterRemoving(c, id, Entry(e, kind, key).value);
      }
    }
  }

  /** A commit registers a market, removes one, or does nothing. */
  lemma CommitIs(c: Catalogue, op: RegistryOp)
    requires Sound(c) && KeepsIdentity(c, op)
    ensures
      match op
      case UpsertOp(m) => Commit(c, op) == Registering(c, m)
      case UpdateOp(id, updater) =>
        Commit(c, op) == if Get(c.markets, id).None? then c else Registering(c, updater(Get(c.markets, id).value))
      case RemoveOp(id) => Commit(c, op) == Removed(c, id)
  {}

  lemma CommitKeepsSound(c: Catalogue, op: RegistryOp)
    requires Sound(c) && KeepsIdentity(c, op)
    ensures Sound(Commit(c, op))
  {
    CommitIs(c, op);
    match op
    case UpsertOp(m) => RegisteringKeepsSound(c, m);
    case UpdateOp(id, updater) =>
      if Get(c.markets, id).Some? {
        RegisteringKeepsSound(c, updater(Get(c.markets, id).value));
      }
    case RemoveOp(id) => RemovingKeepsSound(c, id);
  }

  lemma FrontKeepsIdentities(c: Catalogue, ops: seq<RegistryOp>)
    requires ops != [] && KeepIdentities(c, ops)
    ensures KeepIdentities(c, ops[..|ops| - 1]) && KeepsIdentity(Committed(c, ops[..|ops| - 1]), ops[|ops| - 1])
  {
    var front := ops[..|ops| - 1];
    forall i | 0 <= i < |front| ensures KeepsIdentity(Committed(c, front[..i]), front[i]) {
      assert front[..i] == ops[..i];
    }
  }

  /** In every reachable state each index entry points to a registered market that answers to it. */
  lemma {:induction false} EntriesPointToCarriers(ops: seq<RegistryOp>)
    requires KeepIdentities(EMPTY, ops)
    ensures Sound(Committed(EMPTY, ops))
  {
    if ops != [] {
      FrontKeepsIdentities(EMPTY, ops);
      EntriesPointToCarriers(ops[..|ops| - 1]);
      CommitKeepsSound(Committed(EMPTY, ops[..|ops| - 1]), ops[|ops| - 1]);
    } else {
      assert Sound(EMPTY);
    }
  }

  // --------------------------------------------------------------------- index and scan

  predicate AnsweredBy(c: Catalogue, id: string, kind: Kind, key: string) {
    Get(c.markets, id).Some? && AnswersTo(Get(c.markets, id).value, kind, key)
  }

  /** No two registered markets answer to the same key. */
  ghost predicate KeysApart(c: Catalogue, kind: Kind) {
    forall key: string, a: string, b: string :: AnsweredBy(c, a, kind, key) && AnsweredBy(c, b, kind, key) ==> a == b
  }

  /** Every key of a registered market has an index entry. */
  ghost predicate AllIndexed(c: Catalogue, kind: Kind) {
    forall key: string, id: string :: AnsweredBy(c, id, kind, key) ==> Entry(c, kind, key).Some?
  }

  predicate Scannable(kind: Kind, key: string) { kind.Tokens? || key != "" }

  lemma {:induction false} ScanFindsOne(markets: Dict<string, Market>, kind: Kind, key: string)
    requires Scannable(kind, key)
    ensures Scan(Values(markets), kind, key).None? ==>
      forall i :: 0 <= i < |markets| ==> !AnswersTo(markets[i].1, kind, key)
    ensures Scan(Values(markets), kind, key).Some? ==>
      AnswersTo(Scan(Values(markets), kind, key).value, kind, key)
      && exists i :: 0 <= i < |markets| && markets[i].1 == Scan(Values(markets), kind, key).value
  {
    if markets != [] {
      assert Values(markets)[1..] == Values(markets[1..]);
      if !AnswersTo(markets[0].1, kind, key) {
        ScanFindsOne(markets[1..], kind, key);
        if Scan(Values(markets), kind, key).Some? {
          var i :| 0 <= i < |markets[1..]| && markets[1..][i].1 == Scan(Values(markets), kind, key).value;
          assert markets[i + 1].1 == markets[1..][i].1;
        }
      } else {
        assert markets[0].1 == Scan(Values(markets), kind, key).value;
      }
    }
  }

  lemma StoredIsGot(c: Catalogue, i: nat)
    requires Sound(c) && i < |c.markets|
    ensures Get(c.markets, c.markets[i].0) == Some(c.markets[i].1) && c.markets[i].1.conditionId == c.markets[i].0
  {
    EntryIsGot(c.markets, i);
    assert Get(c.markets, c.markets[i].0).Some?;
  }

  /** With all keys indexed and none shared, the index answers like the scan of the snapshot. */
  lemma IndexIsScan(c: Catalogue, kind: Kind, key: string)
    requires Sound(c) && KeysApart(c, kind) && AllIndexed(c, kind) && Scannable(kind, key)
    ensures Indexed(c, kind, key) == Scan(c.Markets(), kind, key)
  {
    ScanFindsOne(c.markets, kind, key);
    assert EntryHolds(c, kind, key);
    var found := Scan(c.Markets(), kind, key);
    if found.Some? {
      var i :| 0 <= i < |c.markets| && c.markets[i].1 == found.value;
      StoredIsGot(c, i);
      assert AnsweredBy(c, c.markets[i].0, kind, key);
      assert AnsweredBy(c, Entry(c, kind, key).value, kind, key);
    } else if Entry(c, kind, key).Some? {
      GetIsEntry(c.markets, Entry(c, kind, key).value);
    }
  }

  /** Market `id` holds the entry of a key that another registered market answers to as well. */
  predicate Strips(c: Catalogue, id: string, other: string, kind: Kind, key: string) {
    other != id && AnsweredBy(c, other, kind, key) && Entry(c, kind, key) == Some(id)
  }

  /** Removing a market leaves every remaining key indexed exactly when it held no entry another market needs. */
  lemma RemovalKeepsIndexExactlyWhen(c: Catalogue, id: string, kind: Kind)
    requires Sound(c) && AllIndexed(c, kind)
    ensures AllIndexed(Removed(c, id), kind) <==> !exists other, key :: Strips(c, id, other, kind, key)
  {
    var e := Removed(c, id);
    if other, key :| Strips(c, id, other, kind, key) {
      MarketAfterRemoving(c, id, other);
      EntryAfterRemoving(c, id, kind, key);
      assert AnsweredBy(e, other, kind, key);
    } else {
      forall key: string, other: string | AnsweredBy(e, other, kind, key) ensures Entry(e, kind, key).Some? {
        MarketAfterRemoving(c, id, other);
        EntryAfterRemoving(c, id, kind, key);
        assert AnsweredBy(c, other, kind, key);
        assert !Strips(c, id, other, kind, key);
      }
    }
  }

  /** Registering `m` takes away the entry of a key another market needs and `m` does not answer to. */
  predicate Displaces(c: Catalogue, m: Market, other: string, kind: Kind, key: string) {
    Strips(c, m.conditionId, other, kind, key) && !AnswersTo(m, kind, key)
  }

  /** Registering a market, new or again, leaves every key indexed exactly when it gives up no entry another market needs. */
  lemma RegisteringKeepsIndexExactlyWhen(c: Catalogue, m: Market, kind: Kind)
    requires Sound(c) && AllIndexed(c, kind)
    ensures AllIndexed(Registering(c, m), kind) <==> !exists other, key :: Displaces(c, m, other, kind, key)
  {
    var e := Registering(c, m);
    if other, key :| Displaces(c, m, other, kind, key) {
      MarketAfterRegistering(c, m, other);
      EntryAfterRegistering(c, m, kind, key);
      assert AnsweredBy(e, other, kind, key);
    } else {
      forall key: string, id: string | AnsweredBy(e, id, kind, key) ensures Entry(e, kind, key).Some? {
        MarketAfterRegistering(c, m, id);
        EntryAfterRegistering(c, m, kind, key);
        assert id != m.conditionId ==> AnsweredBy(c, id, kind, key);
        assert !Displaces(c, m, id, kind, key);
      }
    }
  }

  /** With no key shared, nobody holds an entry another market needs. */
  lemma ApartStripsNothing(c: Catalogue, id: string, other: string, kind: Kind, key: string)
    requires Sound(c) && KeysApart(c, kind)
    ensures !Strips(c, id, other, kind, key)
  {
    assert EntryHolds(c, kind, key);
    assert Entry(c, kind, key) == Some(id) ==> AnsweredBy(c, id, kind, key);
  }

  /** The market a commit registers, if it registers one. */
  function Registered(c: Catalogue, op: RegistryOp): Option<Market> {
    match op
    case UpsertOp(m) => Some(m)
    case UpdateOp(id, updater) => if Get(c.markets, id).None? then None else Some(updater(Get(c.markets, id).value))
    case RemoveOp(_) => None
  }

  /** A commit costs a key its entry: a removal of its holder, or a registration by which the holder gives it up. */
  predicate CostsEntry(c: Catalogue, op: RegistryOp, other: string, kind: Kind, key: string) {
    || (op.RemoveOp? && Strips(c, op.conditionId, other, kind, key))
    || (Registered(c, op).Some? && Displaces(c, Registered(c, op).value, other, kind, key))
  }

  /** Every commit leaves every key indexed exactly when it costs none its entry. */
  lemma CommitKeepsIndexExactlyWhen(c: Catalogue, op: RegistryOp, kind: Kind)
    requires Sound(c) && KeepsIdentity(c, op) && AllIndexed(c, kind)
    ensures AllIndexed(Commit(c, op), kind) <==> !exists other, key :: CostsEntry(c, op, other, kind, key)
  {
    CommitIs(c, op);
    if op.RemoveOp? {
      RemovalKeepsIndexExactlyWhen(c, op.conditionId, kind);
      assert forall other, key :: CostsEntry(c, op, other, kind, key) <==> Strips(c, op.conditionId, other, kind, key);
    } else if Registered(c, op).Some? {
      var m := Registered(c, op).value;
      RegisteringKeepsIndexExactlyWhen(c, m, kind);
      assert forall other, key :: CostsEntry(c, op, other, kind, key) <==> Displaces(c, m, other, kind, key);
    }
  }

  lemma CommitKeepsIndex(c: Catalogue, op: RegistryOp, kind: Kind)
    requires Sound(c) && KeepsIdentity(c, op) && AllIndexed(c, kind) && KeysApart(c, kind)
    ensures AllIndexed(Commit(c, op), kind)
  {
    forall other, key ensures !CostsEntry(c, op, other, kind, key) {
      if Registered(c, op).Some? {
        ApartStripsNothing(c, Registered(c, op).value.conditionId, other, kind, key);
      } else {
        ApartStripsNothing(c, op.conditionId, other, kind, key);
      }
    }
    CommitKeepsIndexExactlyWhen(c, op, kind);
  }

  ghost predicate AlwaysApart(c: Catalogue, ops: seq<RegistryOp>, kind: Kind) {
    forall n :: 0 <= n <= |ops| ==> KeysApart(Committed(c, ops[..n]), kind)
  }

  lemma {:induction false} RunsKeepIndex(ops: seq<RegistryOp>, kind: Kind)
    requires KeepIdentities(EMPTY, ops) && AlwaysApart(EMPTY, ops, kind)
    ensures AllIndexed(Committed(EMPTY, ops), kind)
  {
    if ops != [] {
      var front := ops[..|ops| - 1];
      FrontKeepsIdentities(EMPTY, ops);
      forall n | 0 <= n <= |front| ensures KeysApart(Committed(EMPTY, front[..n]), kind) {
        assert front[..n] == ops[..n];
      }
      RunsKeepIndex(front, kind);
      EntriesPointToCarriers(front);
      assert front[..|front|] == front;
      CommitKeepsIndex(Committed(EMPTY, front), ops[|ops| - 1], kind);
    }
  }

  /**
   * In every run in which no two registered markets ever share a token (a slug), looking
   * one up in the index is scanning the snapshot for it.
   */
  lemma LookupIsScan(ops: seq<RegistryOp>, kind: Kind, key: string)
    requires KeepIdentities(EMPTY, ops) && AlwaysApart(EMPTY, ops, kind) && Scannable(kind, key)
    ensures Indexed(Committed(EMPTY, ops), kind, key) == Scan(Committed(EMPTY, ops).Markets(), kind, key)
  {
    RunsKeepIndex(ops, kind);
    EntriesPointToCarriers(ops);
    assert ops[..|ops|] == ops;
    IndexIsScan(Committed(EMPTY, ops), kind, key);
  }

  /**
   * That the markets registered now share nothing is not enough. With two markets sharing a
   * key, the index finds the one registered last, the scan the first; and once the last one is
   * removed the index has lost the key that the first one still answers to.
   */
  lemma SharedKeyIsLost(a: Market, b: Market, kind: Kind, key: string)
    requires a.conditionId != b.conditionId && AnswersTo(a, kind, key) && AnswersTo(b, kind, key) && Scannable(kind, key)
    ensures
      var both := Committed(EMPTY, [UpsertOp(a), UpsertOp(b)]);
      Indexed(both, kind, key) == Some(b) && Scan(both.Markets(), kind, key) == Some(a)
    ensures
      var left := Committed(EMPTY, [UpsertOp(a), UpsertOp(b), RemoveOp(b.conditionId)]);
      Indexed(left, kind, key).None? && left.Markets() == [a] && Scan(left.Markets(), kind, key) == Some(a)
  {
    var one, both := Registering(EMPTY, a), Registering(Registering(EMPTY, a), b);
    assert Sound(EMPTY);
    RegisteringKeepsSound(EMPTY, a);
    RegisteringKeepsSound(one, b);
    CommitTwice(a, b);
    EntryAfterRegistering(EMPTY, a, kind, key);
    EntryAfterRegistering(one, b, kind, key);
    MarketAfterRegistering(one, b, b.conditionId);
    EntryAfterRemoving(both, b.conditionId, kind, key);
    TwoMarkets(a, b);
    ScanOfTwo(a, b, kind, key);
  }

  lemma TwoMarkets(a: Market, b: Market)
    requires a.conditionId != b.conditionId
    ensures Put(Put([], a.conditionId, a), b.conditionId, b) == [(a.conditionId, a), (b.conditionId, b)]
    ensures Pop([(a.conditionId, a), (b.conditionId, b)], b.conditionId) == [(a.conditionId, a)]
    ensures Get([(a.conditionId, a), (b.conditionId, b)], b.conditionId) == Some(b)
  {
    var one := [(a.conditionId, a)];
    assert Put([], a.conditionId, a) == one;
    assert one[1..] == [];
    assert (one + [(b.conditionId, b)])[1..] == [(b.conditionId, b)];
    assert [(b.conditionId, b)][1..] == [];
  }

  lemma ScanOfTwo(a: Market, b: Market, kind: Kind, key: string)
    requires AnswersTo(a, kind, key) && Scannable(kind, key)
    ensures Values([(a.conditionId, a), (b.conditionId, b)]) == [a, b] && Scan([a, b], kind, key) == Some(a)
    ensures Values([(a.conditionId, a)]) == [a] && Scan([a], kind, key) == Some(a)
  {}

  lemma CommitTwice(a: Market, b: Market)
    ensures Committed(EMPTY, [UpsertOp(a), UpsertOp(b)]) == Registering(Registering(EMPTY, a), b)
    ensures Committed(EMPTY, [UpsertOp(a), UpsertOp(b), RemoveOp(b.conditionId)])
         == Removed(Registering(Registering(EMPTY, a), b), b.conditionId)
  {
    assert [UpsertOp(a)][..0] == [];
    assert [UpsertOp(a), UpsertOp(b)][..1] == [UpsertOp(a)];
    assert [UpsertOp(a), UpsertOp(b), RemoveOp(b.conditionId)][..2] == [UpsertOp(a), UpsertOp(b)];
    assert Committed(EMPTY, [UpsertOp(a)]) == Registering(EMPTY, a);
  }
}
