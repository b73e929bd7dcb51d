/**
 * Readers that take no lock, interleaved with the four assignments of a publication. A
 * token is looked up in two reads: the index first, the markets later.
 */
module RegistryReaders {
  import opened Wrappers
  import opened Dict
  import opened Domain
  import opened Registry
  import opened RegistryLaws

  /** The registry's memory: quiet, or with the first `fields` of its four fields published. */
  datatype Memory =
    | Quiet(now: Catalogue)
    | Publishing(before: Catalogue, next: Catalogue, fields: nat)
  {
    function SeenMarkets(): Dict<string, Market> {
      if Quiet? then now.markets else if fields >= 1 then next.markets else before.markets
    }

    function SeenTokens(): Index {
      if Quiet? then now.tokens else if fields >= 2 then next.tokens else before.tokens
    }
  }

  /** A writer takes the commit lock and prepares its copies, or publishes the next field. */
  datatype Micro = Begin(op: RegistryOp) | Assign

  function MicroStep(m: Memory, step: Micro): Memory {
    match m
    case Quiet(now) => if step.Begin? then Publishing(now, Commit(now, step.op), 0) else m
    case Publishing(before, next, fields) =>
      if step.Begin? then m
      else if fields >= 3 then Quiet(next)
      else Publishing(before, next, fields + 1)
  }

  function After(steps: seq<Micro>): Memory {
    if steps == [] then Quiet(EMPTY) else MicroStep(After(steps[..|steps| - 1]), steps[|steps| - 1])
  }

  /** A token read whose index read falls after `n` steps and whose market read falls after `k`. */
  function ReadToken(steps: seq<Micro>, n: nat, k: nat, tokenId: string): Option<Market>
    requires n <= k <= |steps|
  {
    var index := After(steps[..n]).SeenTokens();
    if tokenId in index then Get(After(steps[..k]).SeenMarkets(), index[tokenId]) else None
  }

  // -------------------------------------------------------------------- fixed token sets

  /** The tokens of each condition id, fixed once and for all. */
  type TokenSets = string -> set<string>

  ghost predicate Fits(m: Market, sets: TokenSets) {
    forall t: string :: Carries(m, t) <==> t in sets(m.conditionId)
  }

  ghost predicate Allowed(now: Catalogue, op: RegistryOp, sets: TokenSets) {
    match op
    case UpsertOp(m) => Fits(m, sets)
    case UpdateOp(id, updater) =>
      KeepsIdentity(now, op) && (Get(now.markets, id).Some? ==> Fits(updater(Get(now.markets, id).value), sets))
    case RemoveOp(_) => true
  }

  ghost predicate AllFit(c: Catalogue, sets: TokenSets) {
    forall id: string :: Get(c.markets, id).Some? ==> Fits(Get(c.markets, id).value, sets)
  }

  ghost predicate Good(c: Catalogue, sets: TokenSets) { Sound(c) && AllFit(c, sets) }

  lemma CommitKeepsGood(c: Catalogue, op: RegistryOp, sets: TokenSets)
    requires Good(c, sets) && Allowed(c, op, sets)
    ensures Good(Commit(c, op), sets)
  {
    CommitIs(c, op);
    CommitKeepsSound(c, op);
    forall id: string | Get(Commit(c, op).markets, id).Some? ensures Fits(Get(Commit(c, op).markets, id).value, sets) {
      match op
      case UpsertOp(m) => MarketAfterRegistering(c, m, id);
      case UpdateOp(own, updater) =>
        if Get(c.markets, own).Some? {
          MarketAfterRegistering(c, updater(Get(c.markets, own).value), id);
        }
      case RemoveOp(gone) => MarketAfterRemoving(c, gone, id);
    }
  }

  ghost predicate AllAllowed(steps: seq<Micro>, sets: TokenSets) {
    forall i :: 0 <= i < |steps| && steps[i].Begin? && After(steps[..i]).Quiet? ==>
      Allowed(After(steps[..i]).now, steps[i].op, sets)
  }

  ghost predicate GoodMemory(m: Memory, sets: TokenSets) {
    match m
    case Quiet(now) => Good(now, sets)
    case Publishing(before, next, _) => Good(before, sets) && Good(next, sets)
  }

  lemma FrontAllowed(steps: seq<Micro>, n: nat, sets: TokenSets)
    requires AllAllowed(steps, sets) && n <= |steps|
    ensures AllAllowed(steps[..n], sets)
  {
    forall i | 0 <= i < n && steps[..n][i].Begin? && After(steps[..n][..i]).Quiet?
      ensures Allowed(After(steps[..n][..i]).now, steps[..n][i].op, sets)
    {
      assert steps[..n][..i] == steps[..i];
    }
  }

  lemma {:induction false} MemoryStaysGood(steps: seq<Micro>, sets: TokenSets)
    requires AllAllowed(steps, sets)
    ensures GoodMemory(After(steps), sets)
  {
    if steps != [] {
      var n := |steps| - 1;
      FrontAllowed(steps, n, sets);
      MemoryStaysGood(steps[..n], sets);
      var m := After(steps[..n]);
      if m.Quiet? && steps[n].Begin? {
        CommitKeepsGood(m.now, steps[n].op, sets);
      }
    } else {
      assert Sound(EMPTY);
    }
  }

  /** A visible index entry is one of its condition id's tokens. */
  lemma SeenEntryIsOwn(m: Memory, sets: TokenSets, t: string)
    requires GoodMemory(m, sets) && t in m.SeenTokens()
    ensures t in sets(m.SeenTokens()[t])
  {
    var c := if m.Quiet? then m.now else if m.fields >= 2 then m.next else m.before;
    assert EntryHolds(c, Tokens, t);
    assert Entry(c, Tokens, t) == Some(m.SeenTokens()[t]);
    assert Fits(Get(c.markets, m.SeenTokens()[t]).value, sets);
  }

  lemma SeenMarketFits(m: Memory, sets: TokenSets, id: string)
    requires GoodMemory(m, sets) && Get(m.SeenMarkets(), id).Some?
    ensures Get(m.SeenMarkets(), id).value.conditionId == id && Fits(Get(m.SeenMarkets(), id).value, sets)
  {
    var c := if m.Quiet? then m.now else if m.fields >= 1 then m.next else m.before;
    assert Get(c.markets, id).Some?;
  }

  /** However a read falls between the assignments of commits, it finds nothing or a market carrying the token. */
  lemma ReadFindsCarrierOrNothing(steps: seq<Micro>, sets: TokenSets, n: nat, k: nat, t: string)
    requires AllAllowed(steps, sets) && n <= k <= |steps|
    ensures ReadToken(steps, n, k, t).Some? ==> Carries(ReadToken(steps, n, k, t).value, t)
  {
    FrontAllowed(steps, n, sets);
    FrontAllowed(steps, k, sets);
    MemoryStaysGood(steps[..n], sets);
    MemoryStaysGood(steps[..k], sets);
    if ReadToken(steps, n, k, t).Some? {
      var id := After(steps[..n]).SeenTokens()[t];
      SeenEntryIsOwn(After(steps[..n]), sets, t);
      SeenMarketFits(After(steps[..k]), sets, id);
    }
  }

  // ---------------------------------------------------------- markets that are never removed

  ghost predicate Disjoint(sets: TokenSets) {
    forall a: string, b: string, t: string :: t in sets(a) && t in sets(b) ==> a == b
  }

  predicate NeverRemoved(steps: seq<Micro>, id: string) {
    forall i :: 0 <= i < |steps| && steps[i].Begin? ==> steps[i].op != RemoveOp(id)
  }

  lemma CommitKeepsEntry(c: Catalogue, op: RegistryOp, sets: TokenSets, id: string, t: string)
    requires Good(c, sets) && Allowed(c, op, sets) && Disjoint(sets) && op != RemoveOp(id)
    requires Lookup(c.tokens, t) == Some(id)
    ensures Lookup(Commit(c, op).tokens, t) == Some(id)
  {
    CommitIs(c, op);
    assert EntryHolds(c, Tokens, t) && Entry(c, Tokens, t) == Some(id);
    assert Fits(Get(c.markets, id).value, sets);
    match op
    case UpsertOp(m) => EntryAfterRegistering(c, m, Tokens, t);
    case UpdateOp(own, updater) =>
      if Get(c.markets, own).Some? {
        EntryAfterRegistering(c, updater(Get(c.markets, own).value), Tokens, t);
      }
    case RemoveOp(gone) => EntryAfterRemoving(c, gone, Tokens, t);
  }

  /** A publication under way takes no entry away from `id`. */
  ghost predicate KeepsEntries(m: Memory, id: string) {
    m.Publishing? ==> forall t: string :: Lookup(m.before.tokens, t) == Some(id) ==> Lookup(m.next.tokens, t) == Some(id)
  }

  lemma {:induction false} NoEntryIsTakenAway(steps: seq<Micro>, sets: TokenSets, id: string)
    requires AllAllowed(steps, sets) && Disjoint(sets) && NeverRemoved(steps, id)
    ensures KeepsEntries(After(steps), id)
  {
    if steps != [] {
      var n := |steps| - 1;
      FrontAllowed(steps, n, sets);
      NoEntryIsTakenAway(steps[..n], sets, id);
      MemoryStaysGood(steps[..n], sets);
      var m := After(steps[..n]);
      if m.Quiet? && steps[n].Begin? {
        forall t: string | Lookup(m.now.tokens, t) == Some(id) ensures Lookup(Commit(m.now, steps[n].op).tokens, t) == Some(id) {
          CommitKeepsEntry(m.now, steps[n].op, sets, id, t);
        }
      }
    }
  }

  /** The entry is visible, will stay so after the publication under way, and its market is visible too. */
  predicate Held(m: Memory, id: string, t: string) {
    && Lookup(m.SeenTokens(), t) == Some(id) && Get(m.SeenMarkets(), id).Some?
    && (m.Publishing? ==> Lookup(m.next.tokens, t) == Some(id) && Get(m.next.markets, id).Some?)
  }

  lemma SeenIsHeld(m: Memory, sets: TokenSets, id: string, t: string)
    requires GoodMemory(m, sets) && KeepsEntries(m, id) && Lookup(m.SeenTokens(), t) == Some(id)
    ensures Held(m, id, t)
  {
    match m
    case Quiet(now) => assert EntryHolds(now, Tokens, t) && Entry(now, Tokens, t) == Some(id);
    case Publishing(before, next, fields) =>
      if fields < 2 {
        assert EntryHolds(before, Tokens, t) && Entry(before, Tokens, t) == Some(id);
      }
      assert EntryHolds(next, Tokens, t) && Entry(next, Tokens, t) == Some(id);
  }

  lemma StepKeepsSight(m: Memory, step: Micro, id: string, t: string)
    requires Held(m, id, t)
    ensures Lookup(MicroStep(m, step).SeenTokens(), t) == Some(id)
  {}

  /**
   * Once the index entry of a market that is never removed is visible, every later read of
   * that token finds the market: its index read because the entry stays, its market read
   * because the markets were published before the index and are read after it.
   */
  lemma {:induction false} VisibleMarketIsAlwaysFound(steps: seq<Micro>, sets: TokenSets, seen: nat, n: nat, k: nat,
                                                      id: string, t: string)
    requires AllAllowed(steps, sets) && Disjoint(sets) && NeverRemoved(steps, id) && seen <= n <= k <= |steps|
    requires Lookup(After(steps[..seen]).SeenTokens(), t) == Some(id)
    ensures ReadToken(steps, n, k, t).Some? && ReadToken(steps, n, k, t).value.conditionId == id
  {
    SightLasts(steps, sets, seen, n, id, t);
    SightLasts(steps, sets, seen, k, id, t);
    FrontAllowed(steps, k, sets);
    MemoryStaysGood(steps[..k], sets);
    SeenMarketFits(After(steps[..k]), sets, id);
  }

  lemma {:induction false} SightLasts(steps: seq<Micro>, sets: TokenSets, seen: nat, n: nat, id: string, t: string)
    requires AllAllowed(steps, sets) && Disjoint(sets) && NeverRemoved(steps, id) && seen <= n <= |steps|
    requires Lookup(After(steps[..seen]).SeenTokens(), t) == Some(id)
    ensures Held(After(steps[..n]), id, t)
    decreases n
  {
    FrontAllowed(steps, n, sets);
    MemoryStaysGood(steps[..n], sets);
    NoEntryIsTakenAway(steps[..n], sets, id);
    if seen < n {
      SightLasts(steps, sets, seen, n - 1, id, t);
      assert steps[..n][..n - 1] == steps[..n - 1];
      StepKeepsSight(After(steps[..n - 1]), steps[n - 1], id, t);
    }
    SeenIsHeld(After(steps[..n]), sets, id, t);
  }
}
