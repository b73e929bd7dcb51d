/**
 * The market registry: markets by condition id, and two indexes from tokens and slugs to
 * condition ids. A commit works on copies and publishes them one assignment at a time.
 */
module Registry {
  import opened Wrappers
  import opened Dict
  import opened Domain

  predicate Carries(m: Market, tokenId: string) {
    exists i :: 0 <= i < |m.outcomes| && m.outcomes[i].tokenId == tokenId
  }

  predicate HasEventSlug(m: Market) { m.eventSlug.Some? && m.eventSlug.value != "" }

  /** The slugs a market is indexed under. */
  predicate IndexedSlug(m: Market, slug: string) {
    m.marketSlug == slug || (HasEventSlug(m) && m.eventSlug.value == slug)
  }

  // ------------------------------------------------------------------ the linear scans

  function ScanToken(markets: seq<Market>, tokenId: string): Option<Market> {
    if markets == [] then None
    else if Carries(markets[0], tokenId) then Some(markets[0])
    else ScanToken(markets[1..], tokenId)
  }

  function ScanSlug(markets: seq<Market>, slug: string): Option<Market> {
    if markets == [] then None
    else if markets[0].marketSlug == slug || markets[0].eventSlug == Some(slug) then Some(markets[0])
    else ScanSlug(markets[1..], slug)
  }

  // ---------------------------------------------------------------------- the indexes

  type Index = map<string, string>

  datatype Catalogue = Catalogue(markets: Dict<string, Market>, tokens: Index, slugs: Index)
  {
    function ByToken(tokenId: string): Option<Market> {
      if tokenId in tokens then Get(markets, tokens[tokenId]) else None
    }

    function BySlug(slug: string): Option<Market> {
      if slug in slugs then Get(markets, slugs[slug]) else None
    }

    /** The market tuple a snapshot of this state holds. */
    function Markets(): seq<Market> { Values(markets) }
  }

  const EMPTY := Catalogue([], map[], map[])

  /** Without the entry of `key`, if it points to `conditionId`. */
  function Detach(index: Index, key: string, conditionId: string): Index {
    if key in index && index[key] == conditionId then index - {key} else index
  }

  function DetachTokens(index: Index, m: Market, n: nat): Index
    requires n <= |m.outcomes|
  {
    if n == 0 then index else Detach(DetachTokens(index, m, n - 1), m.outcomes[n - 1].tokenId, m.conditionId)
  }

  function AttachTokens(index: Index, m: Market, n: nat): Index
    requires n <= |m.outcomes|
  {
    if n == 0 then index else AttachTokens(index, m, n - 1)[m.outcomes[n - 1].tokenId := m.conditionId]
  }

  function DetachSlugs(index: Index, m: Market): Index {
    var own := Detach(index, m.marketSlug, m.conditionId);
    if HasEventSlug(m) then Detach(own, m.eventSlug.value, m.conditionId) else own
  }

  function AttachSlugs(index: Index, m: Market): Index {
    var own := index[m.marketSlug := m.conditionId];
    if HasEventSlug(m) then own[m.eventSlug.value := m.conditionId] else own
  }

  function Detached(c: Catalogue, m: Market): Catalogue {
    Catalogue(c.markets, DetachTokens(c.tokens, m, |m.outcomes|), DetachSlugs(c.slugs, m))
  }

  /** With `m` registered under `conditionId` and indexed under its own tokens and slugs. */
  function Attached(c: Catalogue, conditionId: string, m: Market): Catalogue {
    Catalogue(Put(c.markets, conditionId, m), AttachTokens(c.tokens, m, |m.outcomes|), AttachSlugs(c.slugs, m))
  }

  function Upserted(c: Catalogue, m: Market): Catalogue {
    var previous := Get(c.markets, m.conditionId);
    Attached(if previous.Some? then Detached(c, previous.value) else c, m.conditionId, m)
  }

  function Updated(c: Catalogue, conditionId: string, updater: Market -> Market): Catalogue {
    var current := Get(c.markets, conditionId);
    if current.None? then c else Attached(Detached(c, current.value), conditionId, updater(current.value))
  }

  function Removed(c: Catalogue, conditionId: string): Catalogue {
    var current := Get(c.markets, conditionId);
    if current.None? then c else Detached(c, current.value).(markets := Pop(c.markets, conditionId))
  }

  // ------------------------------------------------------------------------- in place

  class MarketRegistry {
    var marketsByConditionId: Dict<string, Market>
    var conditionIdByTokenId: Index
    var conditionIdBySlug: Index
    var snapshot: seq<Market>

    ghost function State(): Catalogue
      reads this
    {
      Catalogue(marketsByConditionId, conditionIdByTokenId, conditionIdBySlug)
    }

    ghost predicate Valid()
      reads this
    {
      snapshot == State().Markets()
    }

    constructor ()
      ensures Valid() && State() == EMPTY
    {
      marketsByConditionId, conditionIdByTokenId, conditionIdBySlug, snapshot := [], map[], map[], [];
    }

    method GetByTokenId(tokenId: string) returns (market: Option<Market>)
      ensures market == State().ByToken(tokenId)
    {
      if tokenId !in conditionIdByTokenId {
        return None;
      }
      var conditionId := conditionIdByTokenId[tokenId];
      return Get(marketsByConditionId, conditionId);
    }

    method GetBySlug(slug: string) returns (market: Option<Market>)
      ensures market == State().BySlug(slug)
    {
      if slug !in conditionIdBySlug {
        return None;
      }
      var conditionId := conditionIdBySlug[slug];
      return Get(marketsByConditionId, conditionId);
    }

    /** Four assignments: the markets first, so that whoever sees an index entry later sees its market. */
    method PublishState(markets: Dict<string, Market>, tokens: Index, slugs: Index)
      modifies this
      ensures Valid() && State() == Catalogue(markets, tokens, slugs)
    {
      marketsByConditionId := markets;
      conditionIdByTokenId := tokens;
      conditionIdBySlug := slugs;
      snapshot := Values(markets);
    }

    method DetachIndexes(m: Market, tokens: Index, slugs: Index) returns (tokens': Index, slugs': Index)
      ensures tokens' == DetachTokens(tokens, m, |m.outcomes|) && slugs' == DetachSlugs(slugs, m)
    {
      tokens', slugs' := tokens, slugs;
      for k := 0 to |m.outcomes|
        invariant tokens' == DetachTokens(tokens, m, k)
      {
        var tokenId := m.outcomes[k].tokenId;
        if tokenId in tokens' && tokens'[tokenId] == m.conditionId {
          tokens' := tokens' - {tokenId};
        }
      }
      if m.marketSlug in slugs' && slugs'[m.marketSlug] == m.conditionId {
        slugs' := slugs' - {m.marketSlug};
      }
      if HasEventSlug(m) && m.eventSlug.value in slugs' && slugs'[m.eventSlug.value] == m.conditionId {
        slugs' := slugs' - {m.eventSlug.value};
      }
    }

    method AttachIndexes(m: Market, tokens: Index, slugs: Index) returns (tokens': Index, slugs': Index)
      ensures tokens' == AttachTokens(tokens, m, |m.outcomes|) && slugs' == AttachSlugs(slugs, m)
    {
      tokens' := tokens;
      for k := 0 to |m.outcomes|
        invariant tokens' == AttachTokens(tokens, m, k)
      {
        tokens' := tokens'[m.outcomes[k].tokenId := m.conditionId];
      }
      slugs' := slugs[m.marketSlug := m.conditionId];
      if HasEventSlug(m) {
        slugs' := slugs'[m.eventSlug.value := m.conditionId];
      }
    }

    /** A writer that does not get its lock in time changes nothing. */
    method Upsert(market: Market, acquired: bool)
      requires Valid()
      modifies this
      ensures Valid() && State() == if acquired then Upserted(old(State()), market) else old(State())
    {
      if !acquired {
        return;
      }
      var tokens, slugs := conditionIdByTokenId, conditionIdBySlug;
      var previous := Get(marketsByConditionId, market.conditionId);
      if previous.Some? {
        tokens, slugs := DetachIndexes(previous.value, tokens, slugs);
      }
      tokens, slugs := AttachIndexes(market, tokens, slugs);
      PublishState(Put(marketsByConditionId, market.conditionId, market), tokens, slugs);
    }

    method UpdateMarket(conditionId: string, updater: Market -> Market, acquired: bool)
      requires Valid()
      modifies this
      ensures Valid() && State() == if acquired then Updated(old(State()), conditionId, updater) else old(State())
    {
      if !acquired {
        return;
      }
      var current := Get(marketsByConditionId, conditionId);
      if current.None? {
        return;
      }
      var updated := updater(current.value);
      var tokens, slugs := DetachIndexes(current.value, conditionIdByTokenId, conditionIdBySlug);
      tokens, slugs := AttachIndexes(updated, tokens, slugs);
      PublishState(Put(marketsByConditionId, conditionId, updated), tokens, slugs);
    }

    method RemoveMarket(conditionId: string, acquired: bool)
      requires Valid()
      modifies this
      ensures Valid() && State() == if acquired then Removed(old(State()), conditionId) else old(State())
    {
      if !acquired {
        return;
      }
      var current := Get(marketsByConditionId, conditionId);
      if current.None? {
        return;
      }
      var tokens, slugs := DetachIndexes(current.value, conditionIdByTokenId, conditionIdBySlug);
      PublishState(Pop(marketsByConditionId, conditionId), tokens, slugs);
    }
  }
}
