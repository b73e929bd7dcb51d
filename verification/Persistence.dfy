/**
 * The persistence worker's batches: low-priority events of one route are merged to the
 * latest, the rest are written kind by kind, and every event is then acknowledged, retried
 * or given up. What the repository answers is a parameter.
 */
module Persistence {
  import opened Wrappers
  import opened Dict

  datatype Kind =
    | Audit | MarketRecord | AccountRecord | BookRecord | OrderRecord | FillRecord | PositionRecord
    | AllocationRecord | OutboxRecord

  /** The families of event types that decide which records an event is written as. */
  datatype Family = OfMarket | OfAccount | OfBook | OfOrder | OfFill | OfPosition | OfOther

  datatype OutboxEvent = OutboxEvent(
    eventId: string,
    eventType: string,
    family: Family,
    priority: int,
    mergeKey: Option<string>,
    createdAt: int,
    retryCount: nat,
    marketSlug: string,
    conditionId: string,
    tokenId: string,
    hasMarket: bool,
    hasBook: bool,
    hasOrder: bool,
    allocations: nat,
    fills: nat,
    positions: nat)
  {
    predicate Critical() { priority <= 1 }

    /** The route low-priority events are merged by: the event's own key, if it has one. */
    function RouteKey(): string {
      FirstText(mergeKey, eventType + "|" + marketSlug + "|" + conditionId + "|" + tokenId)
    }
  }

  function Repeat(kind: Kind, n: nat): (r: seq<Kind>)
    ensures |r| == n && forall i :: 0 <= i < n ==> r[i] == kind
  {
    seq(n, _ => kind)
  }

  /** The records an event is written as: always an audit and an outbox record. */
  function RouteEvent(e: OutboxEvent): seq<Kind> {
    [Audit] + Repeat(AllocationRecord, e.allocations)
    + (if e.family.OfMarket? && e.hasMarket then [MarketRecord] else [])
    + (if e.family.OfAccount? then [AccountRecord] else [])
    + (if e.family.OfBook? && e.hasBook then [BookRecord] else [])
    + (if e.family.OfOrder? && e.hasOrder then [OrderRecord] else [])
    + (if e.family.OfFill? then Repeat(FillRecord, e.fills) else [])
    + (if e.family.OfPosition? then Repeat(PositionRecord, e.positions) else [])
    + [OutboxRecord]
  }

  // -------------------------------------------------------------------------- merging

  function CriticalOf(events: seq<OutboxEvent>): seq<OutboxEvent> {
    if events == [] then []
    else
      var last := events[|events| - 1];
      CriticalOf(events[..|events| - 1]) + (if last.Critical() then [last] else [])
  }

  /** The latest low-priority event of every route, in the order the routes first came up. */
  function LatestByRoute(events: seq<OutboxEvent>): Dict<string, OutboxEvent> {
    if events == [] then []
    else
      var last := events[|events| - 1];
      var before := LatestByRoute(events[..|events| - 1]);
      if last.Critical() then before else Put(before, last.RouteKey(), last)
  }

  predicate TextAtMost(a: string, b: string) {
    if a == "" then true
    else if b == "" then false
    else a[0] < b[0] || (a[0] == b[0] && TextAtMost(a[1..], b[1..]))
  }

  /** The order low-priority events are written in: by creation, then by id. */
  predicate NotAfter(a: OutboxEvent, b: OutboxEvent) {
    a.createdAt < b.createdAt || (a.createdAt == b.createdAt && TextAtMost(a.eventId, b.eventId))
  }

  function Insert(e: OutboxEvent, sorted: seq<OutboxEvent>): (r: seq<OutboxEvent>)
    ensures |r| == |sorted| + 1
  {
    if sorted == [] || NotAfter(e, sorted[0]) then [e] + sorted
    else [sorted[0]] + Insert(e, sorted[1..])
  }

  function Sorted(events: seq<OutboxEvent>): (r: seq<OutboxEvent>)
    ensures |r| == |events|
  {
    if events == [] then [] else Insert(events[0], Sorted(events[1..]))
  }

  datatype Coalesced = Coalesced(kept: seq<OutboxEvent>, merged: nat)

  function LowCount(events: seq<OutboxEvent>): nat {
    if events == [] then 0
    else LowCount(events[..|events| - 1]) + (if events[|events| - 1].Critical() then 0 else 1)
  }

  method CoalesceLowPriority(events: seq<OutboxEvent>) returns (c: Coalesced)
    ensures c.kept == CriticalOf(events) + Sorted(Values(LatestByRoute(events)))
    ensures c.merged + |LatestByRoute(events)| == LowCount(events)
  {
    var merged := 0;
    var critical: seq<OutboxEvent> := [];
    var latest: Dict<string, OutboxEvent> := [];
    for k := 0 to |events|
      invariant critical == CriticalOf(events[..k]) && latest == LatestByRoute(events[..k])
      invariant merged >= 0 && merged + |latest| == LowCount(events[..k])
    {
      assert events[..k + 1][..k] == events[..k];
      if events[k].Critical() {
        critical := critical + [events[k]];
        continue;
      }
      var key := events[k].RouteKey();
      PutLength(latest, key, events[k]);
      if Get(latest, key).Some? {
        merged := merged + 1;
      }
      latest := Put(latest, key, events[k]);
    }
    assert events[..|events|] == events;
    c := Coalesced(critical + Sorted(Values(latest)), merged);
  }

  lemma {:induction false} PutLength<K, V>(d: Dict<K, V>, key: K, value: V)
    ensures |Put(d, key, value)| == |d| + (if Get(d, key).Some? then 0 else 1)
  {
    if d != [] && d[0].0 != key {
      PutLength(d[1..], key, value);
    }
  }

  // -------------------------------------------------------------------------- writing

  datatype Planned = Planned(event: OutboxEvent, kind: Kind, place: nat)

  /** Why an event could not be written. */
  datatype Failure = MissingMethod | WriteFailed(retryable: bool) | WriteIncomplete
  {
    predicate Retryable() { WriteIncomplete? || (WriteFailed? && retryable) }
  }

  /**
   * The repository: which kinds it can write at all, whether a batch of a kind goes through,
   * and what the single write of a record answers.
   */
  datatype Repository = Repository(
    supports: Kind -> bool,
    acceptsBatch: Kind -> bool,
    single: Planned -> Option<Failure>)

  function KindsPlanned(e: OutboxEvent, kinds: seq<Kind>, place: nat): (r: seq<Planned>)
    ensures |r| == |kinds|
    ensures forall i :: 0 <= i < |kinds| ==> r[i] == Planned(e, kinds[i], place + i)
  {
    seq(|kinds|, i requires 0 <= i < |kinds| => Planned(e, kinds[i], place + i))
  }

  function PlannedRecords(events: seq<OutboxEvent>): seq<Planned> {
    if events == [] then []
    else
      var last := events[|events| - 1];
      var before := PlannedRecords(events[..|events| - 1]);
      before + KindsPlanned(last, RouteEvent(last), |before|)
  }

  /** How many records an event needs; of two events under one id the later one decides. */
  function RequiredOf(events: seq<OutboxEvent>, id: string): nat {
    if events == [] then 0
    else
      var last := events[|events| - 1];
      if last.eventId == id then |RouteEvent(last)| else RequiredOf(events[..|events| - 1], id)
  }

  function ItemsOf(planned: seq<Planned>, kind: Kind): (items: seq<Planned>)
    ensures forall i :: 0 <= i < |items| ==> items[i].kind == kind
  {
    if planned == [] then []
    else
      var last := planned[|planned| - 1];
      ItemsOf(planned[..|planned| - 1], kind) + (if last.kind == kind then [last] else [])
  }

  /** A batch write covers all items of a kind, when there are several and the repository takes them. */
  predicate InOneBatch(repo: Repository, kind: Kind, count: nat) {
    repo.supports(kind) && count > 1 && repo.acceptsBatch(kind)
  }

  /** What writing one item answers. */
  function FailureOf(repo: Repository, item: Planned, count: nat): Option<Failure> {
    if InOneBatch(repo, item.kind, count) then None
    else if !repo.supports(item.kind) then Some(MissingMethod)
    else repo.single(item)
  }

  function Successes(repo: Repository, items: seq<Planned>, count: nat, id: string): nat {
    if items == [] then 0
    else
      var last := items[|items| - 1];
      Successes(repo, items[..|items| - 1], count, id)
      + (if last.event.eventId == id && FailureOf(repo, last, count).None? then 1 else 0)
  }

  /** The first failure among the items of an event. */
  function FirstFailure(repo: Repository, items: seq<Planned>, count: nat, id: string): Option<Failure> {
    if items == [] then None
    else
      var last := items[|items| - 1];
      var before := FirstFailure(repo, items[..|items| - 1], count, id);
      if before.Some? then before
      else if last.event.eventId == id then FailureOf(repo, last, count)
      else None
  }

  function At(counts: map<string, nat>, id: string): nat {
    if id in counts then counts[id] else 0
  }

  function FailureAt(failures: map<string, Failure>, id: string): Option<Failure> {
    if id in failures then Some(failures[id]) else None
  }

  /** The order kinds are written in: there is no place for account records. */
  const ROUTE_ORDER := [Audit, MarketRecord, BookRecord, OrderRecord, FillRecord, PositionRecord, AllocationRecord, OutboxRecord]

  function SuccessesOver(repo: Repository, planned: seq<Planned>, kinds: seq<Kind>, id: string): nat {
    if kinds == [] then 0
    else
      var items := ItemsOf(planned, kinds[|kinds| - 1]);
      SuccessesOver(repo, planned, kinds[..|kinds| - 1], id) + Successes(repo, items, |items|, id)
  }

  function FailureOver(repo: Repository, planned: seq<Planned>, kinds: seq<Kind>, id: string): Option<Failure> {
    if kinds == [] then None
    else
      var items := ItemsOf(planned, kinds[|kinds| - 1]);
      var before := FailureOver(repo, planned, kinds[..|kinds| - 1], id);
      if before.Some? then before else FirstFailure(repo, items, |items|, id)
  }

  datatype Fate = Acked | Retried | DeadLettered

  /** What becomes of an event: its record counts, its failure and its retries decide. */
  function FateOf(e: OutboxEvent, required: nat, succeeded: nat, failure: Option<Failure>, maxRetries: nat): Fate {
    if required > 0 && succeeded >= required && failure.None? then Acked
    else if failure.GetOr(WriteIncomplete).Retryable() && e.retryCount < maxRetries then Retried
    else DeadLettered
  }

  function FateIn(repo: Repository, planned: seq<Planned>, e: OutboxEvent, required: nat, maxRetries: nat): Fate {
    FateOf(e, required, SuccessesOver(repo, planned, ROUTE_ORDER, e.eventId),
           FailureOver(repo, planned, ROUTE_ORDER, e.eventId), maxRetries)
  }

  function Fates(repo: Repository, events: seq<OutboxEvent>, maxRetries: nat): (fates: seq<Fate>)
    ensures |fates| == |events|
  {
    var planned := PlannedRecords(events);
    seq(|events|, i requires 0 <= i < |events| =>
      FateIn(repo, planned, events[i], RequiredOf(events, events[i].eventId), maxRetries))
  }

  class PersistenceWorker {
    const repo: Repository
    const maxRetryCount: nat
    var acked: seq<OutboxEvent>
    var retried: seq<OutboxEvent>
    var deadLettered: seq<OutboxEvent>
    var processedEvents: nat

    constructor (repo: Repository, maxRetryCount: nat)
      ensures this.repo == repo && this.maxRetryCount == maxRetryCount
      ensures acked == [] && retried == [] && deadLettered == [] && processedEvents == 0
    {
      this.repo, this.maxRetryCount := repo, maxRetryCount;
      acked, retried, deadLettered, processedEvents := [], [], [], 0;
    }

    method BuildPlannedRecords(events: seq<OutboxEvent>) returns (planned: seq<Planned>, required: map<string, nat>)
      ensures planned == PlannedRecords(events)
      ensures forall id :: At(required, id) == RequiredOf(events, id)
    {
      planned, required := [], map[];
      for k := 0 to |events|
        invariant planned == PlannedRecords(events[..k])
        invariant forall id :: At(required, id) == RequiredOf(events[..k], id)
      {
        assert events[..k + 1][..k] == events[..k];
        var kinds := RouteEvent(events[k]);
        required := required[events[k].eventId := |kinds|];
        planned := planned + KindsPlanned(events[k], kinds, |planned|);
      }
      assert events[..|events|] == events;
    }

    method SelectKind(planned: seq<Planned>, kind: Kind) returns (items: seq<Planned>)
      ensures items == ItemsOf(planned, kind)
    {
      items := [];
      for k := 0 to |planned|
        invariant items == ItemsOf(planned[..k], kind)
      {
        assert planned[..k + 1][..k] == planned[..k];
        if planned[k].kind == kind {
          items := items + [planned[k]];
        }
      }
      assert planned[..|planned|] == planned;
    }

    /** One batch write, or, without or after it, a write per item. */
    method WriteKind(kind: Kind, items: seq<Planned>) returns (success: map<string, nat>, failures: map<string, Failure>)
      requires forall i :: 0 <= i < |items| ==> items[i].kind == kind
      ensures forall id :: At(success, id) == Successes(repo, items, |items|, id)
      ensures forall id :: FailureAt(failures, id) == FirstFailure(repo, items, |items|, id)
    {
      success, failures := map[], map[];
      var batched := repo.supports(kind) && |items| > 1 && repo.acceptsBatch(kind);
      for k := 0 to |items|
        invariant forall id :: At(success, id) == Successes(repo, items[..k], |items|, id)
        invariant forall id :: FailureAt(failures, id) == FirstFailure(repo, items[..k], |items|, id)
      {
        assert items[..k + 1][..k] == items[..k];
        var id := items[k].event.eventId;
        var failure :=
          if batched then None else if !repo.supports(kind) then Some(MissingMethod) else repo.single(items[k]);
        if failure.Some? {
          if id !in failures {
            failures := failures[id := failure.value];
          }
        } else {
          success := success[id := At(success, id) + 1];
        }
      }
      assert items[..|items|] == items;
    }

    method AddCounts(counts: map<string, nat>, more: map<string, nat>) returns (sum: map<string, nat>)
      ensures forall id :: At(sum, id) == At(counts, id) + At(more, id)
    {
      sum := map id | id in counts.Keys + more.Keys :: At(counts, id) + At(more, id);
    }

    method WriteAll(planned: seq<Planned>) returns (success: map<string, nat>, failures: map<string, Failure>)
      ensures forall id :: At(success, id) == SuccessesOver(repo, planned, ROUTE_ORDER, id)
      ensures forall id :: FailureAt(failures, id) == FailureOver(repo, planned, ROUTE_ORDER, id)
    {
      success, failures := map[], map[];
      for k := 0 to |ROUTE_ORDER|
        invariant forall id :: At(success, id) == SuccessesOver(repo, planned, ROUTE_ORDER[..k], id)
        invariant forall id :: FailureAt(failures, id) == FailureOver(repo, planned, ROUTE_ORDER[..k], id)
      {
        assert ROUTE_ORDER[..k + 1][..k] == ROUTE_ORDER[..k];
        var items := SelectKind(planned, ROUTE_ORDER[k]);
        var wrote, failed := WriteKind(ROUTE_ORDER[k], items);
        success := AddCounts(success, wrote);
        failures := failed + failures;
      }
      assert ROUTE_ORDER[..|ROUTE_ORDER|] == ROUTE_ORDER;
    }

    method Finalize(e: OutboxEvent, required: nat, success: map<string, nat>, failures: map<string, Failure>) returns (fate: Fate)
      modifies this
      ensures fate == FateOf(e, required, At(success, e.eventId), FailureAt(failures, e.eventId), maxRetryCount)
      ensures acked == old(acked) + (if fate == Acked then [e] else [])
      ensures retried == old(retried) + (if fate == Retried then [e] else [])
      ensures deadLettered == old(deadLettered) + (if fate == DeadLettered then [e] else [])
      ensures processedEvents == old(processedEvents)
    {
      if required > 0 && At(success, e.eventId) >= required && e.eventId !in failures {
        acked := acked + [e];
        return Acked;
      }
      var reason := FailureAt(failures, e.eventId).GetOr(WriteIncomplete);
      if reason.Retryable() && e.retryCount < maxRetryCount {
        retried := retried + [e];
        return Retried;
      }
      deadLettered := deadLettered + [e];
      return DeadLettered;
    }

    /** Settles the events of a batch one after the other. */
    method SettleAll(events: seq<OutboxEvent>, required: map<string, nat>, success: map<string, nat>,
                     failures: map<string, Failure>, ghost fates: seq<Fate>)
      requires |fates| == |events|
      requires forall i :: 0 <= i < |events| ==>
        fates[i] == FateOf(events[i], At(required, events[i].eventId), At(success, events[i].eventId),
                           FailureAt(failures, events[i].eventId), maxRetryCount)
      modifies this
      ensures processedEvents == old(processedEvents)
      ensures acked == old(acked) + WithFate(events, fates, Acked)
      ensures retried == old(retried) + WithFate(events, fates, Retried)
      ensures deadLettered == old(deadLettered) + WithFate(events, fates, DeadLettered)
    {
      for k := 0 to |events|
        invariant processedEvents == old(processedEvents)
        invariant acked == old(acked) + WithFate(events[..k], fates[..k], Acked)
        invariant retried == old(retried) + WithFate(events[..k], fates[..k], Retried)
        invariant deadLettered == old(deadLettered) + WithFate(events[..k], fates[..k], DeadLettered)
      {
        WithFateGrows(old(acked), events, fates, k, Acked);
        WithFateGrows(old(retried), events, fates, k, Retried);
        WithFateGrows(old(deadLettered), events, fates, k, DeadLettered);
        var fate := Finalize(events[k], At(required, events[k].eventId), success, failures);
      }
      assert events[..|events|] == events && fates[..|events|] == fates;
    }

    /** Writes a batch and settles each of its events exactly once. */
    method PersistBatch(events: seq<OutboxEvent>)
      modifies this
      ensures processedEvents == old(processedEvents) + |events|
      ensures acked == old(acked) + WithFate(events, Fates(repo, events, maxRetryCount), Acked)
      ensures retried == old(retried) + WithFate(events, Fates(repo, events, maxRetryCount), Retried)
      ensures deadLettered == old(deadLettered) + WithFate(events, Fates(repo, events, maxRetryCount), DeadLettered)
    {
      processedEvents := processedEvents + |events|;
      var planned, required := BuildPlannedRecords(events);
      var success, failures := WriteAll(planned);
      SettleAll(events, required, success, failures, Fates(repo, events, maxRetryCount));
    }
  }

  /** The events of a batch with a given fate, in batch order. */
  function WithFate(events: seq<OutboxEvent>, fates: seq<Fate>, fate: Fate): seq<OutboxEvent>
    requires |events| == |fates|
  {
    if events == [] then []
    else
      var n := |events| - 1;
      WithFate(events[..n], fates[..n], fate) + (if fates[n] == fate then [events[n]] else [])
  }

  lemma WithFateSnoc(events: seq<OutboxEvent>, fates: seq<Fate>, k: nat, fate: Fate)
    requires |events| == |fates| && k < |events|
    ensures WithFate(events[..k + 1], fates[..k + 1], fate)
         == WithFate(events[..k], fates[..k], fate) + (if fates[k] == fate then [events[k]] else [])
  {
    assert events[..k + 1][..k] == events[..k] && fates[..k + 1][..k] == fates[..k];
  }

  lemma WithFateGrows(before: seq<OutboxEvent>, events: seq<OutboxEvent>, fates: seq<Fate>, k: nat, fate: Fate)
    requires |events| == |fates| && k < |events|
    ensures before + WithFate(events[..k + 1], fates[..k + 1], fate)
         == before + WithFate(events[..k], fates[..k], fate) + (if fates[k] == fate then [events[k]] else [])
  {
    WithFateSnoc(events, fates, k, fate);
  }
}
