/** What a persistence batch keeps, and what its acknowledgements mean. */
module PersistenceLaws {
  import opened Wrappers
  import opened Dict
  import opened Persistence

  // ---------------------------------------------------------------------------- merging

  lemma {:induction false} CriticalAndLow(events: seq<OutboxEvent>)
    ensures |CriticalOf(events)| + LowCount(events) == |events|
  {
    if events != [] {
      CriticalAndLow(events[..|events| - 1]);
    }
  }

  /** Kept and merged events together are the batch. */
  lemma MergingLosesNone(events: seq<OutboxEvent>, c: Coalesced)
    requires c.kept == CriticalOf(events) + Sorted(Values(LatestByRoute(events)))
    requires c.merged + |LatestByRoute(events)| == LowCount(events)
    ensures |c.kept| + c.merged == |events|
  {
    CriticalAndLow(events);
  }

  predicate LowOf(e: OutboxEvent, route: string) { !e.Critical() && e.RouteKey() == route }

  /** The last low-priority event of a route among the first `n`. */
  function LastOf(events: seq<OutboxEvent>, route: string, n: nat): (i: Option<nat>)
    requires n <= |events|
    ensures i.Some? ==> i.value < n
  {
    if n == 0 then None else if LowOf(events[n - 1], route) then Some(n - 1) else LastOf(events, route, n - 1)
  }

  lemma {:induction false} LastOfIsLast(events: seq<OutboxEvent>, route: string, n: nat)
    requires n <= |events|
    ensures LastOf(events, route, n).None? ==> forall i :: 0 <= i < n ==> !LowOf(events[i], route)
    ensures LastOf(events, route, n).Some? ==>
      var i := LastOf(events, route, n).value;
      i < n && LowOf(events[i], route) && forall j :: i < j < n ==> !LowOf(events[j], route)
  {
    if n > 0 {
      LastOfIsLast(events, route, n - 1);
    }
  }

  /** The low-priority event of a route that is kept is the one that arrived last. */
  lemma {:induction false} LatestIsLast(events: seq<OutboxEvent>, route: string, n: nat)
    requires n <= |events|
    ensures DistinctKeys(LatestByRoute(events[..n]))
    ensures Get(LatestByRoute(events[..n]), route)
         == if LastOf(events, route, n).None? then None else Some(events[LastOf(events, route, n).value])
  {
    if n > 0 {
      LatestIsLast(events, route, n - 1);
      assert events[..n][..n - 1] == events[..n - 1];
      var before := LatestByRoute(events[..n - 1]);
      var e := events[n - 1];
      if !e.Critical() {
        GetPut(before, e.RouteKey(), e, route);
        PutDistinct(before, e.RouteKey(), e);
      }
    }
  }

  lemma {:induction false} LatestAreOwn(events: seq<OutboxEvent>)
    ensures forall e :: e in LatestByRoute(events) ==> e.0 == e.1.RouteKey() && !e.1.Critical()
  {
    if events != [] {
      var n := |events| - 1;
      LatestAreOwn(events[..n]);
      PutEntries(LatestByRoute(events[..n]), events[n].RouteKey(), events[n]);
    }
  }

  lemma {:induction false} InsertKeepsAll(e: OutboxEvent, sorted: seq<OutboxEvent>)
    ensures multiset(Insert(e, sorted)) == multiset(sorted) + multiset{e}
  {
    if sorted != [] && !NotAfter(e, sorted[0]) {
      InsertKeepsAll(e, sorted[1..]);
      assert sorted == [sorted[0]] + sorted[1..];
    }
  }

  lemma {:induction false} TextIsTotal(a: string, b: string)
    ensures TextAtMost(a, b) || TextAtMost(b, a)
  {
    if a != "" && b != "" && a[0] == b[0] {
      TextIsTotal(a[1..], b[1..]);
    }
  }

  lemma {:induction false} TextIsTransitive(a: string, b: string, c: string)
    requires TextAtMost(a, b) && TextAtMost(b, c)
    ensures TextAtMost(a, c)
  {
    if a != "" && a[0] == b[0] == c[0] {
      TextIsTransitive(a[1..], b[1..], c[1..]);
    }
  }

  predicate Ascending(s: seq<OutboxEvent>) {
    forall i, j :: 0 <= i < j < |s| ==> NotAfter(s[i], s[j])
  }

  lemma OrderIsTransitive(a: OutboxEvent, b: OutboxEvent, c: OutboxEvent)
    requires NotAfter(a, b) && NotAfter(b, c)
    ensures NotAfter(a, c)
  {
    if a.createdAt == b.createdAt == c.createdAt {
      TextIsTransitive(a.eventId, b.eventId, c.eventId);
    }
  }

  lemma {:induction false} InsertKeepsOrder(e: OutboxEvent, sorted: seq<OutboxEvent>)
    requires Ascending(sorted)
    ensures Ascending(Insert(e, sorted))
  {
    if sorted != [] {
      if NotAfter(e, sorted[0]) {
        forall j | 0 <= j < |sorted| ensures NotAfter(e, sorted[j]) {
          if j > 0 {
            OrderIsTransitive(e, sorted[0], sorted[j]);
          }
        }
      } else {
        TextIsTotal(e.eventId, sorted[0].eventId);
        var rest := Insert(e, sorted[1..]);
        InsertKeepsOrder(e, sorted[1..]);
        InsertKeepsAll(e, sorted[1..]);
        forall j | 0 <= j < |rest| ensures NotAfter(sorted[0], rest[j]) {
          assert rest[j] in multiset(rest);
          assert rest[j] == e || rest[j] in sorted[1..];
        }
      }
    }
  }

  /** Sorting keeps every event, and orders them by creation and id. */
  lemma {:induction false} SortingKeepsAll(events: seq<OutboxEvent>)
    ensures multiset(Sorted(events)) == multiset(events) && Ascending(Sorted(events))
  {
    if events != [] {
      SortingKeepsAll(events[1..]);
      InsertKeepsAll(events[0], Sorted(events[1..]));
      InsertKeepsOrder(events[0], Sorted(events[1..]));
      assert events == [events[0]] + events[1..];
    }
  }

  predicate DistinctIds(events: seq<OutboxEvent>) {
    forall a, b :: 0 <= a < b < |events| ==> events[a].eventId != events[b].eventId
  }

  lemma KeptIsLatest(events: seq<OutboxEvent>, e: OutboxEvent)
    requires !e.Critical()
    ensures e in Sorted(Values(LatestByRoute(events))) <==> Get(LatestByRoute(events), e.RouteKey()) == Some(e)
  {
    var latest := LatestByRoute(events);
    SortingKeepsAll(Values(latest));
    LatestAreOwn(events);
    LatestIsLast(events, e.RouteKey(), |events|);
    assert events[..|events|] == events;
    assert e in Sorted(Values(latest)) <==> e in multiset(Values(latest));
    if e in Values(latest) {
      var n :| 0 <= n < |Values(latest)| && Values(latest)[n] == e;
      assert latest[n] in latest;
      EntryIsGot(latest, n);
    }
    if Get(latest, e.RouteKey()) == Some(e) {
      GetIsEntry(latest, e.RouteKey());
      var n :| 0 <= n < |latest| && latest[n] == (e.RouteKey(), e);
      assert Values(latest)[n] == e;
    }
  }

  /**
   * A low-priority event of a batch is kept exactly when no later one of its route is in
   * the batch, for distinct event ids.
   */
  lemma LowEventKeptExactlyWhenLast(events: seq<OutboxEvent>, i: nat)
    requires i < |events| && !events[i].Critical() && DistinctIds(events)
    ensures events[i] in Sorted(Values(LatestByRoute(events)))
       <==> forall j :: i < j < |events| ==> !LowOf(events[j], events[i].RouteKey())
  {
    var route := events[i].RouteKey();
    KeptIsLatest(events, events[i]);
    LatestIsLast(events, route, |events|);
    assert events[..|events|] == events;
    LastOfIsLast(events, route, |events|);
    assert LowOf(events[i], route);
    var last := LastOf(events, route, |events|).value;
    assert last == i <==> forall j :: i < j < |events| ==> !LowOf(events[j], route);
  }

  /** What is kept of a batch. */
  function Kept(events: seq<OutboxEvent>): seq<OutboxEvent> {
    CriticalOf(events) + Sorted(Values(LatestByRoute(events)))
  }

  lemma TwiceIsTwo<T>(s: seq<T>, i: nat, j: nat)
    requires i < j < |s| && s[i] == s[j]
    ensures multiset(s)[s[i]] >= 2
  {
    assert s == s[..j] + s[j..];
    assert s[i] in s[..j] && s[j..][0] == s[i];
    assert s[i] in s[j..];
  }

  /** Events of a batch with distinct ids: none twice. */
  lemma {:induction false} DistinctOnce(events: seq<OutboxEvent>, e: OutboxEvent)
    requires DistinctIds(events)
    ensures multiset(events)[e] <= 1
  {
    if events != [] {
      var front, last := events[..|events| - 1], events[|events| - 1];
      assert events == front + [last];
      DistinctOnce(front, e);
      forall i | 0 <= i < |front| ensures front[i] != last {
        assert events[i].eventId != last.eventId;
      }
      assert last !in multiset(front);
    }
  }

  /** Events that are all from a batch with distinct ids, none twice, have distinct ids. */
  lemma PartIsDistinct(events: seq<OutboxEvent>, part: seq<OutboxEvent>)
    requires DistinctIds(events) && multiset(part) <= multiset(events)
    ensures DistinctIds(part)
  {
    forall a, b | 0 <= a < b < |part| ensures part[a].eventId != part[b].eventId {
      assert part[a] in multiset(part) && part[b] in multiset(part);
      assert part[a] in events && part[b] in events;
      var i :| 0 <= i < |events| && events[i] == part[a];
      var j :| 0 <= j < |events| && events[j] == part[b];
      if part[a] == part[b] {
        TwiceIsTwo(part, a, b);
        DistinctOnce(events, part[a]);
      }
    }
  }

  lemma ValuesHead(head: (string, OutboxEvent), rest: Dict<string, OutboxEvent>)
    ensures multiset(Values([head] + rest)) == multiset{head.1} + multiset(Values(rest))
  {
    assert Values([head] + rest) == [head.1] + Values(rest);
  }

  lemma {:induction false} PutValues(d: Dict<string, OutboxEvent>, key: string, e: OutboxEvent)
    ensures multiset(Values(Put(d, key, e))) <= multiset(Values(d)) + multiset{e}
  {
    if d == [] {
      ValuesHead((key, e), []);
    } else {
      var rest := d[1..];
      assert d == [d[0]] + rest;
      ValuesHead(d[0], rest);
      if d[0].0 == key {
        ValuesHead((key, e), rest);
      } else {
        PutValues(rest, key, e);
        ValuesHead(d[0], Put(rest, key, e));
      }
    }
  }

  lemma {:induction false} KeptAreFromBatch(events: seq<OutboxEvent>)
    ensures multiset(CriticalOf(events)) + multiset(Values(LatestByRoute(events))) <= multiset(events)
  {
    if events != [] {
      var front, last := events[..|events| - 1], events[|events| - 1];
      assert events == front + [last];
      KeptAreFromBatch(front);
      PutValues(LatestByRoute(front), last.RouteKey(), last);
    }
  }

  /** What is kept of a batch with distinct ids has distinct ids. */
  lemma KeptAreDistinct(events: seq<OutboxEvent>)
    requires DistinctIds(events)
    ensures DistinctIds(Kept(events))
  {
    KeptAreFromBatch(events);
    SortingKeepsAll(Values(LatestByRoute(events)));
    PartIsDistinct(events, Kept(events));
  }

  lemma {:induction false} FatesSplit(events: seq<OutboxEvent>, fates: seq<Fate>)
    requires |events| == |fates|
    ensures multiset(WithFate(events, fates, Acked)) + multiset(WithFate(events, fates, Retried))
            + multiset(WithFate(events, fates, DeadLettered)) == multiset(events)
  {
    if events != [] {
      var n := |events| - 1;
      assert events == events[..n] + [events[n]];
      FatesSplit(events[..n], fates[..n]);
    }
  }

  /** How often an event is acknowledged, retried or given up in a batch. */
  function TimesSettled(repo: Repository, events: seq<OutboxEvent>, maxRetries: nat, e: OutboxEvent): nat {
    var fates := Fates(repo, events, maxRetries);
    multiset(WithFate(events, fates, Acked))[e] + multiset(WithFate(events, fates, Retried))[e]
    + multiset(WithFate(events, fates, DeadLettered))[e]
  }

  /** Each event kept from a batch with distinct ids is acknowledged, retried or given up, and only one of these, once. */
  lemma KeptAreSettledOnce(repo: Repository, events: seq<OutboxEvent>, maxRetries: nat, e: OutboxEvent)
    requires DistinctIds(events)
    ensures TimesSettled(repo, Kept(events), maxRetries, e) == if e in Kept(events) then 1 else 0
  {
    KeptAreDistinct(events);
    DistinctOnce(Kept(events), e);
    FatesSplit(Kept(events), Fates(repo, Kept(events), maxRetries));
  }

  // --------------------------------------------------------------------- acknowledgements

  /** Planned records of an event, and of one kind. */
  function NumPlanned(planned: seq<Planned>, id: string): nat {
    if planned == [] then 0
    else NumPlanned(planned[..|planned| - 1], id) + (if planned[|planned| - 1].event.eventId == id then 1 else 0)
  }

  function NumOf(planned: seq<Planned>, kind: Kind, id: string): nat {
    NumPlanned(ItemsOf(planned, kind), id)
  }

  function SumOver(planned: seq<Planned>, kinds: seq<Kind>, id: string): nat {
    if kinds == [] then 0 else SumOver(planned, kinds[..|kinds| - 1], id) + NumOf(planned, kinds[|kinds| - 1], id)
  }

  lemma NumPlannedSnoc(planned: seq<Planned>, last: Planned, id: string)
    ensures NumPlanned(planned + [last], id) == NumPlanned(planned, id) + (if last.event.eventId == id then 1 else 0)
  {
    assert (planned + [last])[..|planned|] == planned;
  }

  lemma NumOfSnoc(before: seq<Planned>, p: Planned, kind: Kind, id: string)
    ensures NumOf(before + [p], kind, id)
         == NumOf(before, kind, id) + (if p.kind == kind && p.event.eventId == id then 1 else 0)
  {
    assert (before + [p])[..|before|] == before;
    if p.kind == kind {
      NumPlannedSnoc(ItemsOf(before, kind), p, id);
    } else {
      assert ItemsOf(before + [p], kind) == ItemsOf(before, kind);
    }
  }

  lemma InSnoc(kinds: seq<Kind>, k: Kind)
    requires kinds != [] && forall i, j :: 0 <= i < j < |kinds| ==> kinds[i] != kinds[j]
    ensures k in kinds <==> k in kinds[..|kinds| - 1] || k == kinds[|kinds| - 1]
    ensures kinds[|kinds| - 1] !in kinds[..|kinds| - 1]
  {
    assert kinds == kinds[..|kinds| - 1] + [kinds[|kinds| - 1]];
  }

  lemma {:induction false} SumOverSnoc(before: seq<Planned>, p: Planned, kinds: seq<Kind>, id: string)
    requires forall i, j :: 0 <= i < j < |kinds| ==> kinds[i] != kinds[j]
    ensures SumOver(before + [p], kinds, id)
         == SumOver(before, kinds, id) + (if p.kind in kinds && p.event.eventId == id then 1 else 0)
  {
    if kinds != [] {
      InSnoc(kinds, p.kind);
      SumOverSnoc(before, p, kinds[..|kinds| - 1], id);
      NumOfSnoc(before, p, kinds[|kinds| - 1], id);
    }
  }

  /** Every planned record but the account records has its place in the order of writing. */
  lemma RouteOrderCovers()
    ensures AllButAccounts(ROUTE_ORDER)
  {
    assert ROUTE_ORDER[0] == Audit && ROUTE_ORDER[1] == MarketRecord && ROUTE_ORDER[2] == BookRecord
      && ROUTE_ORDER[3] == OrderRecord && ROUTE_ORDER[4] == FillRecord && ROUTE_ORDER[5] == PositionRecord
      && ROUTE_ORDER[6] == AllocationRecord && ROUTE_ORDER[7] == OutboxRecord;
  }

  predicate AllButAccounts(kinds: seq<Kind>) {
    && (forall i, j :: 0 <= i < j < |kinds| ==> kinds[i] != kinds[j])
    && (forall k: Kind :: k in kinds <==> !k.AccountRecord?)
  }

  lemma RecordsByKindSnoc(before: seq<Planned>, p: Planned, kinds: seq<Kind>, id: string)
    requires AllButAccounts(kinds)
    requires NumPlanned(before, id) == SumOver(before, kinds, id) + NumOf(before, AccountRecord, id)
    ensures NumPlanned(before + [p], id) == SumOver(before + [p], kinds, id) + NumOf(before + [p], AccountRecord, id)
  {
    assert p.kind in kinds <==> !p.kind.AccountRecord?;
    NumPlannedSnoc(before, p, id);
    SumOverSnoc(before, p, kinds, id);
    NumOfSnoc(before, p, AccountRecord, id);
  }

  lemma {:induction false} RecordsByKind(planned: seq<Planned>, kinds: seq<Kind>, id: string)
    requires AllButAccounts(kinds)
    ensures NumPlanned(planned, id) == SumOver(planned, kinds, id) + NumOf(planned, AccountRecord, id)
    decreases planned
  {
    if planned == [] {
      NothingPlanned(kinds, id);
    } else {
      var before, p := planned[..|planned| - 1], planned[|planned| - 1];
      assert planned == before + [p];
      RecordsByKind(before, kinds, id);
      RecordsByKindSnoc(before, p, kinds, id);
    }
  }

  lemma {:induction false} NothingPlanned(kinds: seq<Kind>, id: string)
    ensures SumOver([], kinds, id) == 0
  {
    if kinds != [] {
      NothingPlanned(kinds[..|kinds| - 1], id);
    }
  }

  lemma {:induction false} SuccessesAreAllExactlyWhen(repo: Repository, items: seq<Planned>, count: nat, id: string)
    ensures Successes(repo, items, count, id) <= NumPlanned(items, id)
    ensures Successes(repo, items, count, id) == NumPlanned(items, id) <==> FirstFailure(repo, items, count, id).None?
  {
    if items != [] {
      SuccessesAreAllExactlyWhen(repo, items[..|items| - 1], count, id);
    }
  }

  lemma {:induction false} SuccessesOverAll(repo: Repository, planned: seq<Planned>, kinds: seq<Kind>, id: string)
    ensures SuccessesOver(repo, planned, kinds, id) <= SumOver(planned, kinds, id)
    ensures SuccessesOver(repo, planned, kinds, id) == SumOver(planned, kinds, id)
       <==> FailureOver(repo, planned, kinds, id).None?
  {
    if kinds != [] {
      var items := ItemsOf(planned, kinds[|kinds| - 1]);
      SuccessesOverAll(repo, planned, kinds[..|kinds| - 1], id);
      SuccessesAreAllExactlyWhen(repo, items, |items|, id);
    }
  }

  lemma {:induction false} NumPlannedAppend(a: seq<Planned>, b: seq<Planned>, id: string)
    ensures NumPlanned(a + b, id) == NumPlanned(a, id) + NumPlanned(b, id)
  {
    if b == [] {
      assert a + b == a;
    } else {
      assert (a + b)[..|a + b| - 1] == a + b[..|b| - 1];
      NumPlannedAppend(a, b[..|b| - 1], id);
    }
  }

  lemma {:induction false} NumPlannedOfOne(e: OutboxEvent, kinds: seq<Kind>, place: nat, id: string)
    ensures NumPlanned(KindsPlanned(e, kinds, place), id) == if e.eventId == id then |kinds| else 0
  {
    if kinds != [] {
      var n := |kinds| - 1;
      NumPlannedOfOne(e, kinds[..n], place, id);
      assert KindsPlanned(e, kinds, place)[..n] == KindsPlanned(e, kinds[..n], place);
    }
  }

  lemma PlannedSnoc(front: seq<OutboxEvent>, e: OutboxEvent, id: string)
    ensures NumPlanned(PlannedRecords(front + [e]), id)
         == NumPlanned(PlannedRecords(front), id) + (if e.eventId == id then |RouteEvent(e)| else 0)
  {
    var before := PlannedRecords(front);
    assert (front + [e])[..|front|] == front;
    NumPlannedAppend(before, KindsPlanned(e, RouteEvent(e), |before|), id);
    NumPlannedOfOne(e, RouteEvent(e), |before|, id);
  }

  lemma RequiredSnoc(front: seq<OutboxEvent>, e: OutboxEvent, id: string)
    ensures RequiredOf(front + [e], id) == if e.eventId == id then |RouteEvent(e)| else RequiredOf(front, id)
  {
    assert (front + [e])[..|front|] == front;
  }

  lemma {:induction false} NothingPlannedForOthers(events: seq<OutboxEvent>, id: string)
    requires forall i :: 0 <= i < |events| ==> events[i].eventId != id
    ensures NumPlanned(PlannedRecords(events), id) == 0 && RequiredOf(events, id) == 0
  {
    if events != [] {
      var front, e := events[..|events| - 1], events[|events| - 1];
      assert events == front + [e];
      NothingPlannedForOthers(front, id);
      PlannedSnoc(front, e, id);
      RequiredSnoc(front, e, id);
    }
  }

  lemma {:induction false} PlannedAreRequired(events: seq<OutboxEvent>, id: string)
    requires DistinctIds(events)
    ensures NumPlanned(PlannedRecords(events), id) == RequiredOf(events, id)
  {
    if events != [] {
      var front, e := events[..|events| - 1], events[|events| - 1];
      assert events == front + [e];
      PlannedSnoc(front, e, id);
      RequiredSnoc(front, e, id);
      if e.eventId == id {
        NothingPlannedForOthers(front, id);
      } else {
        PlannedAreRequired(front, id);
      }
    }
  }

  lemma {:induction false} EachRequiresSome(events: seq<OutboxEvent>, i: nat)
    requires i < |events|
    ensures RequiredOf(events, events[i].eventId) > 0
  {
    var n := |events| - 1;
    if events[n].eventId != events[i].eventId {
      EachRequiresSome(events[..n], i);
    }
  }

  /** Record `i` is written: its kind has a place, and neither batch nor single write failed. */
  predicate IsWritten(repo: Repository, planned: seq<Planned>, i: nat)
    requires i < |planned|
  {
    planned[i].kind in ROUTE_ORDER
    && FailureOf(repo, planned[i], |ItemsOf(planned, planned[i].kind)|).None?
  }

  predicate AllWritten(repo: Repository, planned: seq<Planned>, id: string) {
    forall i :: 0 <= i < |planned| && planned[i].event.eventId == id ==> IsWritten(repo, planned, i)
  }

  lemma {:induction false} FirstFailureFinds(repo: Repository, items: seq<Planned>, count: nat, id: string)
    ensures FirstFailure(repo, items, count, id).None? <==>
      forall i :: 0 <= i < |items| && items[i].event.eventId == id ==> FailureOf(repo, items[i], count).None?
  {
    if items != [] {
      var n := |items| - 1;
      FirstFailureFinds(repo, items[..n], count, id);
      assert forall i :: 0 <= i < n ==> items[..n][i] == items[i];
    }
  }

  /** No record of this kind and this event fails. */
  predicate KindIsFine(repo: Repository, planned: seq<Planned>, kind: Kind, id: string) {
    FirstFailure(repo, ItemsOf(planned, kind), |ItemsOf(planned, kind)|, id).None?
  }

  lemma {:induction false} FailureOverFinds(repo: Repository, planned: seq<Planned>, kinds: seq<Kind>, id: string)
    ensures FailureOver(repo, planned, kinds, id).None? <==> forall k :: k in kinds ==> KindIsFine(repo, planned, k, id)
  {
    if kinds != [] {
      var n := |kinds| - 1;
      FailureOverFinds(repo, planned, kinds[..n], id);
      assert kinds == kinds[..n] + [kinds[n]];
      assert FailureOver(repo, planned, kinds, id).None? <==>
        FailureOver(repo, planned, kinds[..n], id).None? && KindIsFine(repo, planned, kinds[n], id);
    }
  }

  lemma {:induction false} ItemsAreThoseOfKind(planned: seq<Planned>, kind: Kind)
    ensures forall p :: p in ItemsOf(planned, kind) <==> p in planned && p.kind == kind
  {
    if planned != [] {
      var n := |planned| - 1;
      ItemsAreThoseOfKind(planned[..n], kind);
      assert planned == planned[..n] + [planned[n]];
    }
  }

  lemma {:induction false} NoneOfKindExactlyWhen(planned: seq<Planned>, kind: Kind, id: string)
    ensures NumOf(planned, kind, id) == 0 <==>
      forall i :: 0 <= i < |planned| && planned[i].event.eventId == id ==> planned[i].kind != kind
  {
    if planned != [] {
      var n := |planned| - 1;
      NoneOfKindExactlyWhen(planned[..n], kind, id);
      NumOfSnoc(planned[..n], planned[n], kind, id);
      assert planned[..n] + [planned[n]] == planned;
    }
  }

  lemma KindFailsExactlyWhen(repo: Repository, planned: seq<Planned>, kind: Kind, id: string)
    ensures KindIsFine(repo, planned, kind, id) <==>
      forall i :: 0 <= i < |planned| && planned[i].event.eventId == id && planned[i].kind == kind ==>
        FailureOf(repo, planned[i], |ItemsOf(planned, kind)|).None?
  {
    var items := ItemsOf(planned, kind);
    FirstFailureFinds(repo, items, |items|, id);
    ItemsAreThoseOfKind(planned, kind);
    if KindIsFine(repo, planned, kind, id) {
      forall i | 0 <= i < |planned| && planned[i].event.eventId == id && planned[i].kind == kind
        ensures FailureOf(repo, planned[i], |items|).None?
      {
        assert planned[i] in items;
        var j :| 0 <= j < |items| && items[j] == planned[i];
      }
    } else {
      var j :| 0 <= j < |items| && items[j].event.eventId == id && FailureOf(repo, items[j], |items|).Some?;
      assert items[j] in planned;
      var i :| 0 <= i < |planned| && planned[i] == items[j];
    }
  }

  /** Nothing failed and no record was left out, exactly when all of an event's records were written. */
  lemma WrittenExactlyWhen(repo: Repository, planned: seq<Planned>, id: string)
    ensures AllWritten(repo, planned, id) <==>
      FailureOver(repo, planned, ROUTE_ORDER, id).None? && NumOf(planned, AccountRecord, id) == 0
  {
    RouteOrderCovers();
    FailureOverFinds(repo, planned, ROUTE_ORDER, id);
    NoneOfKindExactlyWhen(planned, AccountRecord, id);
    if AllWritten(repo, planned, id) {
      forall k | k in ROUTE_ORDER ensures KindIsFine(repo, planned, k, id) {
        KindFailsExactlyWhen(repo, planned, k, id);
      }
    } else {
      var i :| 0 <= i < |planned| && planned[i].event.eventId == id && !IsWritten(repo, planned, i);
      KindFailsExactlyWhen(repo, planned, planned[i].kind, id);
    }
  }

  /**
   * An event of a batch with distinct ids is acknowledged exactly when every record planned
   * for it was written.
   */
  lemma AcknowledgedExactlyWhenWritten(repo: Repository, events: seq<OutboxEvent>, maxRetries: nat, i: nat)
    requires i < |events| && DistinctIds(events)
    ensures Fates(repo, events, maxRetries)[i] == Acked <==>
      AllWritten(repo, PlannedRecords(events), events[i].eventId)
  {
    var id := events[i].eventId;
    var planned := PlannedRecords(events);
    PlannedAreRequired(events, id);
    EachRequiresSome(events, i);
    AckedExactlyWhenSucceeded(repo, planned, events[i], RequiredOf(events, id), maxRetries, ROUTE_ORDER);
    SucceededExactlyWhenWritten(repo, planned, id, ROUTE_ORDER);
  }

  lemma AckedExactlyWhenSucceeded(repo: Repository, planned: seq<Planned>, e: OutboxEvent, required: nat, maxRetries: nat,
                                  kinds: seq<Kind>)
    requires kinds == ROUTE_ORDER && required > 0
    ensures FateIn(repo, planned, e, required, maxRetries) == Acked <==> Succeeded(repo, planned, e.eventId, required, kinds)
  {}

  /** As many successes as records are required, and no failure. */
  predicate Succeeded(repo: Repository, planned: seq<Planned>, id: string, required: nat, kinds: seq<Kind>) {
    SuccessesOver(repo, planned, kinds, id) >= required && FailureOver(repo, planned, kinds, id).None?
  }

  /** As many successes as planned records and no failure, exactly when all planned records were written. */
  lemma SucceededExactlyWhenWritten(repo: Repository, planned: seq<Planned>, id: string, kinds: seq<Kind>)
    requires kinds == ROUTE_ORDER
    ensures Succeeded(repo, planned, id, NumPlanned(planned, id), kinds) <==> AllWritten(repo, planned, id)
  {
    RouteOrderCovers();
    RecordsByKind(planned, kinds, id);
    SuccessesOverAll(repo, planned, kinds, id);
    WrittenExactlyWhen(repo, planned, id);
  }

  /** What becomes of an event that was not acknowledged: its failure and its retries decide. */
  lemma RetriedExactlyWhen(e: OutboxEvent, required: nat, succeeded: nat, failure: Option<Failure>, maxRetries: nat)
    ensures
      var fate := FateOf(e, required, succeeded, failure, maxRetries);
      && (fate == Acked <==> required > 0 && succeeded >= required && failure.None?)
      && (fate == Retried <==>
           && fate != Acked && e.retryCount < maxRetries
           && (failure.None? || failure == Some(WriteIncomplete) || failure == Some(WriteFailed(true))))
  {}

  /** The route low-priority events are merged by. */
  lemma RouteIsOwnKeyOrSubject(e: OutboxEvent)
    ensures e.mergeKey.Some? && e.mergeKey.value != "" ==> e.RouteKey() == e.mergeKey.value
    ensures e.mergeKey.None? || e.mergeKey.value == "" ==>
      e.RouteKey() == e.eventType + "|" + e.marketSlug + "|" + e.conditionId + "|" + e.tokenId
    ensures e.Critical() <==> e.priority == 0 || e.priority == 1 || e.priority < 0
  {}

  // ---------------------------------------------------------------- which records an event has

  function CountOf(kinds: seq<Kind>, kind: Kind): nat {
    if kinds == [] then 0
    else CountOf(kinds[..|kinds| - 1], kind) + (if kinds[|kinds| - 1] == kind then 1 else 0)
  }

  lemma {:induction false} CountOfAppend(a: seq<Kind>, b: seq<Kind>, kind: Kind)
    ensures CountOf(a + b, kind) == CountOf(a, kind) + CountOf(b, kind)
  {
    if b == [] {
      assert a + b == a;
    } else {
      assert (a + b)[..|a + b| - 1] == a + b[..|b| - 1];
      CountOfAppend(a, b[..|b| - 1], kind);
    }
  }

  lemma {:induction false} CountOfRepeat(repeated: Kind, n: nat, kind: Kind)
    ensures CountOf(Repeat(repeated, n), kind) == if repeated == kind then n else 0
  {
    if n > 0 {
      assert Repeat(repeated, n)[..n - 1] == Repeat(repeated, n - 1);
      CountOfRepeat(repeated, n - 1, kind);
    }
  }

  function When(holds: bool, kinds: seq<Kind>): seq<Kind> { if holds then kinds else [] }

  lemma CountOfOne(one: Kind, holds: bool, kind: Kind)
    ensures CountOf(When(holds, [one]), kind) == if holds && one == kind then 1 else 0
  {
    assert [one][..0] == [];
  }

  lemma CountOfMany(one: Kind, n: nat, holds: bool, kind: Kind)
    ensures CountOf(When(holds, Repeat(one, n)), kind) == if holds && one == kind then n else 0
  {
    CountOfRepeat(one, n, kind);
  }

  lemma CountOfFour(a: seq<Kind>, b: seq<Kind>, c: seq<Kind>, d: seq<Kind>, kind: Kind)
    ensures CountOf(a + b + c + d, kind) == CountOf(a, kind) + CountOf(b, kind) + CountOf(c, kind) + CountOf(d, kind)
  {
    CountOfAppend(a, b, kind);
    CountOfAppend(a + b, c, kind);
    CountOfAppend(a + b + c, d, kind);
  }

  /** How many records of a kind an event is written as. */
  function RecordsOf(e: OutboxEvent, kind: Kind): nat {
    match kind
    case Audit => 1
    case OutboxRecord => 1
    case AllocationRecord => e.allocations
    case MarketRecord => if e.family.OfMarket? && e.hasMarket then 1 else 0
    case AccountRecord => if e.family.OfAccount? then 1 else 0
    case BookRecord => if e.family.OfBook? && e.hasBook then 1 else 0
    case OrderRecord => if e.family.OfOrder? && e.hasOrder then 1 else 0
    case FillRecord => if e.family.OfFill? then e.fills else 0
    case PositionRecord => if e.family.OfPosition? then e.positions else 0
  }

  lemma CommonCounts(e: OutboxEvent, kind: Kind)
    ensures CountOf([Audit] + Repeat(AllocationRecord, e.allocations), kind)
         == (if kind == Audit then 1 else 0) + (if kind == AllocationRecord then e.allocations else 0)
  {
    CountOfAppend([Audit], Repeat(AllocationRecord, e.allocations), kind);
    CountOfRepeat(AllocationRecord, e.allocations, kind);
    CountOfOne(Audit, true, kind);
  }

  function Joined(common: seq<Kind>, market: seq<Kind>, account: seq<Kind>, book: seq<Kind>, order: seq<Kind>,
                  fills: seq<Kind>, positions: seq<Kind>): seq<Kind> {
    common + market + account + book + order + fills + positions + [OutboxRecord]
  }

  lemma RouteIs(e: OutboxEvent)
    ensures RouteEvent(e)
         == Joined([Audit] + Repeat(AllocationRecord, e.allocations),
                   When(e.family.OfMarket? && e.hasMarket, [MarketRecord]), When(e.family.OfAccount?, [AccountRecord]),
                   When(e.family.OfBook? && e.hasBook, [BookRecord]), When(e.family.OfOrder? && e.hasOrder, [OrderRecord]),
                   When(e.family.OfFill?, Repeat(FillRecord, e.fills)),
                   When(e.family.OfPosition?, Repeat(PositionRecord, e.positions)))
  {}

  lemma RouteCounts(e: OutboxEvent, kind: Kind)
    ensures CountOf(RouteEvent(e), kind) == RecordsOf(e, kind)
  {
    RouteIs(e);
    CommonCounts(e, kind);
    CountOfOne(MarketRecord, e.family.OfMarket? && e.hasMarket, kind);
    CountOfOne(AccountRecord, e.family.OfAccount?, kind);
    CountOfOne(BookRecord, e.family.OfBook? && e.hasBook, kind);
    CountOfOne(OrderRecord, e.family.OfOrder? && e.hasOrder, kind);
    CountOfMany(FillRecord, e.fills, e.family.OfFill?, kind);
    CountOfMany(PositionRecord, e.positions, e.family.OfPosition?, kind);
    SumOfParts(e, kind, [Audit] + Repeat(AllocationRecord, e.allocations),
               When(e.family.OfMarket? && e.hasMarket, [MarketRecord]), When(e.family.OfAccount?, [AccountRecord]),
               When(e.family.OfBook? && e.hasBook, [BookRecord]), When(e.family.OfOrder? && e.hasOrder, [OrderRecord]),
               When(e.family.OfFill?, Repeat(FillRecord, e.fills)),
               When(e.family.OfPosition?, Repeat(PositionRecord, e.positions)));
  }

  lemma JoinedCounts(common: seq<Kind>, market: seq<Kind>, account: seq<Kind>, book: seq<Kind>, order: seq<Kind>,
                     fills: seq<Kind>, positions: seq<Kind>, kind: Kind)
    ensures CountOf(Joined(common, market, account, book, order, fills, positions), kind)
         == CountOf(common, kind) + CountOf(market, kind) + CountOf(account, kind) + CountOf(book, kind)
            + CountOf(order, kind) + CountOf(fills, kind) + CountOf(positions, kind) + (if kind == OutboxRecord then 1 else 0)
  {
    CountOfFour(common, market, account, book, kind);
    CountOfFour(common + market + account + book, order, fills, positions, kind);
    CountOfAppend(common + market + account + book + order + fills + positions, [OutboxRecord], kind);
    CountOfOne(OutboxRecord, true, kind);
  }

  lemma SumOfParts(e: OutboxEvent, kind: Kind, common: seq<Kind>, market: seq<Kind>, account: seq<Kind>, book: seq<Kind>,
                   order: seq<Kind>, fills: seq<Kind>, positions: seq<Kind>)
    requires CountOf(common, kind) == (if kind == Audit then 1 else 0) + (if kind == AllocationRecord then e.allocations else 0)
    requires CountOf(market, kind) == if e.family.OfMarket? && e.hasMarket && MarketRecord == kind then 1 else 0
    requires CountOf(account, kind) == if e.family.OfAccount? && AccountRecord == kind then 1 else 0
    requires CountOf(book, kind) == if e.family.OfBook? && e.hasBook && BookRecord == kind then 1 else 0
    requires CountOf(order, kind) == if e.family.OfOrder? && e.hasOrder && OrderRecord == kind then 1 else 0
    requires CountOf(fills, kind) == if e.family.OfFill? && FillRecord == kind then e.fills else 0
    requires CountOf(positions, kind) == if e.family.OfPosition? && PositionRecord == kind then e.positions else 0
    ensures CountOf(Joined(common, market, account, book, order, fills, positions), kind) == RecordsOf(e, kind)
  {
    JoinedCounts(common, market, account, book, order, fills, positions, kind);
  }

  lemma {:induction false} NumOfAppend(a: seq<Planned>, b: seq<Planned>, kind: Kind, id: string)
    ensures NumOf(a + b, kind, id) == NumOf(a, kind, id) + NumOf(b, kind, id)
  {
    if b == [] {
      assert a + b == a;
    } else {
      var front, last := b[..|b| - 1], b[|b| - 1];
      assert b == front + [last] && a + b == a + front + [last];
      NumOfAppend(a, front, kind, id);
      NumOfSnoc(a + front, last, kind, id);
      NumOfSnoc(front, last, kind, id);
    }
  }

  lemma {:induction false} NumOfKinds(e: OutboxEvent, kinds: seq<Kind>, place: nat, kind: Kind, id: string)
    ensures NumOf(KindsPlanned(e, kinds, place), kind, id) == if e.eventId == id then CountOf(kinds, kind) else 0
  {
    if kinds != [] {
      var n := |kinds| - 1;
      var front, last := KindsPlanned(e, kinds[..n], place), Planned(e, kinds[n], place + n);
      assert KindsPlanned(e, kinds, place) == front + [last];
      NumOfKinds(e, kinds[..n], place, kind, id);
      NumOfSnoc(front, last, kind, id);
    }
  }

  lemma NumOfSnocEvent(front: seq<OutboxEvent>, e: OutboxEvent, kind: Kind, id: string)
    ensures NumOf(PlannedRecords(front + [e]), kind, id)
         == NumOf(PlannedRecords(front), kind, id) + (if e.eventId == id then RecordsOf(e, kind) else 0)
  {
    var before := PlannedRecords(front);
    var own := KindsPlanned(e, RouteEvent(e), |before|);
    assert (front + [e])[..|front|] == front;
    assert PlannedRecords(front + [e]) == before + own;
    NumOfAppend(before, own, kind, id);
    NumOfKinds(e, RouteEvent(e), |before|, kind, id);
    RouteCounts(e, kind);
  }

  lemma {:induction false} NoneForOthers(events: seq<OutboxEvent>, kind: Kind, id: string)
    requires forall i :: 0 <= i < |events| ==> events[i].eventId != id
    ensures NumOf(PlannedRecords(events), kind, id) == 0
  {
    if events != [] {
      var front, e := events[..|events| - 1], events[|events| - 1];
      assert events == front + [e] && e.eventId != id;
      forall i | 0 <= i < |front| ensures front[i].eventId != id {
        assert front[i] == events[i];
      }
      NoneForOthers(front, kind, id);
      NumOfSnocEvent(front, e, kind, id);
    }
  }

  /**
   * What is planned for each event of a batch with distinct ids: one audit and one outbox
   * record, its allocations, and of its own family what its payload holds. Nothing else.
   */
  lemma {:induction false} EachEventHasItsRecords(events: seq<OutboxEvent>, i: nat, kind: Kind)
    requires DistinctIds(events) && i < |events|
    ensures NumOf(PlannedRecords(events), kind, events[i].eventId) == RecordsOf(events[i], kind)
  {
    var n := |events| - 1;
    var front, e := events[..n], events[n];
    assert events == front + [e];
    NumOfSnocEvent(front, e, kind, events[i].eventId);
    forall k | 0 <= k < n ensures front[k] == events[k] && front[k].eventId != e.eventId {}
    if i < n {
      EachEventHasItsRecords(front, i, kind);
    } else {
      NoneForOthers(front, kind, e.eventId);
    }
  }

  lemma {:induction false} SomeOfKind(planned: seq<Planned>, kind: Kind, id: string)
    requires NumOf(planned, kind, id) > 0
    ensures exists k :: 0 <= k < |planned| && planned[k].kind == kind && planned[k].event.eventId == id
  {
    NoneOfKindExactlyWhen(planned, kind, id);
  }

  /** A record is written exactly when its kind is supported and its batch or the record itself is taken. */
  lemma ItemIsWrittenExactlyWhen(repo: Repository, item: Planned, count: nat)
    ensures FailureOf(repo, item, count).None? <==>
      repo.supports(item.kind) && ((count > 1 && repo.acceptsBatch(item.kind)) || repo.single(item).None?)
    ensures !repo.supports(item.kind) ==> FailureOf(repo, item, count) == Some(MissingMethod)
  {}

  /** An acknowledged event has a record of every kind it calls for, planned and written by a repository that can. */
  lemma AcknowledgedIsWritten(repo: Repository, events: seq<OutboxEvent>, maxRetries: nat, i: nat, kind: Kind)
    requires DistinctIds(events) && i < |events| && RecordsOf(events[i], kind) > 0
    requires Fates(repo, events, maxRetries)[i] == Acked
    ensures
      var planned := PlannedRecords(events);
      exists k :: 0 <= k < |planned| && planned[k].kind == kind && planned[k].event.eventId == events[i].eventId
                  && IsWritten(repo, planned, k)
    ensures repo.supports(kind)
  {
    var planned := PlannedRecords(events);
    EachEventHasItsRecords(events, i, kind);
    SomeOfKind(planned, kind, events[i].eventId);
    AcknowledgedExactlyWhenWritten(repo, events, maxRetries, i);
    var k :| 0 <= k < |planned| && planned[k].kind == kind && planned[k].event.eventId == events[i].eventId;
    assert IsWritten(repo, planned, k);
    ItemIsWrittenExactlyWhen(repo, planned[k], |ItemsOf(planned, kind)|);
  }

  /** In particular an order event that carries an order has its order record written. */
  lemma AcknowledgedOrderIsWritten(repo: Repository, events: seq<OutboxEvent>, maxRetries: nat, i: nat)
    requires DistinctIds(events) && i < |events| && events[i].family.OfOrder? && events[i].hasOrder
    requires Fates(repo, events, maxRetries)[i] == Acked
    ensures
      var planned := PlannedRecords(events);
      exists k :: 0 <= k < |planned| && planned[k].kind == OrderRecord && planned[k].event.eventId == events[i].eventId
                  && IsWritten(repo, planned, k)
  {
    AcknowledgedIsWritten(repo, events, maxRetries, i, OrderRecord);
  }

  lemma AccountIsRouted(e: OutboxEvent)
    requires e.family.OfAccount?
    ensures |RouteEvent(e)| > 1 + e.allocations && RouteEvent(e)[1 + e.allocations] == AccountRecord
  {}

  predicate HasAccountRecord(planned: seq<Planned>, e: OutboxEvent) {
    exists k :: 0 <= k < |planned| && planned[k].event == e && planned[k].kind == AccountRecord
  }

  lemma HasRecordBefore(before: seq<Planned>, own: seq<Planned>, e: OutboxEvent)
    requires HasAccountRecord(before, e)
    ensures HasAccountRecord(before + own, e)
  {
    var k :| 0 <= k < |before| && before[k].event == e && before[k].kind == AccountRecord;
    assert (before + own)[k] == before[k];
  }

  lemma HasRecordAt(before: seq<Planned>, own: seq<Planned>, e: OutboxEvent, at: nat)
    requires at < |own| && own[at].event == e && own[at].kind == AccountRecord
    ensures HasAccountRecord(before + own, e)
  {
    assert (before + own)[|before| + at] == own[at];
  }

  lemma {:induction false} AccountRecordIsPlanned(events: seq<OutboxEvent>, i: nat)
    requires i < |events| && events[i].family.OfAccount?
    ensures HasAccountRecord(PlannedRecords(events), events[i])
  {
    var n := |events| - 1;
    var front, last := events[..n], events[n];
    var before := PlannedRecords(front);
    var own := KindsPlanned(last, RouteEvent(last), |before|);
    if i < n {
      assert front[i] == events[i];
      AccountRecordIsPlanned(front, i);
      HasRecordBefore(before, own, events[i]);
    } else {
      AccountIsRouted(last);
      HasRecordAt(before, own, last, 1 + last.allocations);
    }
  }

  /** So a balance update is never acknowledged, whatever the repository answers: no kind writes its account record. */
  lemma BalanceUpdateIsNeverAcknowledged(repo: Repository, events: seq<OutboxEvent>, maxRetries: nat, i: nat)
    requires i < |events| && DistinctIds(events) && events[i].family.OfAccount?
    ensures Fates(repo, events, maxRetries)[i] != Acked
  {
    AcknowledgedExactlyWhenWritten(repo, events, maxRetries, i);
    AccountRecordIsPlanned(events, i);
    RouteOrderCovers();
    var planned := PlannedRecords(events);
    var k :| 0 <= k < |planned| && planned[k].event == events[i] && planned[k].kind == AccountRecord;
    assert !IsWritten(repo, planned, k);
  }

  // ---------------------------------------------------------------------------- retries

  /** One processing of an event: the rest of its batch and what the repository answers. */
  datatype Attempt = Attempt(required: nat, succeeded: nat, failure: Option<Failure>)

  /** How often an event is retried over its attempts; every retry comes back with the count raised. */
  function Retries(e: OutboxEvent, attempts: seq<Attempt>, maxRetries: nat): nat
    decreases attempts
  {
    if attempts == [] then 0
    else
      var a := attempts[0];
      if FateOf(e, a.required, a.succeeded, a.failure, maxRetries) != Retried then 0
      else 1 + Retries(e.(retryCount := e.retryCount + 1), attempts[1..], maxRetries)
  }

  /** An event is retried at most `maxRetries` times, less the retries it arrived with. */
  lemma {:induction false} RetriesAreBounded(e: OutboxEvent, attempts: seq<Attempt>, maxRetries: nat)
    ensures Retries(e, attempts, maxRetries) <= if e.retryCount >= maxRetries then 0 else maxRetries - e.retryCount
    decreases attempts
  {
    if attempts != [] {
      RetriesAreBounded(e.(retryCount := e.retryCount + 1), attempts[1..], maxRetries);
    }
  }
}
