/**
 * Discovery over whole rounds: each query's pages are its own cursor chain, each page once,
 * a round closes only when every chain has ended, and queries take turns fairly.
 */
module DiscoveryLaws {
  import opened Wrappers
  import opened Dict
  import opened Discovery

  /** A page that was fetched: for which query, with which cursor, and what it returned. */
  datatype Fetch = Fetch(name: string, cursor: Option<string>, size: nat, next: Option<string>)

  /** A scan with the pages of its open round and of the rounds it closed. */
  datatype Journal = Journal(scan: Scan, log: seq<Fetch>, closed: seq<seq<Fetch>>)

  function FetchOf(asked: Scan, name: string, reply: Reply): Fetch
    requires reply.Fetched()
  {
    Fetch(name, RequestCursor(asked, name), reply.size, reply.next)
  }

  function Write(j: Journal, queries: seq<string>, op: ScanOp): Journal {
    var next := Perform(j.scan, queries, op);
    if op.TickStart? then j.(scan := next)
    else
      var p := Pruned(j.scan, queries);
      var chosen := Chosen(p, queries);
      if chosen.None? then Journal(next, [], j.closed + [j.log])
      else if op.reply.FetchFailed? then j.(scan := next)
      else
        var asked := Advanced(p, queries, chosen.value);
        var name := queries[chosen.value];
        var log := j.log + [FetchOf(asked, name, op.reply)];
        if op.reply.Page? && RoundDone(Recorded(asked, name, op.reply.size, op.reply.next), |queries|)
        then Journal(next, [], j.closed + [log])
        else j.(scan := next, log := log)
  }

  function Written(queries: seq<string>, ops: seq<ScanOp>): Journal {
    if ops == [] then Journal(FIRST_SCAN, [], []) else Write(Written(queries, ops[..|ops| - 1]), queries, ops[|ops| - 1])
  }

  // ------------------------------------------------------------------------- chains

  function ChainOf(log: seq<Fetch>, name: string): seq<Fetch> {
    if log == [] then []
    else ChainOf(log[..|log| - 1], name) + (if log[|log| - 1].name == name then [log[|log| - 1]] else [])
  }

  /** Starts without a cursor; every later page is asked for with the cursor the one before returned. */
  predicate IsChain(c: seq<Fetch>) {
    && (c != [] ==> c[0].cursor.None?)
    && forall i :: 0 <= i < |c| - 1 ==> c[i].next.Some? && c[i + 1].cursor == c[i].next
  }

  function NextOf(c: seq<Fetch>): Option<string> {
    if c == [] then None else c[|c| - 1].next
  }

  predicate Ended(c: seq<Fetch>) { c != [] && c[|c| - 1].next.None? }

  function Sizes(log: seq<Fetch>): nat {
    if log == [] then 0 else Sizes(log[..|log| - 1]) + log[|log| - 1].size
  }

  predicate OwnChain(s: Scan, queries: seq<string>, log: seq<Fetch>, name: string) {
    var c := ChainOf(log, name);
    && IsChain(c) && Get(s.queryCursors, name) == NextOf(c) && (name in s.completed <==> Ended(c))
    && (c != [] ==> name in queries)
  }

  ghost predicate Consistent(s: Scan, queries: seq<string>, log: seq<Fetch>) {
    && DistinctKeys(s.queryCursors)
    && (forall name: string :: OwnChain(s, queries, log, name))
    && s.pagesInRound == |log| && s.marketsInRound == Sizes(log)
  }

  lemma {:induction false} KeepAllNamed(cursors: Dict<string, string>, names: set<string>)
    requires forall e :: e in cursors ==> e.0 in names
    ensures KeepNamed(cursors, names) == cursors
  {
    if cursors != [] {
      var n := |cursors| - 1;
      KeepAllNamed(cursors[..n], names);
      assert cursors[n] in cursors;
      assert cursors == cursors[..n] + [cursors[n]];
    }
  }

  lemma PruningChangesNothing(s: Scan, queries: seq<string>, log: seq<Fetch>)
    requires Consistent(s, queries, log)
    ensures Pruned(s, queries) == s && s.completed <= Names(queries)
  {
    forall e | e in s.queryCursors ensures e.0 in Names(queries) {
      var i :| 0 <= i < |s.queryCursors| && s.queryCursors[i] == e;
      EntryIsGot(s.queryCursors, i);
      assert OwnChain(s, queries, log, e.0);
    }
    KeepAllNamed(s.queryCursors, Names(queries));
    forall name | name in s.completed ensures name in Names(queries) {
      assert OwnChain(s, queries, log, name);
    }
    assert s.completed * Names(queries) == s.completed;
  }

  /** A request is sent with the query's own cursor, never with one another query left behind. */
  lemma CursorIsOwn(s: Scan, queries: seq<string>, index: nat)
    requires index < |queries|
    ensures RequestCursor(Advanced(s, queries, index), queries[index]) == Get(s.queryCursors, queries[index])
  {}

  lemma ChainSnoc(log: seq<Fetch>, f: Fetch, name: string)
    ensures ChainOf(log + [f], name) == ChainOf(log, name) + (if f.name == name then [f] else [])
  {
    assert (log + [f])[..|log|] == log;
  }

  /** A chain that has not ended goes on with the page its last cursor asks for. */
  lemma ChainGoesOn(c: seq<Fetch>, f: Fetch)
    requires IsChain(c) && !Ended(c) && f.cursor == NextOf(c)
    ensures IsChain(c + [f]) && NextOf(c + [f]) == f.next && (Ended(c + [f]) <==> f.next.None?)
  {
    var d := c + [f];
    assert d[|c|] == f;
    assert forall i :: 0 <= i < |c| ==> d[i] == c[i];
    if c == [] {
      assert f.cursor.None?;
    }
  }

  lemma RecordingExtendsChain(s: Scan, queries: seq<string>, log: seq<Fetch>, index: nat, reply: Reply, name: string)
    requires Consistent(s, queries, log) && index < |queries| && queries[index] !in s.completed && reply.Fetched()
    ensures
      var asked := Advanced(s, queries, index);
      OwnChain(Recorded(asked, queries[index], reply.size, reply.next), queries,
               log + [FetchOf(asked, queries[index], reply)], name)
  {
    var own := queries[index];
    var asked := Advanced(s, queries, index);
    CursorIsOwn(s, queries, index);
    ChainSnoc(log, FetchOf(asked, own, reply), name);
    assert OwnChain(s, queries, log, name) && OwnChain(s, queries, log, own);
    ChainGoesOn(ChainOf(log, own), FetchOf(asked, own, reply));
    assert ChainOf(log, name) + [] == ChainOf(log, name);
    if reply.next.None? {
      GetPop(s.queryCursors, own, name);
    } else {
      GetPut(s.queryCursors, own, reply.next.value, name);
    }
  }

  lemma RecordingKeepsConsistency(s: Scan, queries: seq<string>, log: seq<Fetch>, index: nat, reply: Reply)
    requires Consistent(s, queries, log) && index < |queries| && queries[index] !in s.completed && reply.Fetched()
    ensures
      var asked := Advanced(s, queries, index);
      Consistent(Recorded(asked, queries[index], reply.size, reply.next), queries,
                 log + [FetchOf(asked, queries[index], reply)])
  {
    var asked := Advanced(s, queries, index);
    var log2 := log + [FetchOf(asked, queries[index], reply)];
    forall name: string ensures OwnChain(Recorded(asked, queries[index], reply.size, reply.next), queries, log2, name) {
      RecordingExtendsChain(s, queries, log, index, reply, name);
    }
    if reply.next.None? {
      PopDistinct(s.queryCursors, queries[index]);
    } else {
      PutDistinct(s.queryCursors, queries[index], reply.next.value);
    }
    assert log2[..|log|] == log;
  }

  // ------------------------------------------------------------------ closing a round

  lemma {:induction false} NamesAtMost(queries: seq<string>)
    ensures |Names(queries)| <= |queries|
  {
    if queries == [] {
      assert Names(queries) == {};
    } else {
      var n := |queries| - 1;
      NamesAtMost(queries[..n]);
      assert Names(queries) == Names(queries[..n]) + {queries[n]};
    }
  }

  lemma SubsetOfSameSize<T>(a: set<T>, b: set<T>)
    requires a <= b && |a| >= |b|
    ensures a == b
  {
    assert b == a + (b - a);
    assert |b| == |a| + |b - a|;
    assert b - a == {};
  }

  /** Every query's pages are its whole chain, first page to last, each once. */
  predicate CompleteRound(queries: seq<string>, log: seq<Fetch>) {
    && (forall q :: q in queries ==> IsChain(ChainOf(log, q)) && Ended(ChainOf(log, q)))
    && forall i :: 0 <= i < |log| ==> log[i].name in queries
  }

  lemma {:induction false} LoggedIsInChain(log: seq<Fetch>, i: nat)
    requires i < |log|
    ensures ChainOf(log, log[i].name) != []
  {
    if i < |log| - 1 {
      LoggedIsInChain(log[..|log| - 1], i);
    }
  }

  lemma DoneIsComplete(s: Scan, queries: seq<string>, log: seq<Fetch>)
    requires Consistent(s, queries, log) && |s.completed| >= |Names(queries)|
    ensures CompleteRound(queries, log)
  {
    PruningChangesNothing(s, queries, log);
    SubsetOfSameSize(s.completed, Names(queries));
    forall q | q in queries ensures IsChain(ChainOf(log, q)) && Ended(ChainOf(log, q)) {
      assert OwnChain(s, queries, log, q);
    }
    forall i | 0 <= i < |log| ensures log[i].name in queries {
      LoggedIsInChain(log, i);
      assert OwnChain(s, queries, log, log[i].name);
    }
  }

  ghost predicate Faithful(j: Journal, queries: seq<string>) {
    && Consistent(j.scan, queries, j.log)
    && (forall k :: 0 <= k < |j.closed| ==> CompleteRound(queries, j.closed[k]))
    && j.scan.roundId == |j.closed| + 1
    && (j.closed != [] ==>
         j.scan.lastRoundPages == |j.closed[|j.closed| - 1]| && j.scan.lastRoundMarkets == Sizes(j.closed[|j.closed| - 1]))
  }

  lemma FreshRoundIsConsistent(s: Scan, queries: seq<string>)
    ensures Consistent(RoundFinished(s), queries, [])
  {
    forall name: string ensures OwnChain(RoundFinished(s), queries, [], name) {}
  }

  lemma ClosingIsFaithful(j: Journal, queries: seq<string>, s: Scan, log: seq<Fetch>)
    requires Faithful(j, queries) && Consistent(s, queries, log) && |s.completed| >= |Names(queries)|
    requires s.roundId == j.scan.roundId
    ensures Faithful(Journal(RoundFinished(s), [], j.closed + [log]), queries)
  {
    DoneIsComplete(s, queries, log);
    FreshRoundIsConsistent(s, queries);
  }

  lemma TickKeepsConsistency(s: Scan, queries: seq<string>, log: seq<Fetch>)
    requires Consistent(s, queries, log)
    ensures Consistent(TickStarted(s), queries, log)
  {
    forall name: string ensures OwnChain(TickStarted(s), queries, log, name) {
      assert OwnChain(s, queries, log, name);
    }
  }

  lemma AskingKeepsConsistency(s: Scan, queries: seq<string>, log: seq<Fetch>, index: nat)
    requires Consistent(s, queries, log) && index < |queries|
    ensures Consistent(Advanced(s, queries, index), queries, log)
  {
    forall name: string ensures OwnChain(Advanced(s, queries, index), queries, log, name) {
      assert OwnChain(s, queries, log, name);
    }
  }

  lemma WritingIsFaithful(j: Journal, queries: seq<string>, op: ScanOp)
    requires Faithful(j, queries)
    ensures Faithful(Write(j, queries, op), queries)
  {
    if op.TickStart? {
      TickKeepsConsistency(j.scan, queries, j.log);
    } else {
      PruningChangesNothing(j.scan, queries, j.log);
      var chosen := Chosen(j.scan, queries);
      if chosen.None? {
        NothingChosenMeansDone(j.scan, queries);
        ClosingIsFaithful(j, queries, j.scan, j.log);
      } else {
        AskingKeepsConsistency(j.scan, queries, j.log, chosen.value);
        if op.reply.Fetched() {
          RecordingIsFaithful(j, queries, chosen.value, op.reply);
        }
      }
    }
  }

  lemma RecordingIsFaithful(j: Journal, queries: seq<string>, index: nat, reply: Reply)
    requires Faithful(j, queries) && index < |queries| && queries[index] !in j.scan.completed && reply.Fetched()
    requires Pruned(j.scan, queries) == j.scan && Chosen(j.scan, queries) == Some(index)
    ensures Faithful(Write(j, queries, AskNext(reply)), queries)
  {
    var asked := Advanced(j.scan, queries, index);
    var recorded := Recorded(asked, queries[index], reply.size, reply.next);
    var log := j.log + [FetchOf(asked, queries[index], reply)];
    RecordingKeepsConsistency(j.scan, queries, j.log, index, reply);
    if reply.Page? && RoundDone(recorded, |queries|) {
      NamesAtMost(queries);
      ClosingIsFaithful(j, queries, recorded, log);
      assert Write(j, queries, AskNext(reply)) == Journal(RoundFinished(recorded), [], j.closed + [log]);
    } else {
      assert Write(j, queries, AskNext(reply)) == Journal(recorded, log, j.closed);
    }
  }

  /** The search for the next query misses none: it finds nothing only when all are completed. */
  lemma {:induction false} PickMissesNone(queries: seq<string>, completed: set<string>, start: nat, n: nat, k: nat)
    requires start < |queries| && k < n <= |queries| && PickFrom(queries, completed, start, n).None?
    ensures queries[(if start + k < |queries| then start + k else start + k - |queries|)] in completed
    decreases n
  {
    if k > 0 {
      PickMissesNone(queries, completed, After(start, |queries|), n - 1, k - 1);
    }
  }

  lemma NothingChosenMeansDone(s: Scan, queries: seq<string>)
    requires Chosen(s, queries).None?
    ensures |s.completed| >= |Names(queries)|
  {
    if queries == [] {
      assert Names(queries) == {};
    } else if |s.completed| < |Names(queries)| {
      var start := Start(s, queries);
      forall q | q in Names(queries) ensures q in s.completed {
        var i :| 0 <= i < |queries| && queries[i] == q;
        var k := if i >= start then i - start else i + |queries| - start;
        PickMissesNone(queries, s.completed, start, |queries|, k);
      }
      SubsetsAreSmaller(Names(queries), s.completed);
    }
  }

  lemma SubsetsAreSmaller<T>(a: set<T>, b: set<T>)
    requires a <= b
    ensures |a| <= |b|
  {
    assert b == (b - a) + a;
    assert |b| == |b - a| + |a|;
  }

  /**
   * In every round, however requests, ticks and failed fetches interleave, every query's
   * pages are exactly its cursor chain from the start; a round closes only when all chains
   * have ended; and the counters of the closed round are the pages and markets it saw.
   */
  lemma {:induction false} RoundsAreCompleteChains(queries: seq<string>, ops: seq<ScanOp>)
    ensures Faithful(Written(queries, ops), queries)
  {
    if ops == [] {
      forall name: string ensures OwnChain(FIRST_SCAN, queries, [], name) {}
    } else {
      RoundsAreCompleteChains(queries, ops[..|ops| - 1]);
      WritingIsFaithful(Written(queries, ops[..|ops| - 1]), queries, ops[|ops| - 1]);
    }
  }

  /** The journal follows the scan: it adds the log and changes nothing. */
  lemma {:induction false} JournalFollowsScan(queries: seq<string>, ops: seq<ScanOp>)
    ensures Written(queries, ops).scan == Performed(FIRST_SCAN, queries, ops)
  {
    if ops != [] {
      JournalFollowsScan(queries, ops[..|ops| - 1]);
    }
  }

  // ------------------------------------------------------------ pages of a round, by query

  predicate DistinctNames(names: seq<string>) {
    forall i, j :: 0 <= i < j < |names| ==> names[i] != names[j]
  }

  function ChainLengths(log: seq<Fetch>, names: seq<string>): nat {
    if names == [] then 0 else |ChainOf(log, names[0])| + ChainLengths(log, names[1..])
  }

  lemma {:induction false} OneMorePage(log: seq<Fetch>, f: Fetch, names: seq<string>)
    requires DistinctNames(names)
    ensures ChainLengths(log + [f], names) == ChainLengths(log, names) + (if f.name in names then 1 else 0)
  {
    if names != [] {
      ChainSnoc(log, f, names[0]);
      OneMorePage(log, f, names[1..]);
    }
  }

  /** A round takes as many pages as its queries' chains are long together. */
  lemma {:induction false} PagesAreChainLengths(log: seq<Fetch>, names: seq<string>)
    requires DistinctNames(names) && forall i :: 0 <= i < |log| ==> log[i].name in names
    ensures ChainLengths(log, names) == |log|
  {
    if log == [] {
      NoPagesNoLengths(names);
    } else {
      var n := |log| - 1;
      PagesAreChainLengths(log[..n], names);
      OneMorePage(log[..n], log[n], names);
      assert log[..n] + [log[n]] == log;
    }
  }

  lemma {:induction false} NoPagesNoLengths(names: seq<string>)
    ensures ChainLengths([], names) == 0
  {
    if names != [] {
      NoPagesNoLengths(names[1..]);
    }
  }
}
