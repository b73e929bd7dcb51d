/**
 * Full market discovery: one scan over several queries, a page at a time, each query with
 * a cursor chain of its own, served round-robin. A tick makes a few requests and stops.
 */
module Discovery {
  import opened Wrappers
  import opened Dict

  const REQUEST_BUDGET_PER_TICK := 2
  const MARKET_BUDGET_PER_TICK := 1000

  datatype Scan = Scan(
    afterCursor: Option<string>,
    queryCursors: Dict<string, string>,
    completed: set<string>,
    nextQueryIndex: nat,
    roundId: nat,
    pagesInRound: nat,
    marketsInRound: nat,
    lastRoundPages: nat,
    lastRoundMarkets: nat,
    tickRequests: nat,
    tickMarkets: nat)

  const FIRST_SCAN := Scan(None, [], {}, 0, 1, 0, 0, 0, 0, 0, 0)

  /** What came of a request: a page, a page that could not be ingested, or nothing. */
  datatype Reply = Page(size: nat, next: Option<string>) | NotIngested(size: nat, next: Option<string>) | FetchFailed
  {
    predicate Fetched() { !FetchFailed? }
  }

  function Names(queries: seq<string>): set<string> { set q | q in queries }

  // -------------------------------------------------------------------- choosing a query

  /** The first query that is not completed, counting from `start` and wrapping around; `n` are left to try. */
  function PickFrom(queries: seq<string>, completed: set<string>, start: nat, n: nat): (r: Option<nat>)
    requires start < |queries|
    ensures r.Some? ==> r.value < |queries| && queries[r.value] !in completed
    decreases n
  {
    if n == 0 then None
    else if queries[start] !in completed then Some(start)
    else PickFrom(queries, completed, After(start, |queries|), n - 1)
  }

  function After(i: nat, n: nat): (j: nat)
    requires i < n
    ensures j < n
  {
    if i + 1 == n then 0 else i + 1
  }

  function KeepNamed(cursors: Dict<string, string>, names: set<string>): Dict<string, string> {
    if cursors == [] then []
    else
      var last := cursors[|cursors| - 1];
      KeepNamed(cursors[..|cursors| - 1], names) + (if last.0 in names then [last] else [])
  }

  function Pruned(s: Scan, queries: seq<string>): Scan {
    s.(queryCursors := KeepNamed(s.queryCursors, Names(queries)), completed := s.completed * Names(queries))
  }

  function Start(s: Scan, queries: seq<string>): nat
    requires queries != []
  {
    s.nextQueryIndex % |queries|
  }

  /** The index of the query to serve next; none when all are completed. */
  function Chosen(s: Scan, queries: seq<string>): (r: Option<nat>)
    ensures r.Some? ==> r.value < |queries| && queries[r.value] !in s.completed
  {
    if queries == [] || |s.completed| >= |Names(queries)| then None
    else PickFrom(queries, s.completed, Start(s, queries), |queries|)
  }

  function Advanced(s: Scan, queries: seq<string>, index: nat): Scan
    requires index < |queries|
  {
    s.(nextQueryIndex := After(index, |queries|), afterCursor := Get(s.queryCursors, queries[index]))
  }

  // --------------------------------------------------------------------- recording a page

  function FirstCursor(cursors: Dict<string, string>): Option<string> {
    if cursors == [] then None else Some(cursors[0].1)
  }

  function CursorsAfter(cursors: Dict<string, string>, name: string, next: Option<string>): Dict<string, string> {
    if next.None? then Pop(cursors, name) else Put(cursors, name, next.value)
  }

  /** What a recorded page leaves in `afterCursor`: its own cursor, or else whichever query's comes first. */
  function LeftCursor(cursors: Dict<string, string>, next: Option<string>): Option<string> {
    if next.Some? && next.value != "" then next else FirstCursor(cursors)
  }

  function Recorded(s: Scan, name: string, size: nat, next: Option<string>): Scan {
    var cursors := CursorsAfter(s.queryCursors, name, next);
    s.(queryCursors := cursors, completed := s.completed + (if next.None? then {name} else {}),
       afterCursor := LeftCursor(cursors, next),
       pagesInRound := s.pagesInRound + 1, marketsInRound := s.marketsInRound + size,
       tickRequests := s.tickRequests + 1, tickMarkets := s.tickMarkets + size)
  }

  predicate RoundDone(s: Scan, total: nat) {
    |s.completed| >= (if total < 1 then 1 else total)
  }

  function RoundFinished(s: Scan): Scan {
    s.(afterCursor := None, queryCursors := [], completed := {}, nextQueryIndex := 0,
       lastRoundPages := s.pagesInRound, lastRoundMarkets := s.marketsInRound,
       roundId := s.roundId + 1, pagesInRound := 0, marketsInRound := 0)
  }

  function TickStarted(s: Scan): Scan { s.(tickRequests := 0, tickMarkets := 0) }

  /** The cursor a request is sent with: the query's own, or else what is left in `afterCursor`. */
  function RequestCursor(s: Scan, name: string): Option<string> {
    var own := Get(s.queryCursors, name);
    if own.Some? && own.value != "" then own else s.afterCursor
  }

  /** One pass through the body of a tick's loop. */
  function Request(s: Scan, queries: seq<string>, reply: Reply): Scan {
    var p := Pruned(s, queries);
    var chosen := Chosen(p, queries);
    if chosen.None? then RoundFinished(p)
    else
      var asked := Advanced(p, queries, chosen.value);
      if reply.FetchFailed? then asked
      else
        var recorded := Recorded(asked, queries[chosen.value], reply.size, reply.next);
        if reply.Page? && RoundDone(recorded, |queries|) then RoundFinished(recorded) else recorded
  }

  datatype ScanOp = TickStart | AskNext(reply: Reply)

  function Perform(s: Scan, queries: seq<string>, op: ScanOp): Scan {
    if op.TickStart? then TickStarted(s) else Request(s, queries, op.reply)
  }

  function Performed(s: Scan, queries: seq<string>, ops: seq<ScanOp>): Scan {
    if ops == [] then s else Perform(Performed(s, queries, ops[..|ops| - 1]), queries, ops[|ops| - 1])
  }

  /** Each request of a tick was made with fewer than two requests behind it, and fewer than a thousand markets. */
  predicate WithinBudgets(s: Scan, queries: seq<string>, ops: seq<ScanOp>) {
    forall i :: 1 <= i < |ops| ==>
      Performed(s, queries, ops[..i]).tickRequests < 2 && Performed(s, queries, ops[..i]).tickMarkets < 1000
  }

  lemma OneMoreWithinBudgets(s: Scan, queries: seq<string>, ops: seq<ScanOp>, op: ScanOp)
    requires WithinBudgets(s, queries, ops)
    requires Performed(s, queries, ops).tickRequests < 2 && Performed(s, queries, ops).tickMarkets < 1000
    ensures WithinBudgets(s, queries, ops + [op])
  {
    forall i | 1 <= i <= |ops| ensures (ops + [op])[..i] == ops[..i] {}
    assert ops[..|ops|] == ops;
  }

  // ------------------------------------------------------------------------- in place

  class FullMarketDiscoveryState {
    var afterCursor: Option<string>
    var queryCursors: Dict<string, string>
    var completed: set<string>
    var nextQueryIndex: nat
    var roundId: nat
    var pagesInRound: nat
    var marketsInRound: nat
    var lastRoundPages: nat
    var lastRoundMarkets: nat
    var tickRequests: nat
    var tickMarkets: nat

    ghost function State(): Scan
      reads this
    {
      Scan(afterCursor, queryCursors, completed, nextQueryIndex, roundId, pagesInRound, marketsInRound,
           lastRoundPages, lastRoundMarkets, tickRequests, tickMarkets)
    }

    constructor ()
      ensures State() == FIRST_SCAN
      ensures nextQueryIndex == 0 && roundId == 1 && completed == {} && queryCursors == []
      ensures pagesInRound == marketsInRound == lastRoundPages == lastRoundMarkets == tickRequests == tickMarkets == 0
    {
      afterCursor, queryCursors, completed, nextQueryIndex, roundId := None, [], {}, 0, 1;
      pagesInRound, marketsInRound, lastRoundPages, lastRoundMarkets, tickRequests, tickMarkets := 0, 0, 0, 0, 0, 0;
    }

    method StartTick()
      modifies this
      ensures State() == TickStarted(old(State()))
      ensures tickRequests == 0 && tickMarkets == 0
    {
      tickRequests, tickMarkets := 0, 0;
    }

    method PruneCursors(names: set<string>)
      modifies this`queryCursors
      ensures queryCursors == KeepNamed(old(queryCursors), names)
    {
      var kept := [];
      for k := 0 to |queryCursors|
        invariant kept == KeepNamed(queryCursors[..k], names)
        invariant queryCursors == old(queryCursors)
      {
        assert queryCursors[..k + 1][..k] == queryCursors[..k];
        if queryCursors[k].0 in names {
          kept := kept + [queryCursors[k]];
        }
      }
      assert queryCursors[..|queryCursors|] == queryCursors;
      queryCursors := kept;
    }

    method PickQuery(queries: seq<string>) returns (index: Option<nat>)
      requires queries != []
      ensures index == PickFrom(queries, completed, Start(State(), queries), |queries|)
    {
      var at: nat := nextQueryIndex % |queries|;
      ghost var start := at;
      for offset := 0 to |queries|
        invariant at < |queries|
        invariant PickFrom(queries, completed, at, |queries| - offset) == PickFrom(queries, completed, start, |queries|)
      {
        if queries[at] !in completed {
          return Some(at);
        }
        at := After(at, |queries|);
      }
      return None;
    }

    method Prune(queries: seq<string>) returns (names: nat)
      modifies this`queryCursors, this`completed
      ensures queryCursors == KeepNamed(old(queryCursors), Names(queries))
      ensures completed == old(completed) * Names(queries) && names == |Names(queries)|
    {
      var wanted := Names(queries);
      PruneCursors(wanted);
      completed := completed * wanted;
      names := |wanted|;
    }

    method NextQuery(queries: seq<string>) returns (index: Option<nat>)
      modifies this
      ensures index == Chosen(Pruned(old(State()), queries), queries)
      ensures State() == if index.None? then Pruned(old(State()), queries)
                         else Advanced(Pruned(old(State()), queries), queries, index.value)
    {
      var names := Prune(queries);
      assert State() == Pruned(old(State()), queries);
      if queries == [] || |completed| >= names {
        return None;
      }
      index := PickQuery(queries);
      if index.None? {
        return;
      }
      nextQueryIndex := After(index.value, |queries|);
      afterCursor := Get(queryCursors, queries[index.value]);
    }

    method MoveCursor(name: string, next: Option<string>)
      modifies this`queryCursors, this`completed, this`afterCursor
      ensures queryCursors == CursorsAfter(old(queryCursors), name, next)
      ensures completed == old(completed) + (if next.None? then {name} else {})
      ensures afterCursor == LeftCursor(queryCursors, next)
    {
      if next.None? {
        queryCursors := Pop(queryCursors, name);
        completed := completed + {name};
      } else {
        queryCursors := Put(queryCursors, name, next.value);
      }
      if next.Some? && next.value != "" {
        afterCursor := next;
      } else if queryCursors != [] {
        afterCursor := Some(queryCursors[0].1);
      } else {
        afterCursor := None;
      }
    }

    method CountPage(size: nat)
      modifies this`pagesInRound, this`marketsInRound, this`tickRequests, this`tickMarkets
      ensures pagesInRound == old(pagesInRound) + 1 && marketsInRound == old(marketsInRound) + size
      ensures tickRequests == old(tickRequests) + 1 && tickMarkets == old(tickMarkets) + size
    {
      pagesInRound := pagesInRound + 1;
      marketsInRound := marketsInRound + size;
      tickRequests := tickRequests + 1;
      tickMarkets := tickMarkets + size;
    }

    method RecordPage(name: string, total: nat, size: nat, next: Option<string>) returns (done: bool)
      modifies this
      ensures State() == Recorded(old(State()), name, size, next)
      ensures done == RoundDone(State(), total)
      ensures tickRequests == old(tickRequests) + 1 && tickMarkets == old(tickMarkets) + size
      ensures pagesInRound == old(pagesInRound) + 1 && marketsInRound == old(marketsInRound) + size
    {
      ghost var s := State();
      CountPage(size);
      ghost var counted := s.(pagesInRound := s.pagesInRound + 1, marketsInRound := s.marketsInRound + size,
                              tickRequests := s.tickRequests + 1, tickMarkets := s.tickMarkets + size);
      assert State() == counted;
      MoveCursor(name, next);
      assert State() == counted.(queryCursors := queryCursors, completed := completed, afterCursor := afterCursor);
      done := |completed| >= (if total < 1 then 1 else total);
    }

    method FinishRound()
      modifies this
      ensures State() == RoundFinished(old(State()))
      ensures nextQueryIndex == 0 && completed == {} && queryCursors == [] && afterCursor.None?
      ensures lastRoundPages == old(pagesInRound) && lastRoundMarkets == old(marketsInRound)
      ensures pagesInRound == 0 && marketsInRound == 0 && roundId == old(roundId) + 1
    {
      afterCursor, queryCursors, completed, nextQueryIndex := None, [], {}, 0;
      lastRoundPages, lastRoundMarkets := pagesInRound, marketsInRound;
      roundId := roundId + 1;
      pagesInRound, marketsInRound := 0, 0;
    }

    /** One request; the tick goes on only after a page that neither failed nor closed the round. */
    method Ask(queries: seq<string>, reply: Reply) returns (goesOn: bool)
      modifies this
      ensures State() == Request(old(State()), queries, reply)
      ensures goesOn ==> tickRequests == old(tickRequests) + 1
      ensures tickRequests <= old(tickRequests) + 1
    {
      var chosen := NextQuery(queries);
      if chosen.None? {
        FinishRound();
        return false;
      }
      if reply.FetchFailed? {
        return false;
      }
      var done := RecordPage(queries[chosen.value], |queries|, reply.size, reply.next);
      if reply.NotIngested? {
        return false;
      }
      if done {
        FinishRound();
        return false;
      }
      return true;
    }

    /** A tick: requests until a budget, the clock, a failure or the end of the round stops it. */
    method Tick(queries: seq<string>, replies: nat -> Reply, expired: nat -> bool) returns (ghost ops: seq<ScanOp>)
      modifies this
      ensures State() == Performed(old(State()), queries, ops) && ops != [] && ops[0].TickStart?
      ensures forall i :: 1 <= i < |ops| ==> ops[i].AskNext?
      ensures WithinBudgets(old(State()), queries, ops) && tickRequests <= 2
    {
      ghost var before := State();
      StartTick();
      ops := [TickStart];
      assert ops[..0] == [];
      var k := 0;
      while tickRequests < REQUEST_BUDGET_PER_TICK && tickMarkets < MARKET_BUDGET_PER_TICK
        invariant State() == Performed(before, queries, ops) && ops != [] && ops[0].TickStart?
        invariant forall i :: 1 <= i < |ops| ==> ops[i].AskNext?
        invariant WithinBudgets(before, queries, ops) && tickRequests <= 2
        decreases REQUEST_BUDGET_PER_TICK - tickRequests
      {
        if expired(k) {
          return;
        }
        var goesOn := Ask(queries, replies(k));
        ghost var longer := ops + [AskNext(replies(k))];
        OneMoreWithinBudgets(before, queries, ops, AskNext(replies(k)));
        assert longer[..|ops|] == ops;
        ops := longer;
        if !goesOn {
          return;
        }
        k := k + 1;
      }
    }
  }
}
