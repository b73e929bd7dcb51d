/** Round-robin: between two turns of one query, every other unfinished query has exactly one. */
module DiscoveryTurns {
  import opened Wrappers
  import opened Discovery

  /** Steps from `p` to `x`, counting forward and wrapping around at `n`. */
  function Dist(p: nat, x: nat, n: nat): nat
    requires p < n && x < n
  {
    if x >= p then x - p else x + n - p
  }

  lemma {:induction false} PickIsNearest(queries: seq<string>, completed: set<string>, start: nat, m: nat, x: nat)
    requires start < |queries| && x < |queries| && m <= |queries|
    requires PickFrom(queries, completed, start, m).Some? && queries[x] !in completed
    ensures Dist(start, PickFrom(queries, completed, start, m).value, |queries|) <= Dist(start, x, |queries|)
    decreases m
  {
    if queries[start] in completed {
      PickIsNearest(queries, completed, After(start, |queries|), m - 1, x);
      var c := PickFrom(queries, completed, start, m).value;
      assert c != start && x != start;
    }
  }

  /** The indices served over some operations, in order. */
  function Turns(s: Scan, queries: seq<string>, ops: seq<ScanOp>): seq<nat> {
    if ops == [] then []
    else
      var front := ops[..|ops| - 1];
      var chosen := Chosen(Pruned(Performed(s, queries, front), queries), queries);
      Turns(s, queries, front) + (if ops[|ops| - 1].AskNext? && chosen.Some? then [chosen.value] else [])
  }

  function Occurrences(turns: seq<nat>, x: nat): nat {
    if turns == [] then 0
    else Occurrences(turns[..|turns| - 1], x) + (if turns[|turns| - 1] == x then 1 else 0)
  }

  predicate Unfinished(s: Scan, queries: seq<string>, x: nat) {
    x < |queries| && queries[x] !in s.completed
  }

  lemma StepStaysInRound(s: Scan, queries: seq<string>, op: ScanOp)
    ensures Perform(s, queries, op).roundId >= s.roundId
    ensures Perform(s, queries, op).roundId == s.roundId && op.AskNext? ==>
      Chosen(Pruned(s, queries), queries).Some?
      && Perform(s, queries, op).nextQueryIndex == After(Chosen(Pruned(s, queries), queries).value, |queries|)
    ensures op.TickStart? ==> Perform(s, queries, op).nextQueryIndex == s.nextQueryIndex
    ensures Perform(s, queries, op).roundId == s.roundId ==>
      forall x :: Unfinished(Perform(s, queries, op), queries, x) ==> Unfinished(s, queries, x)
  {}

  lemma {:induction false} RoundOnlyGrows(s: Scan, queries: seq<string>, ops: seq<ScanOp>)
    ensures Performed(s, queries, ops).roundId >= s.roundId
  {
    if ops != [] {
      RoundOnlyGrows(s, queries, ops[..|ops| - 1]);
      StepStaysInRound(Performed(s, queries, ops[..|ops| - 1]), queries, ops[|ops| - 1]);
    }
  }

  lemma OccurrencesSnoc(turns: seq<nat>, last: nat, x: nat)
    ensures Occurrences(turns + [last], x) == Occurrences(turns, x) + (if last == x then 1 else 0)
  {
    assert (turns + [last])[..|turns|] == turns;
  }

  /** Where the turns have got to, and which of the two queries comes first from there. */
  predicate Balance(t: Scan, queries: seq<string>, turns: seq<nat>, a: nat, b: nat)
    requires a < |queries| && b < |queries|
  {
    t.nextQueryIndex < |queries|
    && var toA, toB := Dist(t.nextQueryIndex, a, |queries|), Dist(t.nextQueryIndex, b, |queries|);
    if toB < toA then Occurrences(turns, b) == 0 else toA < toB && Occurrences(turns, b) == 1
  }

  /** The chosen query is the nearest unfinished one. */
  lemma ChosenIsNearest(t: Scan, queries: seq<string>, c: nat, x: nat)
    requires t.nextQueryIndex < |queries| && Unfinished(t, queries, x)
    requires Chosen(Pruned(t, queries), queries) == Some(c)
    ensures Dist(t.nextQueryIndex, c, |queries|) <= Dist(t.nextQueryIndex, x, |queries|)
  {
    var p := Pruned(t, queries);
    SmallModulo(t.nextQueryIndex, |queries|);
    PickIsNearest(queries, p.completed, t.nextQueryIndex, |queries|, x);
  }

  lemma SmallModulo(i: nat, n: nat)
    requires i < n
    ensures i % n == i
  {}

  /** Passing `c` brings everyone behind it nearer by the same steps, and `c` itself to the end. */
  lemma DistAfter(p: nat, c: nat, x: nat, n: nat)
    requires p < n && c < n && x < n && Dist(p, c, n) <= Dist(p, x, n)
    ensures Dist(After(c, n), x, n) == if x == c then n - 1 else Dist(p, x, n) - Dist(p, c, n) - 1
  {}

  /** One more turn, of a query other than `a`, keeps the balance. */
  lemma TurnKeepsBalance(t: Scan, queries: seq<string>, turns: seq<nat>, a: nat, b: nat, c: nat)
    requires a < |queries| && b < |queries| && a != b && Balance(t, queries, turns, a, b)
    requires Chosen(Pruned(t, queries), queries) == Some(c) && c != a
    requires Unfinished(t, queries, a) && Unfinished(t, queries, b)
    ensures Balance(t.(nextQueryIndex := After(c, |queries|)), queries, turns + [c], a, b)
  {
    ChosenIsNearest(t, queries, c, a);
    ChosenIsNearest(t, queries, c, b);
    DistAfter(t.nextQueryIndex, c, a, |queries|);
    DistAfter(t.nextQueryIndex, c, b, |queries|);
    OccurrencesSnoc(turns, c, b);
  }

  /** After a turn of `a`, everyone else comes before `a` again. */
  lemma FirstTurnBalances(s: Scan, queries: seq<string>, a: nat, b: nat)
    requires a < |queries| && b < |queries| && a != b
    ensures Balance(s.(nextQueryIndex := After(a, |queries|)), queries, [a], a, b)
  {
    OccurrencesSnoc([], a, b);
    assert [] + [a] == [a];
  }

  predicate OneTurnOf(turns: seq<nat>, a: nat) {
    turns != [] && turns[0] == a && forall i :: 1 <= i < |turns| ==> turns[i] != a
  }

  lemma {:induction false} BalanceIsKept(s: Scan, queries: seq<string>, ops: seq<ScanOp>, a: nat, b: nat)
    requires a != b && Performed(s, queries, ops).roundId == s.roundId
    requires Unfinished(Performed(s, queries, ops), queries, a) && Unfinished(Performed(s, queries, ops), queries, b)
    requires Turns(s, queries, ops) != [] ==> OneTurnOf(Turns(s, queries, ops), a)
    ensures Turns(s, queries, ops) != [] ==> Balance(Performed(s, queries, ops), queries, Turns(s, queries, ops), a, b)
  {
    if ops != [] {
      var front, op := ops[..|ops| - 1], ops[|ops| - 1];
      var t := Performed(s, queries, front);
      RoundOnlyGrows(s, queries, front);
      StepStaysInRound(t, queries, op);
      var before := Turns(s, queries, front);
      assert before != [] ==> OneTurnOf(before, a) by {
        assert Turns(s, queries, ops)[..|before|] == before;
      }
      BalanceIsKept(s, queries, front, a, b);
      if op.AskNext? {
        var c := Chosen(Pruned(t, queries), queries).value;
        assert Turns(s, queries, ops) == before + [c];
        if before == [] {
          FirstTurnBalances(t, queries, a, b);
          assert [] + [c] == [c];
        } else {
          assert Turns(s, queries, ops)[|before|] == c;
          TurnKeepsBalance(t, queries, before, a, b, c);
        }
      } else {
        assert Turns(s, queries, ops) == before;
      }
    }
  }

  /**
   * When query `a` is served and then, in the same round, served again for the next time,
   * every other query that is still unfinished was served exactly once in between,
   * however many fetches failed and wherever ticks began.
   */
  lemma OthersHaveExactlyOneTurn(s: Scan, queries: seq<string>, ops: seq<ScanOp>, a: nat, b: nat)
    requires OneTurnOf(Turns(s, queries, ops), a)
    ensures
      var t := Performed(s, queries, ops);
      t.roundId == s.roundId && Chosen(Pruned(t, queries), queries) == Some(a) && a != b && Unfinished(t, queries, b) ==>
        Occurrences(Turns(s, queries, ops), b) == 1
  {
    var t := Performed(s, queries, ops);
    if t.roundId == s.roundId && Chosen(Pruned(t, queries), queries) == Some(a) && a != b && Unfinished(t, queries, b) {
      BalanceIsKept(s, queries, ops, a, b);
      ChosenIsNearest(t, queries, a, b);
    }
  }
}
