/**
 * Insertion-ordered dictionaries. Assigning to a present key keeps its place, assigning
 * to an absent one appends, and removing closes the gap.
 */
module Dict {
  import opened Wrappers

  type Dict<!K(==), V> = seq<(K, V)>

  predicate Has<K(==), V>(d: Dict<K, V>, key: K) {
    exists i :: 0 <= i < |d| && d[i].0 == key
  }

  predicate DistinctKeys<K(==), V>(d: Dict<K, V>) {
    forall i, j :: 0 <= i < j < |d| ==> d[i].0 != d[j].0
  }

  function Get<K(==), V>(d: Dict<K, V>, key: K): Option<V> {
    if d == [] then None
    else if d[0].0 == key then Some(d[0].1)
    else Get(d[1..], key)
  }

  function Put<K(==), V>(d: Dict<K, V>, key: K, value: V): Dict<K, V> {
    if d == [] then [(key, value)]
    else if d[0].0 == key then [(key, value)] + d[1..]
    else [d[0]] + Put(d[1..], key, value)
  }

  function Pop<K(==), V>(d: Dict<K, V>, key: K): Dict<K, V> {
    if d == [] then []
    else if d[0].0 == key then d[1..]
    else [d[0]] + Pop(d[1..], key)
  }

  function Values<K(==), V>(d: Dict<K, V>): (vs: seq<V>)
    ensures |vs| == |d| && forall i :: 0 <= i < |d| ==> vs[i] == d[i].1
  {
    seq(|d|, i requires 0 <= i < |d| => d[i].1)
  }

  lemma GetHead<K, V>(head: (K, V), rest: Dict<K, V>, key: K)
    ensures Get([head] + rest, key) == if head.0 == key then Some(head.1) else Get(rest, key)
  {
    assert ([head] + rest)[1..] == rest;
  }

  lemma {:induction false} GetIsEntry<K, V>(d: Dict<K, V>, key: K)
    ensures Get(d, key).Some? ==> exists i :: 0 <= i < |d| && d[i] == (key, Get(d, key).value)
    ensures Get(d, key).None? ==> forall i :: 0 <= i < |d| ==> d[i].0 != key
  {
    if d != [] && d[0].0 != key {
      GetIsEntry(d[1..], key);
      if Get(d, key).Some? {
        var i :| 0 <= i < |d[1..]| && d[1..][i] == (key, Get(d, key).value);
        assert d[i + 1] == d[1..][i];
      }
    }
  }

  lemma {:induction false} EntryIsGot<K, V>(d: Dict<K, V>, i: nat)
    requires DistinctKeys(d) && i < |d|
    ensures Get(d, d[i].0) == Some(d[i].1)
  {
    if i > 0 {
      EntryIsGot(d[1..], i - 1);
    }
  }

  /** What a reader of the dictionary finds after an assignment. */
  lemma {:induction false} GetPut<K, V>(d: Dict<K, V>, key: K, value: V, k: K)
    ensures Get(Put(d, key, value), k) == if k == key then Some(value) else Get(d, k)
  {
    if d != [] && d[0].0 != key {
      GetPut(d[1..], key, value, k);
      assert Put(d, key, value)[1..] == Put(d[1..], key, value);
    }
  }

  lemma {:induction false} PutKeys<K, V>(d: Dict<K, V>, key: K, value: V)
    ensures forall k :: Has(Put(d, key, value), k) <==> k == key || Has(d, k)
  {
    forall k ensures Has(Put(d, key, value), k) <==> k == key || Has(d, k) {
      GetPut(d, key, value, k);
      HasIsGet(d, k);
      HasIsGet(Put(d, key, value), k);
    }
  }

  lemma HasIsGet<K, V>(d: Dict<K, V>, key: K)
    ensures Has(d, key) <==> Get(d, key).Some?
  {
    GetIsEntry(d, key);
  }

  lemma {:induction false} PutEntries<K, V>(d: Dict<K, V>, key: K, value: V)
    ensures forall e :: e in Put(d, key, value) ==> e in d || e == (key, value)
  {
    if d != [] && d[0].0 != key {
      PutEntries(d[1..], key, value);
    }
  }

  lemma {:induction false} PutDistinct<K, V>(d: Dict<K, V>, key: K, value: V)
    requires DistinctKeys(d)
    ensures DistinctKeys(Put(d, key, value))
  {
    if d != [] && d[0].0 != key {
      var rest := Put(d[1..], key, value);
      PutDistinct(d[1..], key, value);
      forall i | 0 <= i < |rest| ensures rest[i].0 != d[0].0 {
        PutKeys(d[1..], key, value);
        assert Has(rest, rest[i].0);
      }
    }
  }

  lemma {:induction false} PopKeys<K, V>(d: Dict<K, V>, key: K)
    ensures forall e :: e in Pop(d, key) ==> e in d
  {
    if d != [] && d[0].0 != key {
      PopKeys(d[1..], key);
    }
  }

  lemma {:induction false} PopDistinct<K, V>(d: Dict<K, V>, key: K)
    requires DistinctKeys(d)
    ensures DistinctKeys(Pop(d, key))
  {
    if d != [] && d[0].0 != key {
      var rest := Pop(d[1..], key);
      PopDistinct(d[1..], key);
      PopKeys(d[1..], key);
      forall i | 0 <= i < |rest| ensures rest[i].0 != d[0].0 {
        assert rest[i] in d[1..];
      }
    }
  }

  lemma {:induction false} GetPop<K, V>(d: Dict<K, V>, key: K, k: K)
    requires DistinctKeys(d)
    ensures Get(Pop(d, key), k) == if k == key then None else Get(d, k)
  {
    if d != [] {
      if d[0].0 == key {
        GetIsEntry(d[1..], key);
      } else {
        GetPop(d[1..], key, k);
        assert Pop(d, key)[1..] == Pop(d[1..], key);
      }
    }
  }

  // ------------------------------------------------------------------------- sums

  /** The sum of a weight over the values. */
  function Total<K(==), V>(d: Dict<K, V>, weight: V -> real): real {
    if d == [] then 0.0 else weight(d[0].1) + Total(d[1..], weight)
  }

  function WeightAt<K(==), V>(d: Dict<K, V>, key: K, weight: V -> real): real {
    if Get(d, key).None? then 0.0 else weight(Get(d, key).value)
  }

  lemma {:induction false} TotalPut<K, V>(d: Dict<K, V>, key: K, value: V, weight: V -> real)
    ensures Total(Put(d, key, value), weight) == Total(d, weight) - WeightAt(d, key, weight) + weight(value)
  {
    if d != [] && d[0].0 != key {
      TotalPut(d[1..], key, value, weight);
      assert Put(d, key, value)[1..] == Put(d[1..], key, value);
    }
  }

  lemma {:induction false} TotalPop<K, V>(d: Dict<K, V>, key: K, weight: V -> real)
    ensures Total(Pop(d, key), weight) == Total(d, weight) - WeightAt(d, key, weight)
  {
    if d != [] && d[0].0 != key {
      TotalPop(d[1..], key, weight);
      assert Pop(d, key)[1..] == Pop(d[1..], key);
    }
  }

  lemma {:induction false} TotalNonNegative<K, V>(d: Dict<K, V>, weight: V -> real)
    requires forall i :: 0 <= i < |d| ==> weight(d[i].1) >= 0.0
    ensures Total(d, weight) >= 0.0
  {
    if d != [] {
      TotalNonNegative(d[1..], weight);
    }
  }

  /** With non-negative weights, one entry never weighs more than all of them. */
  lemma {:induction false} TotalAtLeast<K, V>(d: Dict<K, V>, key: K, weight: V -> real)
    requires forall i :: 0 <= i < |d| ==> weight(d[i].1) >= 0.0
    ensures WeightAt(d, key, weight) <= Total(d, weight)
  {
    TotalNonNegative(d, weight);
    if d != [] {
      TotalNonNegative(d[1..], weight);
      if d[0].0 != key {
        TotalAtLeast(d[1..], key, weight);
      }
    }
  }

  // ------------------------------------------------------------------ the assignments as loops

  /** The dictionary built by assigning each pair in turn. */
  function FromPairs<K(==), V>(pairs: seq<(K, V)>): Dict<K, V> {
    if pairs == [] then []
    else
      var last := pairs[|pairs| - 1];
      Put(FromPairs(pairs[..|pairs| - 1]), last.0, last.1)
  }

  method Filled<K(==), V>(pairs: seq<(K, V)>) returns (d: Dict<K, V>)
    ensures d == FromPairs(pairs)
  {
    d := [];
    for k := 0 to |pairs|
      invariant d == FromPairs(pairs[..k])
    {
      assert pairs[..k + 1][..k] == pairs[..k];
      d := Put(d, pairs[k].0, pairs[k].1);
    }
    assert pairs[..|pairs|] == pairs;
  }

  /** Of several pairs with one key the last one counts. */
  lemma {:induction false} LastPairCounts<K, V>(pairs: seq<(K, V)>, i: nat)
    requires i < |pairs| && forall j :: i < j < |pairs| ==> pairs[j].0 != pairs[i].0
    ensures Get(FromPairs(pairs), pairs[i].0) == Some(pairs[i].1)
  {
    var n := |pairs| - 1;
    GetPut(FromPairs(pairs[..n]), pairs[n].0, pairs[n].1, pairs[i].0);
    if i < n {
      assert pairs[..n][i] == pairs[i];
      LastPairCounts(pairs[..n], i);
    }
  }

  lemma {:induction false} AbsentFromPairs<K, V>(pairs: seq<(K, V)>, key: K)
    requires forall i :: 0 <= i < |pairs| ==> pairs[i].0 != key
    ensures Get(FromPairs(pairs), key).None?
  {
    if pairs != [] {
      var n := |pairs| - 1;
      AbsentFromPairs(pairs[..n], key);
      GetPut(FromPairs(pairs[..n]), pairs[n].0, pairs[n].1, key);
    }
  }

  lemma {:induction false} FromPairsDistinct<K, V>(pairs: seq<(K, V)>)
    ensures DistinctKeys(FromPairs(pairs))
  {
    if pairs != [] {
      var n := |pairs| - 1;
      FromPairsDistinct(pairs[..n]);
      PutDistinct(FromPairs(pairs[..n]), pairs[n].0, pairs[n].1);
    }
  }
}
