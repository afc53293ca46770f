/** Stock datatypes and the few facts about sums and sequences that several modules share. */
module Prelude {

  datatype Option<+T> = None | Some(value: T)

  datatype Result<+T, +E> = Ok(value: T) | Err(error: E)

  function Max(a: int, b: int): int { if a < b then b else a }

  lemma Singleton<T>(s: set<T>, x: T)
    requires x in s && |s| == 1
    ensures s == {x}
  {
    assert |s - {x}| == 0;
  }

  lemma CardinalityWithout<T>(s: set<T>, x: T)
    ensures |s - {x}| == |s| - if x in s then 1 else 0
  {
    if x !in s { assert s - {x} == s; }
  }

  /** Sum of all values of a finite map. */
  ghost function Sum<K>(m: map<K, nat>): nat
    decreases |m|
  {
    if m == map[] then 0
    else
      var k :| k in m;
      m[k] + Sum(m - {k})
  }

  lemma SumEmpty<K>()
    ensures Sum<K>(map[]) == 0
  {
  }

  lemma {:induction false} SumRemove<K>(m: map<K, nat>, k: K)
    requires k in m
    ensures Sum(m) == m[k] + Sum(m - {k})
    decreases |m|
  {
    var j :| j in m && Sum(m) == m[j] + Sum(m - {j});
    if j != k {
      SumRemove(m - {j}, k);
      SumRemove(m - {k}, j);
      assert m - {j} - {k} == m - {k} - {j};
    }
  }

  lemma SumInsert<K>(m: map<K, nat>, k: K, v: nat)
    requires k !in m
    ensures Sum(m[k := v]) == Sum(m) + v
    ensures |m[k := v]| == |m| + 1
  {
    SumRemove(m[k := v], k);
    assert m[k := v] - {k} == m;
    assert m[k := v].Keys == m.Keys + {k};
  }

  lemma SumDelete<K>(m: map<K, nat>, k: K)
    requires k in m
    ensures Sum(m - {k}) == Sum(m) - m[k]
    ensures |m - {k}| == |m| - 1
  {
    SumRemove(m, k);
    assert (m - {k}).Keys == m.Keys - {k};
  }
}
