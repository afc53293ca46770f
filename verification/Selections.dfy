/** What a filter that keeps the order leaves of a list: all wanted items, nothing else, in their order. */
module Selections {

  /** `ix` says where in the list the items of `r` stand. */
  ghost predicate PicksAt<T>(list: seq<T>, wanted: T -> bool, ix: seq<nat>, r: seq<T>) {
    && |ix| == |r|
    && (forall k :: 0 <= k < |ix| ==> ix[k] < |list| && r[k] == list[ix[k]])
    && (forall j, k :: 0 <= j < k < |ix| ==> ix[j] < ix[k])
    && (forall i :: 0 <= i < |list| ==> (i in ix <==> wanted(list[i])))
  }

  ghost predicate Picks<T>(list: seq<T>, wanted: T -> bool, r: seq<T>) { exists ix :: PicksAt(list, wanted, ix, r) }

  /** `later` says the same for the list without its first item. */
  ghost predicate PicksRest<T>(list: seq<T>, wanted: T -> bool, later: seq<nat>, r: seq<T>) {
    && |later| == |r|
    && (forall k :: 0 <= k < |later| ==> 0 < later[k] < |list| && r[k] == list[later[k]])
    && (forall j, k :: 0 <= j < k < |later| ==> later[j] < later[k])
    && (forall i :: 0 < i < |list| ==> (i in later <==> wanted(list[i])))
  }

  lemma PicksNothing<T>(wanted: T -> bool)
    ensures Picks([], wanted, [])
  {
    assert PicksAt([], wanted, [], []);
  }

  /** One more item before the list. */
  lemma PicksMore<T>(list: seq<T>, wanted: T -> bool, r: seq<T>)
    requires list != [] && Picks(list[1..], wanted, r)
    ensures Picks(list, wanted, (if wanted(list[0]) then [list[0]] else []) + r)
  {
    hide PicksAt, PicksRest;
    var ix :| PicksAt(list[1..], wanted, ix, r);
    RestFromTail(list, wanted, ix, r);
    if wanted(list[0]) {
      PicksFirst(list, wanted, Shifted(ix), r);
    } else {
      assert [] + r == r;
      PicksSame(list, wanted, Shifted(ix), r);
    }
  }

  /** And one item less. */
  lemma PicksLess<T>(list: seq<T>, wanted: T -> bool, r: seq<T>)
    requires list != [] && Picks(list, wanted, r)
    ensures if wanted(list[0]) then r != [] && r[0] == list[0] && Picks(list[1..], wanted, r[1..])
      else Picks(list[1..], wanted, r)
  {
    hide PicksAt, PicksRest;
    var ix :| PicksAt(list, wanted, ix, r);
    if wanted(list[0]) {
      FirstIsFirst(list, wanted, ix, r);
      TailFromRest(list, wanted, ix[1..], r[1..]);
    } else {
      RestOnly(list, wanted, ix, r);
      TailFromRest(list, wanted, ix, r);
    }
  }

  /** A list has one selection only. */
  lemma {:induction false} PicksUnique<T>(list: seq<T>, wanted: T -> bool, a: seq<T>, b: seq<T>)
    requires Picks(list, wanted, a) && Picks(list, wanted, b)
    ensures a == b
    decreases |list|
  {
    if list == [] {
      PickedFrom(list, wanted, a);
      PickedFrom(list, wanted, b);
    } else {
      PicksLess(list, wanted, a);
      PicksLess(list, wanted, b);
      if wanted(list[0]) {
        PicksUnique(list[1..], wanted, a[1..], b[1..]);
        assert a == [a[0]] + a[1..] && b == [b[0]] + b[1..];
      } else {
        PicksUnique(list[1..], wanted, a, b);
      }
    }
  }

  lemma PickedFrom<T>(list: seq<T>, wanted: T -> bool, r: seq<T>)
    requires Picks(list, wanted, r)
    ensures list == [] ==> r == []
  {
    var ix :| PicksAt(list, wanted, ix, r);
    if r != [] { assert ix[0] < |list|; }
  }

  // ---------------------------------------------------------------- places

  function Shifted(ix: seq<nat>): (r: seq<nat>)
    ensures |r| == |ix| && forall k :: 0 <= k < |ix| ==> r[k] == ix[k] + 1
  {
    seq(|ix|, k requires 0 <= k < |ix| => ix[k] + 1)
  }

  lemma ShiftedHas(ix: seq<nat>, i: nat)
    ensures i in Shifted(ix) <==> i > 0 && i - 1 in ix
  {
    if i > 0 && i - 1 in ix {
      var k :| 0 <= k < |ix| && ix[k] == i - 1;
      assert Shifted(ix)[k] == i;
    }
  }

  lemma RestFromTail<T>(list: seq<T>, wanted: T -> bool, ix: seq<nat>, r: seq<T>)
    requires list != [] && PicksAt(list[1..], wanted, ix, r)
    ensures PicksRest(list, wanted, Shifted(ix), r)
  {
    hide Shifted;
    forall i | 0 < i < |list| ensures i in Shifted(ix) <==> wanted(list[i]) {
      ShiftedHas(ix, i);
      assert list[i] == list[1..][i - 1];
    }
  }

  lemma TailFromRest<T>(list: seq<T>, wanted: T -> bool, later: seq<nat>, r: seq<T>)
    requires list != [] && PicksRest(list, wanted, later, r)
    ensures Picks(list[1..], wanted, r)
  {
    var ix: seq<nat> := seq(|later|, k requires 0 <= k < |later| && later[k] > 0 => later[k] - 1);
    assert Shifted(ix) == later;
    forall i | 0 <= i < |list[1..]| ensures i in ix <==> wanted(list[1..][i]) {
      ShiftedHas(ix, i + 1);
      assert list[1..][i] == list[i + 1];
    }
    assert PicksAt(list[1..], wanted, ix, r);
  }

  lemma PicksFirst<T>(list: seq<T>, wanted: T -> bool, later: seq<nat>, r: seq<T>)
    requires list != [] && PicksRest(list, wanted, later, r) && wanted(list[0])
    ensures Picks(list, wanted, [list[0]] + r)
  {
    hide PicksRest;
    FirstPlaces(list, wanted, later, r);
    forall i | 0 <= i < |list| ensures i in [0] + later <==> wanted(list[i]) { FirstFound(list, wanted, later, r, i); }
    assert PicksAt(list, wanted, [0] + later, [list[0]] + r);
  }

  lemma FirstPlaces<T>(list: seq<T>, wanted: T -> bool, later: seq<nat>, r: seq<T>)
    requires list != [] && PicksRest(list, wanted, later, r)
    ensures var all, some := [0] + later, [list[0]] + r;
      && |all| == |some|
      && (forall k :: 0 <= k < |all| ==> all[k] < |list| && some[k] == list[all[k]])
      && (forall j, k :: 0 <= j < k < |all| ==> all[j] < all[k])
  {
  }

  lemma FirstFound<T>(list: seq<T>, wanted: T -> bool, later: seq<nat>, r: seq<T>, i: nat)
    requires i < |list| && PicksRest(list, wanted, later, r) && wanted(list[0])
    ensures i in [0] + later <==> wanted(list[i])
  {
    if i > 0 { assert i in [0] + later <==> i in later; }
  }

  lemma PicksSame<T>(list: seq<T>, wanted: T -> bool, later: seq<nat>, r: seq<T>)
    requires list != [] && PicksRest(list, wanted, later, r) && !wanted(list[0])
    ensures Picks(list, wanted, r)
  {
    assert 0 !in later;
    assert PicksAt(list, wanted, later, r);
  }

  lemma FirstIsFirst<T>(list: seq<T>, wanted: T -> bool, ix: seq<nat>, r: seq<T>)
    requires list != [] && PicksAt(list, wanted, ix, r) && wanted(list[0])
    ensures ix != [] && r != [] && ix[0] == 0 && r[0] == list[0] && PicksRest(list, wanted, ix[1..], r[1..])
  {
    assert 0 in ix;
    forall i | 0 < i < |list| ensures i in ix[1..] <==> wanted(list[i]) { assert i in ix <==> i in ix[1..]; }
  }

  lemma RestOnly<T>(list: seq<T>, wanted: T -> bool, ix: seq<nat>, r: seq<T>)
    requires list != [] && PicksAt(list, wanted, ix, r) && !wanted(list[0])
    ensures PicksRest(list, wanted, ix, r)
  {
    assert 0 !in ix;
  }
}
