/** The sliding window that bounds automatic restarts of one session. */
module RestartBudget {
  import opened Prelude

  /** `recent` in `handleCrash`: the remembered crash times that still lie in the window. */
  function Recent(times: seq<int>, now: int, window: int): (r: seq<int>)
    ensures |r| <= |times|
  {
    if times == [] then []
    else (if now - times[0] < window then [times[0]] else []) + Recent(times[1..], now, window)
  }

  /** What is remembered after the crashes `times`: old times are dropped at every crash. */
  function Remembered(times: seq<int>, window: int): seq<int>
    decreases |times|
  {
    if times == [] then []
    else
      var now := times[|times| - 1];
      Recent(Remembered(times[..|times| - 1], window), now, window) + [now]
  }

  /** Whether crash `k` schedules a restart. */
  predicate Scheduled(times: seq<int>, k: nat, window: int, maxAutoRestarts: nat)
    requires k < |times|
  {
    |Remembered(times[..k + 1], window)| <= maxAutoRestarts
  }

  predicate Monotone(times: seq<int>) { forall i, j :: 0 <= i <= j < |times| ==> times[i] <= times[j] }


  lemma {:induction false} RecentConcat(a: seq<int>, b: seq<int>, now: int, window: int)
    ensures Recent(a + b, now, window) == Recent(a, now, window) + Recent(b, now, window)
  {
    if a == [] {
      assert a + b == b;
    } else {
      RecentConcat(a[1..], b, now, window);
      assert (a + b)[1..] == a[1..] + b && (a + b)[0] == a[0];
      var first := if now - a[0] < window then [a[0]] else [];
      assert first + (Recent(a[1..], now, window) + Recent(b, now, window))
          == (first + Recent(a[1..], now, window)) + Recent(b, now, window);
    }
  }

  /** What is too old for an earlier crash is too old for a later one. */
  lemma {:induction false} RecentTwice(times: seq<int>, earlier: int, now: int, window: int)
    requires earlier <= now
    ensures Recent(Recent(times, earlier, window), now, window) == Recent(times, now, window)
  {
    if times != [] {
      RecentTwice(times[1..], earlier, now, window);
      RecentConcat(if earlier - times[0] < window then [times[0]] else [],
                   Recent(times[1..], earlier, window), now, window);
    }
  }

  /** Forgetting old crash times loses nothing: with a monotone clock the list after a crash holds exactly
      the crashes, among all that ever happened, that lie in the window ending now. */
  lemma {:induction false} RememberedIsRecent(times: seq<int>, window: int)
    requires Monotone(times) && 0 < |times| && 0 < window
    ensures Remembered(times, window) == Recent(times, times[|times| - 1], window)
    decreases |times|
  {
    var last := |times| - 1;
    var now := times[last];
    assert times == times[..last] + [now];
    RecentConcat(times[..last], [now], now, window);
    assert Recent([now], now, window) == [now];
    if last > 0 {
      var before := times[..last];
      RememberedIsRecent(before, window);
      assert before[last - 1] == times[last - 1] <= times[last];
      RecentTwice(before, before[last - 1], now, window);
    }
  }

  lemma {:induction false} RecentOfYoung(times: seq<int>, now: int, window: int)
    requires forall i :: 0 <= i < |times| ==> now - times[i] < window
    ensures Recent(times, now, window) == times
  {
    if times != [] { RecentOfYoung(times[1..], now, window); }
  }

  lemma {:induction false} RecentOfOld(times: seq<int>, now: int, window: int)
    requires forall i :: 0 <= i < |times| ==> now - times[i] >= window
    ensures Recent(times, now, window) == []
  {
    if times != [] { RecentOfOld(times[1..], now, window); }
  }

  lemma RecentSplits(times: seq<int>, i: nat, now: int, window: int)
    requires i <= |times|
    requires forall x :: 0 <= x < i ==> now - times[x] >= window
    requires forall x :: i <= x < |times| ==> now - times[x] < window
    ensures Recent(times, now, window) == times[i..]
  {
    hide Recent;
    assert times == times[..i] + times[i..];
    RecentConcat(times[..i], times[i..], now, window);
    RecentOfOld(times[..i], now, window);
    RecentOfYoung(times[i..], now, window);
  }

  /** The crashes that lie in the window ending with the last one, when the window begins at `i`. */
  lemma WindowIs(times: seq<int>, i: nat, window: int)
    requires Monotone(times) && 0 < window && i < |times|
    requires times[|times| - 1] - times[i] < window && (i > 0 ==> times[|times| - 1] - times[i - 1] >= window)
    ensures Recent(times, times[|times| - 1], window) == times[i..]
  {
    hide Recent;
    RecentSplits(times, i, times[|times| - 1], window);
  }

  /** The exact condition for a restart: no more than `maxAutoRestarts` crashes, this one included, happened
      in the window that ends with it; `i` is where that window begins. */
  lemma ScheduledIff(times: seq<int>, i: nat, k: nat, window: int, maxAutoRestarts: nat)
    requires Monotone(times) && 0 < window && i <= k < |times|
    requires times[k] - times[i] < window && (i > 0 ==> times[k] - times[i - 1] >= window)
    ensures Scheduled(times, k, window, maxAutoRestarts) <==> k - i + 1 <= maxAutoRestarts
  {
    hide Remembered, Recent;
    var upTo := times[..k + 1];
    RememberedIsRecent(upTo, window);
    WindowIs(upTo, i, window);
  }

  /** The restarts scheduled by the crashes from `i` up to, not including, `j`. */
  function Restarts(times: seq<int>, i: nat, j: nat, window: int, maxAutoRestarts: nat): nat
    requires i <= j <= |times|
  {
    if i == j then 0
    else
      Restarts(times, i, j - 1, window, maxAutoRestarts) +
      if Scheduled(times, j - 1, window, maxAutoRestarts) then 1 else 0
  }

  lemma {:induction false} RestartsBelowCrashes(times: seq<int>, i: nat, j: nat, window: int, maxAutoRestarts: nat)
    requires i <= j <= |times|
    ensures Restarts(times, i, j, window, maxAutoRestarts) <= j - i
  {
    if i < j { RestartsBelowCrashes(times, i, j - 1, window, maxAutoRestarts); }
  }

  /** Any span of crashes shorter than the window schedules at most `maxAutoRestarts` restarts. */
  lemma {:induction false} RestartsPerWindow(times: seq<int>, i: nat, j: nat, window: int, maxAutoRestarts: nat)
    requires Monotone(times) && 0 < window && i <= j <= |times|
    requires i < j ==> times[j - 1] - times[i] < window
    ensures Restarts(times, i, j, window, maxAutoRestarts) <= maxAutoRestarts
  {
    if i < j {
      assert times[j - 2 + 1] == times[j - 1];
      if i < j - 1 { assert times[j - 2] <= times[j - 1]; }
      if Scheduled(times, j - 1, window, maxAutoRestarts) {
        // all crashes of the span are remembered, so there are few of them
        var upTo := times[..j];
        RememberedIsRecent(upTo, window);
        assert upTo == times[..i] + times[i..j];
        RecentConcat(times[..i], times[i..j], times[j - 1], window);
        RecentOfYoung(times[i..j], times[j - 1], window);
        RestartsBelowCrashes(times, i, j, window, maxAutoRestarts);
      } else {
        RestartsPerWindow(times, i, j - 1, window, maxAutoRestarts);
      }
    }
  }
}
