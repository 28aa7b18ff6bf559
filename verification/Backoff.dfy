/**
 The polling loop both programs use to wait on a queue: sleep 1, 2, 4, 8, 16, 32
 seconds after successive failed polls, then start over.
 */
module Backoff {
  import opened Wrappers

  const EXPONENTIAL_BACKOFF_LIMIT: nat := 5

  function Shift(n: nat): nat {
    if n == 0 then 1 else 2 * Shift(n - 1)
  }

  function Total(sleeps: seq<nat>): nat {
    if sleeps == [] then 0 else Total(sleeps[..|sleeps| - 1]) + sleeps[|sleeps| - 1]
  }

  /** The k-th failed poll is followed by this sleep. */
  function SleepAfter(k: nat): nat {
    Shift(k % (EXPONENTIAL_BACKOFF_LIMIT + 1))
  }

  /**
   `queues` is what the other thread has left in the queue at each of the polls
   followed here. The loop returns the head at the first poll that finds one, and
   the rest of that queue; None: it is still polling after all of them.
   */
  method GetMessageWithBackoff<T>(queues: seq<seq<T>>) returns (msg: Option<T>, rest: seq<T>, sleeps: seq<nat>)
    ensures msg.Some? ==> |sleeps| < |queues| && queues[|sleeps|] == [msg.value] + rest
    ensures msg.None? ==> |sleeps| == |queues|
    ensures forall k :: 0 <= k < |sleeps| ==> queues[k] == [] && sleeps[k] == SleepAfter(k)
  {
    var backoff := 0;
    sleeps := [];
    while |sleeps| < |queues|
      invariant |sleeps| <= |queues|
      invariant backoff == |sleeps| % (EXPONENTIAL_BACKOFF_LIMIT + 1)
      invariant forall k :: 0 <= k < |sleeps| ==> queues[k] == [] && sleeps[k] == SleepAfter(k)
      decreases |queues| - |sleeps|
    {
      var queue := queues[|sleeps|];
      if queue != [] {
        return Some(queue[0]), queue[1..], sleeps;
      } else {
        sleeps := sleeps + [Shift(backoff)];
        backoff := backoff + 1;
        if backoff > EXPONENTIAL_BACKOFF_LIMIT {
          backoff := 0;
        }
      }
    }
    return None, [], sleeps;
  }

  lemma EverySleepIsShort(k: nat)
    ensures 1 <= SleepAfter(k) <= 32
  {
    var r := k % 6;
    assert Shift(0) == 1 && Shift(1) == 2 && Shift(2) == 4 && Shift(3) == 8 && Shift(4) == 16 && Shift(5) == 32;
    assert r == 0 || r == 1 || r == 2 || r == 3 || r == 4 || r == 5;
  }

  /** The time spent waiting has a closed form in the number of failed polls. */
  lemma {:induction false} TotalWait(sleeps: seq<nat>)
    requires forall k :: 0 <= k < |sleeps| ==> sleeps[k] == SleepAfter(k)
    ensures Total(sleeps) == 63 * (|sleeps| / 6) + Shift(|sleeps| % 6) - 1
  {
    if sleeps != [] {
      var n := |sleeps| - 1;
      TotalWait(sleeps[..n]);
      if n % 6 == 5 {
        assert (n + 1) / 6 == n / 6 + 1 && (n + 1) % 6 == 0;
        assert Shift(5) == 32 && Shift(0) == 1 by {
          assert Shift(1) == 2 && Shift(2) == 4 && Shift(3) == 8 && Shift(4) == 16;
        }
      } else {
        assert (n + 1) / 6 == n / 6 && (n + 1) % 6 == n % 6 + 1;
      }
    }
  }
}
