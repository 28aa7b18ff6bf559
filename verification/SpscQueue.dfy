/**
 The bounded queues that link the threads of both programs. A push onto a full
 queue is refused, and every caller in the repository ignores the refusal, so a
 push is a total function that may drop its element.
 */
module SpscQueue {
  import opened Wrappers
  import opened Sequences

  const CAPACITY: nat := 1024

  predicate Full<T>(q: seq<T>) {
    |q| >= CAPACITY
  }

  function Push<T>(q: seq<T>, x: T): seq<T> {
    if Full(q) then q else q + [x]
  }

  /** Several pushes with no pop in between. */
  function PushAll<T>(q: seq<T>, xs: seq<T>): seq<T> {
    if xs == [] then q else Push(PushAll(q, xs[..|xs| - 1]), xs[|xs| - 1])
  }

  /** A burst of pushes keeps exactly the prefix that fits. */
  lemma {:induction false} BurstKeepsThePrefixThatFits<T>(q: seq<T>, xs: seq<T>)
    requires |q| <= 1024
    ensures PushAll(q, xs) == if |q| + |xs| <= 1024 then q + xs else (q + xs)[..1024]
  {
    if xs == [] {
      assert q + xs == q;
    } else {
      var init := xs[..|xs| - 1];
      BurstKeepsThePrefixThatFits(q, init);
      assert q + xs == (q + init) + [xs[|xs| - 1]];
      if |q| + |init| > CAPACITY {
        assert (q + xs)[..CAPACITY] == (q + init)[..CAPACITY];
      } else if |q| + |init| == CAPACITY {
        assert (q + xs)[..CAPACITY] == q + init;
      }
    }
  }

  lemma {:induction false} PushAllAppends<T>(q: seq<T>, xs: seq<T>, ys: seq<T>)
    ensures PushAll(q, xs + ys) == PushAll(PushAll(q, xs), ys)
  {
    if ys == [] {
      assert xs + ys == xs;
    } else {
      assert (xs + ys)[..|xs + ys| - 1] == xs + ys[..|ys| - 1];
      PushAllAppends(q, xs, ys[..|ys| - 1]);
    }
  }

  /** What was popped and what is queued stays an ordered part of what arrived, whether the push is refused or not. */
  lemma ArrivalKeepsOrder<M>(taken: seq<M>, inbox: seq<M>, arrived: seq<M>, m: M)
    requires Sub(taken + inbox, arrived)
    ensures Sub(taken + Push(inbox, m), arrived + [m])
  {
    if Full(inbox) {
      SubAppendRight(taken + inbox, arrived, m);
    } else {
      SubAppendBoth(taken + inbox, arrived, m);
      assert taken + (inbox + [m]) == (taken + inbox) + [m];
    }
  }

  lemma {:induction false} ArrivalsKeepOrder<M>(taken: seq<M>, inbox: seq<M>, arrived: seq<M>, ms: seq<M>)
    requires Sub(taken + inbox, arrived)
    ensures Sub(taken + PushAll(inbox, ms), arrived + ms)
  {
    if ms == [] {
      assert arrived + ms == arrived;
    } else {
      var init, last := ms[..|ms| - 1], ms[|ms| - 1];
      ArrivalsKeepOrder(taken, inbox, arrived, init);
      ArrivalKeepsOrder(taken, PushAll(inbox, init), arrived + init, last);
      assert arrived + init + [last] == arrived + ms;
    }
  }

  // ---------- a loop beside another thread ----------

  /** One poll: what it popped and what is left. */
  function Poll<T>(read: seq<T>, q: seq<T>): (seq<T>, seq<T>) {
    if q == [] then (read, q) else (read + [q[0]], q[1..])
  }

  /** A consumer that polls once in each pass, after the pushes of the other thread: after n passes, what it popped and what is left. */
  function Served<T>(q: seq<T>, arrivals: seq<seq<T>>, n: nat): (seq<T>, seq<T>)
    requires n <= |arrivals|
  {
    if n == 0 then ([], q)
    else
      var (read, rest) := Served(q, arrivals, n - 1);
      Poll(read, PushAll(rest, arrivals[n - 1]))
  }

  lemma PollMovesOne<T>(read: seq<T>, q: seq<T>)
    ensures Poll(read, q).0 + Poll(read, q).1 == read + q
  {
    if q != [] {
      assert read + [q[0]] + q[1..] == read + q;
    }
  }

  /** Whatever arrives when: the consumer reads in order, each element at most once, and only what arrived. */
  lemma {:induction false} ServedKeepsOrder<T>(q: seq<T>, arrivals: seq<seq<T>>, n: nat)
    requires n <= |arrivals|
    ensures Sub(Served(q, arrivals, n).0 + Served(q, arrivals, n).1, q + Concat(arrivals[..n]))
  {
    if n == 0 {
      SubRefl(q);
      assert [] + q == q && q + [] == q;
    } else {
      var (read, rest) := Served(q, arrivals, n - 1);
      ServedKeepsOrder(q, arrivals, n - 1);
      ArrivalsKeepOrder(read, rest, q + Concat(arrivals[..n - 1]), arrivals[n - 1]);
      ConcatPrefix(arrivals, n);
      assert q + Concat(arrivals[..n - 1]) + arrivals[n - 1] == q + Concat(arrivals[..n]);
      PollMovesOne(read, PushAll(rest, arrivals[n - 1]));
    }
  }

  function PushSome<T>(q: seq<T>, x: Option<T>): seq<T> {
    match x case None => q case Some(y) => Push(q, y)
  }

  /** After n pops, as far as there is anything to pop. */
  function After<T>(q: seq<T>, n: nat): seq<T> {
    if n <= |q| then q[n..] else []
  }

  /** A producer that may push once in each pass, after so many pops of the other thread. */
  function Relayed<T>(q: seq<T>, pushed: seq<Option<T>>, takes: seq<nat>): seq<T>
    requires |pushed| <= |takes|
  {
    if pushed == [] then q
    else
      var n := |pushed| - 1;
      PushSome(After(Relayed(q, pushed[..n], takes), takes[n]), pushed[n])
  }

  lemma {:induction false} RelayedOneMore<T>(q: seq<T>, pushed: seq<Option<T>>, x: Option<T>, takes: seq<nat>)
    requires |pushed| < |takes|
    ensures Relayed(q, pushed + [x], takes) == PushSome(After(Relayed(q, pushed, takes), takes[|pushed|]), x)
  {
    var longer := pushed + [x];
    assert longer[..|pushed|] == pushed && longer[|pushed|] == x;
  }

  function Somes<T>(pushed: seq<Option<T>>): seq<T> {
    if pushed == [] then []
    else
      Somes(pushed[..|pushed| - 1]) + match pushed[|pushed| - 1] case None => [] case Some(x) => [x]
  }

  lemma {:induction false} SomesAfter<T>(before: seq<T>, pushed: seq<Option<T>>, x: Option<T>)
    ensures before + Somes(pushed + [x]) == (before + Somes(pushed)) + if x.Some? then [x.value] else []
  {
    assert (pushed + [x])[..|pushed|] == pushed;
  }

  /** With nothing taken and room for all, everything pushed is queued, in order. */
  lemma {:induction false} RelayedWithRoom<T>(q: seq<T>, pushed: seq<Option<T>>, takes: seq<nat>)
    requires |pushed| <= |takes|
    ensures (forall k :: 0 <= k < |takes| ==> takes[k] == 0) && |q| + |pushed| <= 1024
      ==> Relayed(q, pushed, takes) == q + Somes(pushed)
    ensures |Somes(pushed)| <= |pushed|
  {
    if pushed != [] {
      RelayedWithRoom(q, pushed[..|pushed| - 1], takes);
    }
  }

  /** A consumer takes the oldest elements, one in each pass while there are any. */
  lemma {:induction false} ServedTakesTheHead<T>(q: seq<T>, arrivals: seq<seq<T>>, n: nat)
    requires n <= |arrivals| && n <= |q| <= 1024
    ensures Served(q, arrivals, n).0 == q[..n]
    ensures q[n..] <= Served(q, arrivals, n).1 && |Served(q, arrivals, n).1| <= 1024
  {
    if n > 0 {
      ServedTakesTheHead(q, arrivals, n - 1);
      var rest := Served(q, arrivals, n - 1).1;
      BurstKeepsThePrefixThatFits(rest, arrivals[n - 1]);
      assert q[n - 1..][0] == q[n - 1] && q[n - 1..][1..] == q[n..];
    }
  }

  lemma {:induction false} RoomForOneMore<T>(read: seq<T>, rest: seq<T>, more: seq<T>, all: seq<T>)
    requires read + rest == all && |all| + |more| <= 1024
    ensures Poll(read, PushAll(rest, more)).0 + Poll(read, PushAll(rest, more)).1 == all + more
  {
    BurstKeepsThePrefixThatFits(rest, more);
    PollMovesOne(read, rest + more);
    assert read + (rest + more) == (read + rest) + more;
  }

  /** With room for everything, nothing is lost: read and left over are what there was and what arrived. */
  lemma {:induction false} ServedWithRoom<T>(q: seq<T>, arrivals: seq<seq<T>>, n: nat)
    requires n <= |arrivals| && |q| + |Concat(arrivals[..n])| <= 1024
    ensures Served(q, arrivals, n).0 + Served(q, arrivals, n).1 == q + Concat(arrivals[..n])
  {
    if n > 0 {
      var all := q + Concat(arrivals[..n - 1]);
      ConcatPrefix(arrivals, n);
      ServedWithRoom(q, arrivals, n - 1);
      RoomForOneMore(Served(q, arrivals, n - 1).0, Served(q, arrivals, n - 1).1, arrivals[n - 1], all);
      assert q + (Concat(arrivals[..n - 1]) + arrivals[n - 1]) == all + arrivals[n - 1];
    }
  }
}
