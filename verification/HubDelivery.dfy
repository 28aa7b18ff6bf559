/**
 The way of a quote, activity by activity: what the subscriber, the publisher and a
 session's strand come to when left alone, from any reachable state, and that a
 message from Redis reaches the wire of a client that asked for its topic.
 */
module HubDelivery {
  import opened Wrappers
  import opened SpscQueue
  import opened TopicIndex
  import opened WriteQueue
  import opened HubSystem
  import opened HubIndex
  import opened HubEvents
  import opened HubFanout
  import opened HubRuns

  // ---------- the subscriber ----------

  function Pops(n: nat): seq<Action> {
    seq(n, _ => PopEvent)
  }

  /** The state once the subscriber has popped n events. */
  function Drained(h: Hub, n: nat): Hub
    requires n <= |h.ix.events|
  {
    var popped := h.ix.events[..n];
    h.(ix := h.ix.(events := h.ix.events[n..]), redis := Replay(popped, h.redis), count := h.count + Balance(popped),
       trace := h.trace.(applied := h.trace.applied + popped))
  }

  lemma DrainedOneMore(h: Hub, n: nat)
    requires n < |h.ix.events|
    ensures Next(Drained(h, n), PopEvent) == Some(Drained(h, n + 1))
  {
    var events := h.ix.events;
    assert events[..n + 1] == events[..n] + [events[n]];
    ExtendByOne(events[..n], events[n], h.redis);
    assert events[n..][1..] == events[n + 1..];
    assert h.trace.applied + events[..n] + [events[n]] == h.trace.applied + events[..n + 1];
  }

  lemma {:induction false} EventsDrain(h: Hub, n: nat)
    requires n <= |h.ix.events|
    ensures ExecFrom(h, Pops(n)) == Some(Drained(h, n))
  {
    if n == 0 {
      assert h.ix.events[..0] == [] && h.trace.applied + [] == h.trace.applied;
    } else {
      EventsDrain(h, n - 1);
      DrainedOneMore(h, n - 1);
      ExecStep(h, Pops(n - 1), PopEvent);
      assert Pops(n - 1) + [PopEvent] == Pops(n);
    }
  }

  /**
   From every reachable state the subscriber can catch up: with no event pending,
   Redis is subscribed to exactly the topics that have sessions, unless the last
   refused events left some topic in disagreement.
   */
  lemma SubscriberCatchesUp(domain: set<Topic>, actions: seq<Action>, h: Hub) returns (k: Hub)
    requires Exec(domain, actions) == Some(h)
    ensures ExecFrom(h, Pops(|h.ix.events|)) == Some(k) && k == Drained(h, |h.ix.events|) && k.ix.events == []
    ensures k.redis == Wanted(h) <==> h.trace.skew == {}
    ensures h.trace.lost == 0 ==> k.redis == Wanted(h) && k.count == |k.redis|
  {
    var n := |h.ix.events|;
    EventsDrain(h, n);
    k := Drained(h, n);
    assert h.ix.events[..n] == h.ix.events;
    SubscriptionFollowsSessions(domain, actions, h);
    EventsAlternate(domain, actions, h);
    ExecInTwoParts(Init(domain), actions, Pops(n), h);
    CounterIsSubscriptionSize(domain, actions + Pops(n), k);
  }

  // ---------- the publisher ----------

  /** Everything but the publisher's locals, the sessions and the history. */
  predicate SameElse(h: Hub, k: Hub) {
    k.(pub := h.pub, sess := h.sess, trace := h.trace) == h
  }

  /** An operation of the session is under way or its handler waits. */
  predicate Busy(me: Session) {
    me.phase.Accepting? || me.phase.Reading? || me.phase.Serving? || me.posted != [] || me.writer.outstanding != []
  }

  function Sent(me: Session, payload: Payload): Session {
    me.(posted := me.posted + [payload])
  }

  lemma LockOne(h: Hub) returns (k: Hub)
    requires h.pub.Fanning? && h.pub.pending != [] && h.pub.pending[0] in h.sess
    ensures Next(h, Lock) == Some(k) && k.sess == h.sess && SameElse(h, k)
    ensures var s, rest := h.pub.pending[0], h.pub.pending[1..];
      k.pub == if Busy(h.sess[s]) then Holding(h.pub.payload, s, rest) else Fanning(h.pub.payload, rest)
  {
    assert Busy(h.sess[h.pub.pending[0]]) <==> HasRef(h, h.pub.pending[0]);
    k := LockStep(h).value;
  }

  lemma PostOne(h: Hub) returns (k: Hub)
    requires h.pub.Holding? && h.pub.sid in h.sess
    ensures Next(h, Post) == Some(k) && SameElse(h, k)
    ensures k.pub == Fanning(h.pub.payload, h.pub.pending)
    ensures k.sess == h.sess[h.pub.sid := Sent(h.sess[h.pub.sid], h.pub.payload)]
  {
    k := PostStep(h).value;
  }

  /** Trying the first pending weak pointer. */
  lemma TryOne(h: Hub) returns (run: seq<Action>, k: Hub)
    requires h.pub.Fanning? && h.pub.pending != [] && h.pub.pending[0] in h.sess
    ensures ExecFrom(h, run) == Some(k) && SameElse(h, k)
    ensures var s := h.pub.pending[0];
      && k.pub == Fanning(h.pub.payload, h.pub.pending[1..])
      && k.sess == if Busy(h.sess[s]) then h.sess[s := Sent(h.sess[s], h.pub.payload)] else h.sess
  {
    var held := LockOne(h);
    run := [] + [Lock];
    OneStepMore(h, [], h, Lock, held);
    if Busy(h.sess[h.pub.pending[0]]) {
      k := PostOne(held);
      OneStepMore(h, run, held, Post, k);
      run := run + [Post];
    } else {
      k := held;
    }
  }

  /** Every pending session that is busy has the message posted once, nobody else has. */
  predicate FannedOut(h: Hub, k: Hub, payload: Payload, pending: seq<Sid>) {
    && k.sess.Keys == h.sess.Keys
    && forall r :: r in h.sess ==>
         k.sess[r] == if r in pending && Busy(h.sess[r]) then Sent(h.sess[r], payload) else h.sess[r]
  }

  lemma OneMoreFanned(h: Hub, m: Hub, k: Hub, payload: Payload, pending: seq<Sid>)
    requires pending != [] && NoRepeat(pending) && pending[0] in h.sess
    requires m.sess == if Busy(h.sess[pending[0]]) then h.sess[pending[0] := Sent(h.sess[pending[0]], payload)] else h.sess
    requires FannedOut(m, k, payload, pending[1..])
    ensures FannedOut(h, k, payload, pending)
  {
    assert pending == [pending[0]] + pending[1..];
    assert pending[0] !in pending[1..];
  }

  lemma {:induction false} FanOutAlone(h: Hub) returns (run: seq<Action>, k: Hub)
    requires h.pub.Fanning? && NoRepeat(h.pub.pending) && forall r :: r in h.pub.pending ==> r in h.sess
    ensures ExecFrom(h, run) == Some(k) && SameElse(h, k)
    ensures k.pub == Fanning(h.pub.payload, []) && FannedOut(h, k, h.pub.payload, h.pub.pending)
    decreases |h.pub.pending|
  {
    if h.pub.pending == [] {
      run, k := [], h;
    } else {
      var first, m := TryOne(h);
      var rest;
      rest, k := FanOutAlone(m);
      run := first + rest;
      ExecInTwoParts(h, first, rest, m);
      OneMoreFanned(h, m, k, h.pub.payload, h.pub.pending);
    }
  }

  /** Popping the message and taking the snapshot. */
  lemma SnapshotAlone(h: Hub) returns (run: seq<Action>, k: Hub)
    requires Through(h.pub) && h.inbox != [] && h.inbox[0].0 in h.ix.members
    ensures ExecFrom(h, run) == Some(k) && k.sess == h.sess && SameElse(h.(inbox := h.inbox[1..]), k)
    ensures k.pub.Fanning? && k.pub.payload == h.inbox[0].1 && Lists(k.pub.pending, h.ix.members[h.inbox[0].0])
  {
    var visit := SetsCanBeListed(h.ix.members[h.inbox[0].0]);
    var popped := Next(h, PopMessage).value;
    k := Next(popped, Snapshot(visit)).value;
    OneStepMore(h, [], h, PopMessage, popped);
    OneStepMore(h, [] + [PopMessage], popped, Snapshot(visit), k);
    run := [] + [PopMessage] + [Snapshot(visit)];
  }

  /**
   From every reachable state in which the publisher is ready and a message waits,
   it can get through the message: every member of its topic that is accepting,
   reading, serving, writing or has a handler posted has the message posted once,
   and no other session has.
   */
  lemma PublisherAlone(domain: set<Topic>, actions: seq<Action>, h: Hub) returns (run: seq<Action>, k: Hub)
    requires Exec(domain, actions) == Some(h) && Through(h.pub) && h.inbox != []
    ensures ExecFrom(h, run) == Some(k) && Through(k.pub) && SameElse(h.(inbox := h.inbox[1..]), k)
    ensures h.inbox[0].0 in h.ix.members && k.sess.Keys == h.sess.Keys
    ensures forall r :: r in h.sess ==>
      k.sess[r] == if r in h.ix.members[h.inbox[0].0] && Busy(h.sess[r]) then Sent(h.sess[r], h.inbox[0].1) else h.sess[r]
  {
    ReachableInv(domain, actions, h);
    run, k := MessageAlone(h);
  }

  lemma MessageAlone(h: Hub) returns (run: seq<Action>, k: Hub)
    requires IndexInv(h) && Through(h.pub) && h.inbox != [] && h.inbox[0].0 in h.ix.members
    ensures ExecFrom(h, run) == Some(k) && Through(k.pub) && SameElse(h.(inbox := h.inbox[1..]), k)
    ensures k.sess.Keys == h.sess.Keys
    ensures forall r :: r in h.sess ==>
      k.sess[r] == if r in h.ix.members[h.inbox[0].0] && Busy(h.sess[r]) then Sent(h.sess[r], h.inbox[0].1) else h.sess[r]
  {
    var first, m := SnapshotAlone(h);
    assert forall r :: r in m.pub.pending <==> r in Elements(m.pub.pending);
    var rest;
    rest, k := FanOutAlone(m);
    run := first + rest;
    ExecInTwoParts(h, first, rest, m);
  }

  // ---------- a session's strand ----------

  /** Only the session's own record is different. */
  predicate OnlySession(h: Hub, k: Hub, s: Sid) {
    s in h.sess && s in k.sess && k == h.(sess := h.sess[s := k.sess[s]])
  }

  lemma {:induction false} SendsAlone(h: Hub, s: Sid) returns (run: seq<Action>, k: Hub)
    requires s in h.sess && Sound(h.sess[s].writer) && h.sess[s].writer.failures == 0
    ensures ExecFrom(h, run) == Some(k) && OnlySession(h, k, s)
    ensures k.sess[s].posted == [] && Sound(k.sess[s].writer) && k.sess[s].writer.failures == 0
    ensures Stream(k.sess[s]) == Stream(h.sess[s]) && k.sess[s].phase == h.sess[s].phase
    decreases |h.sess[s].posted|
  {
    var me := h.sess[s];
    if me.posted == [] {
      run, k := [], h;
      assert h.sess[s := h.sess[s]] == h.sess;
    } else {
      var m := Next(h, RunSend(s)).value;
      CallKeepsSound(me.writer, Callback.Send(me.posted[0]));
      assert me.posted == [me.posted[0]] + me.posted[1..];
      assert Stream(m.sess[s]) == Stream(me);
      var rest;
      rest, k := SendsAlone(m, s);
      run := [RunSend(s)] + rest;
      OneThenMore(h, RunSend(s), m, rest);
      assert h.sess[s := k.sess[s]] == m.sess[s := k.sess[s]];
    }
  }

  lemma {:induction false} WritesAlone(h: Hub, s: Sid) returns (run: seq<Action>, k: Hub)
    requires s in h.sess && h.sess[s].posted == [] && Sound(h.sess[s].writer) && h.sess[s].writer.failures == 0
    ensures ExecFrom(h, run) == Some(k) && OnlySession(h, k, s)
    ensures k.sess[s].posted == [] && k.sess[s].writer.queue == [] && k.sess[s].writer.outstanding == []
    ensures k.sess[s].writer.written == Stream(h.sess[s]) && k.sess[s].phase == h.sess[s].phase
    decreases |h.sess[s].writer.queue|
  {
    var me := h.sess[s];
    if me.writer.queue == [] {
      run, k := [], h;
      assert h.sess[s := h.sess[s]] == h.sess;
    } else {
      var m := Next(h, RunWrite(s, true)).value;
      CallKeepsSound(me.writer, Callback.Written(true));
      assert Stream(m.sess[s]) == Stream(me);
      var rest;
      rest, k := WritesAlone(m, s);
      run := [RunWrite(s, true)] + rest;
      OneThenMore(h, RunWrite(s, true), m, rest);
      assert h.sess[s := k.sess[s]] == m.sess[s := k.sess[s]];
    }
  }

  /**
   From every reachable state a session whose writes have not failed can write out
   everything that was sent to it, in order.
   */
  lemma StrandAlone(domain: set<Topic>, actions: seq<Action>, h: Hub, s: Sid) returns (run: seq<Action>, k: Hub)
    requires Exec(domain, actions) == Some(h) && s in h.sess && h.sess[s].writer.failures == 0
    ensures ExecFrom(h, run) == Some(k) && OnlySession(h, k, s)
    ensures k.sess[s].writer.written == Stream(h.sess[s]) && k.sess[s].posted == [] && k.sess[s].writer.queue == []
  {
    ReachableInv(domain, actions, h);
    assert StreamAt(h, s);
    run, k := StrandFrom(h, s);
  }

  lemma StrandFrom(h: Hub, s: Sid) returns (run: seq<Action>, k: Hub)
    requires s in h.sess && Sound(h.sess[s].writer) && h.sess[s].writer.failures == 0
    ensures ExecFrom(h, run) == Some(k) && OnlySession(h, k, s)
    ensures k.sess[s].writer.written == Stream(h.sess[s]) && k.sess[s].posted == [] && k.sess[s].writer.queue == []
  {
    var sends, m := SendsAlone(h, s);
    var writes;
    writes, k := WritesAlone(m, s);
    run := sends + writes;
    ExecInTwoParts(h, sends, writes, m);
    assert h.sess[s := k.sess[s]] == m.sess[s := k.sess[s]];
  }

  // ---------- from Redis to the wire ----------

  /**
   In every reachable state without refused events, a message that Redis has for a
   topic a reading client recorded can be delivered, published and written: the
   client's wire then carries everything it was sent before and this message.
   */
  lemma QuoteReachesTheClient(domain: set<Topic>, actions: seq<Action>, h: Hub, s: Sid, t: Topic, m: Payload)
    returns (run: seq<Action>, z: Hub)
    requires Exec(domain, actions) == Some(h) && h.trace.lost == 0 && Through(h.pub) && h.inbox == []
    requires InPhase(h, s, Reading) && h.sess[s].writer.failures == 0
    requires t in domain && s in h.ix.topics && t in h.ix.topics[s]
    ensures ExecFrom(h, run) == Some(z) && s in z.sess
    ensures z.sess[s].writer.written == Stream(h.sess[s]) + [m]
  {
    var consumed := ConsumeAlone(domain, actions, h, s, t, m);
    var delivery := Pops(|h.ix.events|) + [Consume(t, m)];
    ExecInTwoParts(Init(domain), actions, delivery, h);
    var publishing, posted := PublisherAlone(domain, actions + delivery, consumed);
    ExecInTwoParts(h, delivery, publishing, consumed);
    assert posted.sess[s] == Sent(h.sess[s], m);
    ExecInTwoParts(Init(domain), actions, delivery + publishing, h);
    var writing;
    writing, z := StrandAlone(domain, actions + (delivery + publishing), posted, s);
    run := delivery + publishing + writing;
    ExecInTwoParts(h, delivery + publishing, writing, posted);
    assert Stream(posted.sess[s]) == Stream(h.sess[s]) + [m];
  }

  /** The subscriber catches up and consumes the message. */
  lemma ConsumeAlone(domain: set<Topic>, actions: seq<Action>, h: Hub, s: Sid, t: Topic, m: Payload) returns (k: Hub)
    requires Exec(domain, actions) == Some(h) && h.trace.lost == 0 && h.inbox == []
    requires InPhase(h, s, Reading) && t in domain && s in h.ix.topics && t in h.ix.topics[s]
    ensures ExecFrom(h, Pops(|h.ix.events|) + [Consume(t, m)]) == Some(k)
    ensures k.sess == h.sess && k.pub == h.pub && k.inbox == [(t, m)]
    ensures t in k.ix.members && s in k.ix.members[t]
  {
    IndexIsTwoWay(domain, actions, h, s, t);
    var caught := SubscriberCatchesUp(domain, actions, h);
    assert t in Wanted(h);
    assert t in caught.redis && caught.count != 0;
    k := Next(caught, Consume(t, m)).value;
    ExecStep(h, Pops(|h.ix.events|), Consume(t, m));
    assert Push([], (t, m)) == [(t, m)];
  }
}
