/**
 The subscription events between the sessions and Redis. The queue between them
 holds 1024 events and a refused push is ignored, so agreement between the
 sessions and the Redis subscription is exact only up to refused events; the laws
 below say exactly how, over every run.
 */
module HubEvents {
  import opened Wrappers
  import opened SpscQueue
  import opened TopicIndex
  import opened HubSystem

  /** The Redis subscription after a sequence of events. */
  function Replay(events: seq<Event>, redis: set<Topic>): set<Topic> {
    if events == [] then redis else ApplyEvent(Replay(events[..|events| - 1], redis), events[|events| - 1])
  }

  /** SUBSCRIBE events minus UNSUBSCRIBE events. */
  function Balance(events: seq<Event>): int {
    if events == [] then 0 else Balance(events[..|events| - 1]) + Sign(events[|events| - 1])
  }

  /** The event finds the subscription as it would make it. */
  predicate Redundant(redis: set<Topic>, e: Event) {
    e.kind == Subscribe <==> e.topic in redis
  }

  /** Every event changes the subscription: SUBSCRIBE only what is absent, UNSUBSCRIBE only what is present. */
  predicate Coherent(events: seq<Event>, redis: set<Topic>) {
    events == [] ||
    (var init, last := events[..|events| - 1], events[|events| - 1];
     Coherent(init, redis) && !Redundant(Replay(init, redis), last))
  }

  /** Every event the queue ever accepted, in order. */
  function EventsSoFar(h: Hub): seq<Event> {
    h.trace.applied + h.ix.events
  }

  // ---------- sequences of events ----------

  lemma ExtendByOne(events: seq<Event>, e: Event, redis: set<Topic>)
    ensures Replay(events + [e], redis) == ApplyEvent(Replay(events, redis), e)
    ensures Balance(events + [e]) == Balance(events) + Sign(e)
    ensures Drift(events + [e]) == Drift(events) + if Redundant(Replay(events, {}), e) then Sign(e) else 0
    ensures Coherent(events + [e], redis) <==> Coherent(events, redis) && !Redundant(Replay(events, redis), e)
  {
    assert (events + [e])[..|events + [e]| - 1] == events;
  }

  lemma {:induction false} ReplayInTwoParts(a: seq<Event>, b: seq<Event>, redis: set<Topic>)
    ensures Replay(a + b, redis) == Replay(b, Replay(a, redis))
    ensures Coherent(a + b, redis) <==> Coherent(a, redis) && Coherent(b, Replay(a, redis))
    ensures Balance(a + b) == Balance(a) + Balance(b)
  {
    if b == [] {
      assert a + b == a;
    } else {
      var init, last := b[..|b| - 1], b[|b| - 1];
      assert (a + b)[..|a + b| - 1] == a + init;
      ReplayInTwoParts(a, init, redis);
    }
  }

  /** Redundant SUBSCRIBEs minus redundant UNSUBSCRIBEs. */
  function Drift(events: seq<Event>): int {
    if events == [] then 0
    else
      var init, last := events[..|events| - 1], events[|events| - 1];
      Drift(init) + if Redundant(Replay(init, {}), last) then Sign(last) else 0
  }

  /** The counter is the size of the subscription plus its drift, over every sequence of events. */
  lemma {:induction false} CounterDrifts(events: seq<Event>)
    ensures Balance(events) == |Replay(events, {})| + Drift(events)
  {
    if events != [] {
      var init, last := events[..|events| - 1], events[|events| - 1];
      CounterDrifts(init);
      var before, after := Replay(init, {}), Replay(events, {});
      match last.kind {
        case Subscribe =>
          if last.topic in before {
            assert after == before;
          } else {
            assert after == before + {last.topic};
          }
        case Unsubscribe =>
          if last.topic in before {
            assert before == after + {last.topic};
          } else {
            assert after == before;
          }
      }
    }
  }

  /** After each event the counter is the size of the subscription. */
  ghost predicate CountsRight(events: seq<Event>) {
    forall n :: 0 <= n <= |events| ==> RightAfter(events, n)
  }

  predicate RightAfter(events: seq<Event>, n: nat)
    requires n <= |events|
  {
    Balance(events[..n]) == |Replay(events[..n], {})|
  }

  lemma {:induction false} CountsRightLast(events: seq<Event>)
    requires events != []
    ensures CountsRight(events) <==> CountsRight(events[..|events| - 1]) && Balance(events) == |Replay(events, {})|
  {
    var init := events[..|events| - 1];
    assert events[..|events|] == events;
    forall n | 0 <= n <= |init|
      ensures RightAfter(init, n) <==> RightAfter(events, n)
    {
      assert init[..n] == events[..n];
    }
    assert CountsRight(events) ==> RightAfter(events, |events|);
  }

  /** The counter is right throughout exactly when no event is redundant. */
  lemma {:induction false} CountsRightWhenCoherent(events: seq<Event>)
    ensures CountsRight(events) <==> Coherent(events, {})
  {
    if events != [] {
      var init := events[..|events| - 1];
      CountsRightWhenCoherent(init);
      CountsRightLast(events);
      CounterDrifts(init);
      CounterDrifts(events);
      assert init[..|init|] == init && (CountsRight(init) ==> RightAfter(init, |init|));
    }
  }

  /** The events of one topic. */
  function Project(events: seq<Event>, t: Topic): seq<Event> {
    if events == [] then []
    else Project(events[..|events| - 1], t) + if events[|events| - 1].topic == t then [events[|events| - 1]] else []
  }

  /** SUBSCRIBE and UNSUBSCRIBE strictly alternate, and the first is the one that changes `present`. */
  ghost predicate Alternates(events: seq<Event>, present: bool) {
    forall i :: 0 <= i < |events| ==> (events[i].kind == Subscribe <==> (i % 2 == 0) == !present)
  }

  lemma ProjectLast(events: seq<Event>, t: Topic)
    requires events != []
    ensures var init, last := events[..|events| - 1], events[|events| - 1];
      Project(events, t) == if t == last.topic then Project(init, t) + [last] else Project(init, t)
  {
  }

  lemma AlternatesLast(events: seq<Event>, e: Event, present: bool)
    ensures Alternates(events + [e], present)
       <==> Alternates(events, present) && (e.kind == Subscribe <==> (|events| % 2 == 0) == !present)
  {
    assert (events + [e])[|events|] == e;
    if Alternates(events + [e], present) {
      assert forall i :: 0 <= i < |events| ==> (events + [e])[i] == events[i];
    }
  }

  /** If a topic's events alternate, their parity says whether the topic ends up subscribed. */
  lemma {:induction false} ParityDecidesPresence(events: seq<Event>, redis: set<Topic>, t: Topic)
    requires Alternates(Project(events, t), t in redis)
    ensures t in Replay(events, redis) <==> (t in redis) == (|Project(events, t)| % 2 == 0)
  {
    if events != [] {
      var init, last := events[..|events| - 1], events[|events| - 1];
      ProjectLast(events, t);
      AlternatesLast(Project(init, t), last, t in redis);
      ParityDecidesPresence(init, redis, t);
    }
  }

  /** Coherence is strict alternation topic by topic. */
  lemma {:induction false} CoherentMeansAlternating(events: seq<Event>, redis: set<Topic>)
    ensures Coherent(events, redis) <==> forall t :: Alternates(Project(events, t), t in redis)
  {
    if events != [] {
      var init, last := events[..|events| - 1], events[|events| - 1];
      CoherentMeansAlternating(init, redis);
      forall t
        ensures Alternates(Project(events, t), t in redis)
           <==> Alternates(Project(init, t), t in redis)
                && (t == last.topic ==> (last.kind == Subscribe <==> t !in Replay(init, redis)))
      {
        ProjectLast(events, t);
        AlternatesLast(Project(init, t), last, t in redis);
        if Alternates(Project(init, t), t in redis) {
          ParityDecidesPresence(init, redis, t);
        }
      }
      if forall t :: Alternates(Project(events, t), t in redis) {
        assert Alternates(Project(events, last.topic), last.topic in redis);
      }
    }
  }

  // ---------- the law over runs ----------

  /** Topic t is subscribed in Redis, once every accepted event is applied, iff it has sessions; skewed topics are the exceptions. */
  predicate ReplayAt(h: Hub, t: Topic)
    requires t in h.ix.members
  {
    t in Replay(EventsSoFar(h), {}) <==> (h.ix.members[t] != {}) != (t in h.trace.skew)
  }

  ghost predicate EventInv(h: Hub) {
    && |h.ix.events| <= CAPACITY
    && h.redis == Replay(h.trace.applied, {})
    && h.count == Balance(h.trace.applied)
    && (forall t :: t in h.ix.members ==> ReplayAt(h, t))
    && Replay(EventsSoFar(h), {}) + h.trace.skew <= h.ix.members.Keys
    && (Coherent(EventsSoFar(h), {}) <==> !h.trace.torn)
    && Drift(EventsSoFar(h)) == h.trace.surplus
    && (h.trace.lost == 0 ==> h.trace.skew == {} && !h.trace.torn)
  }

  /** Nothing the event laws speak of has changed. */
  predicate SameEvents(h: Hub, k: Hub) {
    && k.ix.members == h.ix.members && k.ix.events == h.ix.events
    && k.redis == h.redis && k.count == h.count
    && k.trace.(arrived := h.trace.arrived, missed := h.trace.missed, taken := h.trace.taken, log := h.trace.log) == h.trace
  }

  lemma SameEventsKeeps(h: Hub, k: Hub)
    requires EventInv(h) && SameEvents(h, k)
    ensures EventInv(k)
  {
    assert EventsSoFar(k) == EventsSoFar(h);
    forall t | t in k.ix.members
      ensures ReplayAt(k, t)
    {
      assert ReplayAt(h, t);
    }
  }

  lemma PopEventKeeps(h: Hub, k: Hub)
    requires EventInv(h) && Next(h, PopEvent) == Some(k)
    ensures EventInv(k)
  {
    var e := h.ix.events[0];
    assert EventsSoFar(k) == EventsSoFar(h) by {
      assert h.ix.events == [e] + h.ix.events[1..];
    }
    ExtendByOne(h.trace.applied, e, {});
    forall t | t in k.ix.members
      ensures ReplayAt(k, t)
    {
      assert ReplayAt(h, t);
    }
  }

  /** One critical section on a symbol, in each of its three outcomes. */
  lemma CommitQuietly(h: Hub, s: Sid, kind: MsgType, t: Topic, k: Hub)
    requires EventInv(h) && t in h.ix.members && !Edge(h.ix, kind, s, t)
    requires k.ix.members == Commit(h.ix, kind, s, t).members && k.ix.events == h.ix.events
    requires k.redis == h.redis && k.count == h.count && k.trace == h.trace
    ensures EventInv(k)
  {
    forall u | u in k.ix.members
      ensures ReplayAt(k, u)
    {
      assert ReplayAt(h, u);
    }
  }

  lemma CommitRefused(h: Hub, s: Sid, kind: MsgType, t: Topic, k: Hub)
    requires EventInv(h) && t in h.ix.members && Edge(h.ix, kind, s, t) && Full(h.ix.events)
    requires k.ix.members == Commit(h.ix, kind, s, t).members && k.ix.events == h.ix.events
    requires k.redis == h.redis && k.count == h.count && k.trace == NoteEvent(h.trace, h.ix, kind, s, t)
    ensures EventInv(k)
  {
    forall u | u in k.ix.members
      ensures ReplayAt(k, u)
    {
      assert ReplayAt(h, u);
    }
  }

  lemma CommitAccepted(h: Hub, s: Sid, kind: MsgType, t: Topic, k: Hub)
    requires EventInv(h) && t in h.ix.members && Edge(h.ix, kind, s, t) && !Full(h.ix.events)
    requires k.ix.members == Commit(h.ix, kind, s, t).members && k.ix.events == h.ix.events + [Event(kind, t)]
    requires k.redis == h.redis && k.count == h.count && k.trace == NoteEvent(h.trace, h.ix, kind, s, t)
    ensures EventInv(k)
  {
    var e := Event(kind, t);
    assert EventsSoFar(k) == EventsSoFar(h) + [e];
    ExtendByOne(EventsSoFar(h), e, {});
    AcceptedReplays(h, s, kind, t, k);
  }

  /** The event is redundant exactly if its topic is skewed; afterwards the topic is not. */
  lemma AcceptedReplays(h: Hub, s: Sid, kind: MsgType, t: Topic, k: Hub)
    requires t in h.ix.members && Edge(h.ix, kind, s, t) && forall u :: u in h.ix.members ==> ReplayAt(h, u)
    requires k.ix.members == Commit(h.ix, kind, s, t).members && k.trace.skew == h.trace.skew - {t}
    requires Replay(EventsSoFar(k), {}) == ApplyEvent(Replay(EventsSoFar(h), {}), Event(kind, t))
    ensures Redundant(Replay(EventsSoFar(h), {}), Event(kind, t)) <==> t in h.trace.skew
    ensures forall u :: u in k.ix.members ==> ReplayAt(k, u)
  {
    assert ReplayAt(h, t);
    forall u | u in k.ix.members
      ensures ReplayAt(k, u)
    {
      assert ReplayAt(h, u);
    }
  }

  lemma CommitKeepsEvents(h: Hub, s: Sid, k: Hub)
    requires EventInv(h) && CommitStep(h, s) == Some(k)
    ensures EventInv(k)
  {
    var task := h.sess[s].phase.task;
    var t := task.rest[0];
    if !Edge(h.ix, task.kind, s, t) {
      CommitQuietly(h, s, task.kind, t, k);
    } else if Full(h.ix.events) {
      CommitRefused(h, s, task.kind, t, k);
    } else {
      CommitAccepted(h, s, task.kind, t, k);
    }
  }

  lemma NextKeepsEvents(h: Hub, a: Action, k: Hub)
    requires EventInv(h) && Next(h, a) == Some(k)
    ensures EventInv(k)
  {
    match a {
      case CommitTopic(s) => CommitKeepsEvents(h, s, k);
      case PopEvent => PopEventKeeps(h, k);
      case _ =>
        OthersSameEvents(h, a, k);
        SameEventsKeeps(h, k);
    }
  }

  lemma OthersSameEvents(h: Hub, a: Action, k: Hub)
    requires Next(h, a) == Some(k) && !a.CommitTopic? && !a.PopEvent?
    ensures SameEvents(h, k)
  {
  }
}
