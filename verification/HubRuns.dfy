/**
 What every run of the hub guarantees: the theorems of the quote hub, each over
 all interleavings of sessions, subscriber and publisher.
 */
module HubRuns {
  import opened Wrappers
  import opened SpscQueue
  import opened TopicIndex
  import opened HubSystem
  import opened Sequences
  import opened HubIndex
  import opened HubEvents
  import opened HubFanout

  ghost predicate Inv(h: Hub) {
    IndexInv(h) && EventInv(h) && OwnerInv(h) && StreamInv(h) && LogInv(h) && SettledInv(h) && InboxInv(h)
  }

  lemma InitInv(domain: set<Topic>)
    ensures Inv(Init(domain))
  {
    var h := Init(domain);
    assert EventsSoFar(h) == [];
  }

  lemma NextKeepsInv(h: Hub, a: Action, k: Hub)
    requires Inv(h) && Next(h, a) == Some(k)
    ensures Inv(k)
  {
    NextKeepsIndex(h, a, k);
    NextKeepsEvents(h, a, k);
    NextKeepsOwners(h, a, k);
    NextKeepsStreams(h, a, k);
    NextKeepsLog(h, a, k);
    NextKeepsSettled(h, a, k);
    NextKeepsInbox(h, a, k);
  }

  /** The history only watches: whatever it says, the same actions can happen and do the same. */
  lemma HistoryOnlyWatches(h: Hub, a: Action, tr: Trace)
    ensures Next(h, a).Some? <==> Next(h.(trace := tr), a).Some?
    ensures Next(h, a).Some? ==>
      Next(h.(trace := tr), a).value == Next(h, a).value.(trace := Next(h.(trace := tr), a).value.trace)
  {
    assert forall s :: s in h.sess ==> (HasRef(h.(trace := tr), s) <==> HasRef(h, s));
  }

  lemma NextKeepsDomain(h: Hub, a: Action, k: Hub)
    requires Next(h, a) == Some(k)
    ensures k.ix.members.Keys == h.ix.members.Keys
  {
  }

  lemma {:induction false} RunKeepsInv(h: Hub, actions: seq<Action>, k: Hub)
    requires Inv(h) && ExecFrom(h, actions) == Some(k)
    ensures Inv(k) && k.ix.members.Keys == h.ix.members.Keys
  {
    if actions != [] {
      var before := ExecFrom(h, actions[..|actions| - 1]).value;
      RunKeepsInv(h, actions[..|actions| - 1], before);
      NextKeepsInv(before, actions[|actions| - 1], k);
      NextKeepsDomain(before, actions[|actions| - 1], k);
    }
  }

  lemma ReachableInv(domain: set<Topic>, actions: seq<Action>, h: Hub)
    requires Exec(domain, actions) == Some(h)
    ensures Inv(h) && h.ix.members.Keys == domain
  {
    InitInv(domain);
    RunKeepsInv(Init(domain), actions, h);
  }

  // ---------- subscriptions ----------

  /** The topics some session is a member of. */
  function Wanted(h: Hub): set<Topic> {
    set t | t in h.ix.members && h.ix.members[t] != {}
  }

  /** The Redis subscription once the pending events are applied. */
  function Due(h: Hub): set<Topic> {
    Replay(h.ix.events, h.redis)
  }

  /**
   In every reachable state, refused pushes included: replaying the pending events
   over the Redis subscription yields exactly the topics that have sessions,
   except for the topics where an odd number of events was refused since the last
   accepted one.
   */
  lemma SubscriptionFollowsSessions(domain: set<Topic>, actions: seq<Action>, h: Hub)
    requires Exec(domain, actions) == Some(h)
    ensures forall t :: t in domain ==> (t in Due(h) <==> (t in Wanted(h)) != (t in h.trace.skew))
    ensures Due(h) == Wanted(h) <==> h.trace.skew == {}
    ensures h.trace.lost == 0 ==> Due(h) == Wanted(h)
  {
    ReachableInv(domain, actions, h);
    ReplayInTwoParts(h.trace.applied, h.ix.events, {});
    forall t | t in domain
      ensures t in Due(h) <==> (t in Wanted(h)) != (t in h.trace.skew)
    {
      assert ReplayAt(h, t);
    }
    if h.trace.skew != {} {
      var t :| t in h.trace.skew;
      assert t in domain;
    }
  }

  /**
   From a state in agreement, a critical section on a symbol breaks the agreement
   exactly when it crosses an edge and meets a full queue.
   */
  lemma OnlyARefusedPushBreaksAgreement(domain: set<Topic>, actions: seq<Action>, h: Hub, s: Sid, k: Hub)
    requires Exec(domain, actions) == Some(h) && Next(h, CommitTopic(s)) == Some(k)
    requires Due(h) == Wanted(h)
    ensures var task := h.sess[s].phase.task;
      Due(k) == Wanted(k) <==> !(Edge(h.ix, task.kind, s, task.rest[0]) && Full(h.ix.events))
  {
    SubscriptionFollowsSessions(domain, actions, h);
    var longer := actions + [CommitTopic(s)];
    assert longer[..|longer| - 1] == actions;
    SubscriptionFollowsSessions(domain, longer, k);
  }

  /**
   Topic by topic, the accepted events strictly alternate beginning with
   SUBSCRIBE exactly when no event was accepted for a skewed topic; the pending
   ones then alternate beginning with the kind that changes Redis.
   */
  lemma EventsAlternate(domain: set<Topic>, actions: seq<Action>, h: Hub)
    requires Exec(domain, actions) == Some(h)
    ensures (forall t :: Alternates(Project(EventsSoFar(h), t), false)) <==> !h.trace.torn
    ensures !h.trace.torn ==> forall t :: Alternates(Project(h.ix.events, t), t in h.redis)
    ensures h.trace.lost == 0 ==> !h.trace.torn
  {
    ReachableInv(domain, actions, h);
    CoherentMeansAlternating(EventsSoFar(h), {});
    ReplayInTwoParts(h.trace.applied, h.ix.events, {});
    CoherentMeansAlternating(h.ix.events, h.redis);
  }

  /**
   After each event so far, applied or pending, the counter is the size of the
   subscription, exactly when no event was ever accepted for a skewed topic. In
   any case it will be off by the SUBSCRIBEs less the UNSUBSCRIBEs so accepted
   once the pending events are applied, and is off by the redundant ones among
   those applied.
   */
  lemma CounterIsSubscriptionSize(domain: set<Topic>, actions: seq<Action>, h: Hub)
    requires Exec(domain, actions) == Some(h)
    ensures CountsRight(EventsSoFar(h)) <==> !h.trace.torn
    ensures h.count + Balance(h.ix.events) == |Due(h)| + h.trace.surplus
    ensures h.count == |h.redis| + Drift(h.trace.applied)
    ensures !h.trace.torn ==> h.count == |h.redis|
  {
    ReachableInv(domain, actions, h);
    CounterLaws(h);
  }

  lemma CounterLaws(h: Hub)
    requires EventInv(h)
    ensures CountsRight(EventsSoFar(h)) <==> !h.trace.torn
    ensures h.count + Balance(h.ix.events) == |Due(h)| + h.trace.surplus
    ensures h.count == |h.redis| + Drift(h.trace.applied)
    ensures !h.trace.torn ==> h.count == |h.redis|
  {
    CountsRightWhenCoherent(EventsSoFar(h));
    CounterDrifts(EventsSoFar(h));
    CounterDrifts(h.trace.applied);
    ReplayInTwoParts(h.trace.applied, h.ix.events, {});
    assert EventsSoFar(h)[..|h.trace.applied|] == h.trace.applied;
    assert CountsRight(EventsSoFar(h)) ==> RightAfter(EventsSoFar(h), |h.trace.applied|);
  }

  /**
   When consume can run. With nothing subscribed: exactly when the redundant events
   applied do not cancel, and with no event pending exactly when the surplus of
   events accepted for skewed topics is not zero. Without such events consume can
   run exactly when something is subscribed.
   */
  lemma ConsumeNeedsASubscription(domain: set<Topic>, actions: seq<Action>, h: Hub, t: Topic, m: Payload)
    requires Exec(domain, actions) == Some(h) && t in domain
    ensures !h.trace.torn ==> (Next(h, Consume(t, m)).Some? <==> h.redis != {})
    ensures h.redis == {} ==> (Next(h, Consume(t, m)).Some? <==> Drift(h.trace.applied) != 0)
    ensures h.redis == {} && h.ix.events == [] ==> (Next(h, Consume(t, m)).Some? <==> h.trace.surplus != 0)
  {
    CounterIsSubscriptionSize(domain, actions, h);
    ReachableInv(domain, actions, h);
    ConsumeWhenCounted(h, t, m);
  }

  lemma ConsumeWhenCounted(h: Hub, t: Topic, m: Payload)
    requires t in h.ix.members
    ensures Next(h, Consume(t, m)).Some? <==> h.count != 0
    ensures h.ix.events == [] ==> Due(h) == h.redis && Balance(h.ix.events) == 0
  {
  }

  // ---------- the two-way index ----------

  /** The topic between whose two critical sections a session stands. */
  function Midway(h: Hub, s: Sid): Option<Topic> {
    if Looping(h, s) && h.sess[s].phase.task.marked && h.sess[s].phase.task.rest != []
    then Some(h.sess[s].phase.task.rest[0]) else None
  }

  /**
   In every reachable state the index agrees in both directions, except for the
   one topic a session is midway through: there a subscribe may only have the
   session's own record ahead, an unsubscribe only the symbol's set lagging.
   */
  lemma IndexIsTwoWay(domain: set<Topic>, actions: seq<Action>, h: Hub, s: Sid, t: Topic)
    requires Exec(domain, actions) == Some(h) && s in h.sess && t in domain
    ensures s in h.ix.topics && t in h.ix.members
    ensures Midway(h, s) != Some(t) ==> (s in h.ix.members[t] <==> t in h.ix.topics[s])
    ensures Midway(h, s) == Some(t) ==> (t in h.ix.topics[s] <==> h.sess[s].phase.task.kind == Subscribe)
  {
    ReachableInv(domain, actions, h);
    assert LocalAt(h, s);
    var mine, joined := h.ix.topics[s], Joined(h.ix, s);
    assert t in joined <==> s in h.ix.members[t];
    if Midway(h, s).Some? && Midway(h, s) != Some(t) {
      var u := Midway(h, s).value;
      assert t in mine - {u} <==> t in joined - {u};
    }
  }

  /** One action: only an accepted handshake adds a connection, only the end of a destructor removes it. */
  lemma ConnectionsMove(h: Hub, a: Action, k: Hub, s: Sid)
    requires s in h.conns ==> !InPhase(h, s, Gone)
    requires Next(h, a) == Some(k)
    ensures s in k.conns <==> (s in h.conns || a == Action.Accepted(s)) && !InPhase(k, s, Gone)
  {
  }

  /** A session is among the connections exactly from its accepted handshake until its destructor ends. */
  lemma {:induction false} ConnectionsAreTheOpenSessions(domain: set<Topic>, actions: seq<Action>, h: Hub, s: Sid)
    requires Exec(domain, actions) == Some(h)
    ensures s in h.conns <==> Action.Accepted(s) in actions && !InPhase(h, s, Gone)
  {
    if actions != [] {
      var before := ExecFrom(Init(domain), actions[..|actions| - 1]).value;
      ConnectionsAreTheOpenSessions(domain, actions[..|actions| - 1], before, s);
      ConnectionsMove(before, actions[|actions| - 1], h, s);
      if InPhase(before, s, Gone) {
        GoneIsForever(before, actions[|actions| - 1], h, s);
      }
      assert actions == actions[..|actions| - 1] + [actions[|actions| - 1]];
    }
  }

  /** No topic loop is ever stuck: neither a missing symbol nor a missing record stops its next critical section. */
  lemma LoopsNeverStick(domain: set<Topic>, actions: seq<Action>, h: Hub, s: Sid)
    requires Exec(domain, actions) == Some(h) && Looping(h, s)
    ensures Next(h, MarkTopic(s)).Some? || Next(h, CommitTopic(s)).Some? || Next(h, Finish(s)).Some?
  {
    ReachableInv(domain, actions, h);
    LoopMoves(h, s);
  }

  lemma LoopMoves(h: Hub, s: Sid)
    requires IndexInv(h) && Looping(h, s)
    ensures Next(h, MarkTopic(s)).Some? || Next(h, CommitTopic(s)).Some? || Next(h, Finish(s)).Some?
  {
    var task := h.sess[s].phase.task;
    assert LocalAt(h, s);
    if task.rest == [] {
      assert FinishStep(h, s).Some?;
    } else if task.marked {
      assert CommitStep(h, s).Some?;
    } else {
      assert MarkStep(h, s).Some?;
    }
  }

  // ---------- departed sessions ----------

  lemma GoneIsForever(h: Hub, a: Action, k: Hub, s: Sid)
    requires Next(h, a) == Some(k) && InPhase(h, s, Gone)
    ensures InPhase(k, s, Gone)
    ensures |h.trace.log| <= |k.trace.log|
    ensures forall i :: 0 <= i < |h.trace.log| ==> k.trace.log[i].snapshot == h.trace.log[i].snapshot
    ensures forall i :: |h.trace.log| <= i < |k.trace.log| ==>
      exists t :: t in h.ix.members && k.trace.log[i].snapshot == h.ix.members[t]
  {
  }

  /** A freed session is listed nowhere. */
  lemma GoneIsUnlisted(h: Hub, s: Sid)
    requires IndexInv(h) && InPhase(h, s, Gone)
    ensures s !in h.conns && h.ix.topics[s] == {} && forall t :: t in h.ix.members ==> s !in h.ix.members[t]
  {
    assert LocalAt(h, s);
    forall t | t in h.ix.members
      ensures s !in h.ix.members[t]
    {
      assert t !in Joined(h.ix, s);
    }
  }

  /**
   After leave completes, in that state and in every continuation the session is
   in no symbol and not among the connections, and no snapshot taken since
   contains it.
   */
  lemma LeaveIsFinal(domain: set<Topic>, actions: seq<Action>, h: Hub, s: Sid, more: seq<Action>, k: Hub)
    requires Exec(domain, actions) == Some(h) && InPhase(h, s, Gone)
    requires ExecFrom(h, more) == Some(k)
    ensures InPhase(k, s, Gone)
    ensures s !in k.conns && forall t :: t in k.ix.members ==> s !in k.ix.members[t]
    ensures |h.trace.log| <= |k.trace.log|
    ensures forall i :: |h.trace.log| <= i < |k.trace.log| ==> s !in k.trace.log[i].snapshot
  {
    ReachableInv(domain, actions, h);
    RunKeepsInv(h, more, k);
    NoLaterSnapshot(h, s, more, k);
    GoneIsUnlisted(k, s);
  }

  lemma {:induction false} NoLaterSnapshot(h: Hub, s: Sid, more: seq<Action>, k: Hub)
    requires Inv(h) && InPhase(h, s, Gone) && ExecFrom(h, more) == Some(k)
    ensures InPhase(k, s, Gone)
    ensures |h.trace.log| <= |k.trace.log|
    ensures forall i :: |h.trace.log| <= i < |k.trace.log| ==> s !in k.trace.log[i].snapshot
  {
    if more != [] {
      var before := ExecFrom(h, more[..|more| - 1]).value;
      NoLaterSnapshot(h, s, more[..|more| - 1], before);
      RunKeepsInv(h, more[..|more| - 1], before);
      GoneIsUnlisted(before, s);
      GoneIsForever(before, more[|more| - 1], k, s);
    }
  }

  // ---------- fan-out ----------

  predicate IsPrefix<T(==)>(a: seq<T>, b: seq<T>) {
    |a| <= |b| && a == b[..|a|]
  }

  /**
   What a session has written, queued and had posted is exactly the payloads of
   the popped messages whose snapshot contained it and for which its weak pointer
   locked, each once and in pop order; the written part is a prefix. The message
   the publisher holds the session for, if any, is the only one not yet posted, and
   the payload the publisher works with is that of the message popped last.
   */
  lemma FanOutIsExact(domain: set<Topic>, actions: seq<Action>, h: Hub, s: Sid)
    requires Exec(domain, actions) == Some(h) && s in h.sess
    ensures Stream(h.sess[s]) + InHand(h, s) == Collect(h.trace.log, s)
    ensures IsPrefix(h.sess[s].writer.written, Collect(h.trace.log, s))
    ensures IsPrefix(Pairs(h.trace.log), h.trace.taken)
    ensures !h.pub.Polling? ==> h.trace.taken != [] && h.pub.payload == h.trace.taken[|h.trace.taken| - 1].1
    ensures forall i :: 0 <= i < |h.trace.log| ==> h.trace.log[i].locked <= h.trace.log[i].snapshot
  {
    ReachableInv(domain, actions, h);
    assert StreamAt(h, s);
  }

  /**
   Nobody who stayed is skipped: once the publisher is through a message, each
   session of its snapshot was sent it, or has stopped reading and has neither a
   handler posted nor a write outstanding.
   */
  lemma NobodyWhoStayedIsSkipped(domain: set<Topic>, actions: seq<Action>, h: Hub, i: nat, s: Sid)
    requires Exec(domain, actions) == Some(h)
    requires i < |h.trace.log| && s in h.trace.log[i].snapshot
    requires i == |h.trace.log| - 1 ==> !Awaited(h.pub, s)
    ensures s in h.sess
    ensures s !in h.trace.log[i].locked ==>
      var me := h.sess[s];
      && (me.phase.Quiet? || me.phase.Leaving? || me.phase.Gone?)
      && me.posted == [] && me.writer.outstanding == [] && (h.pub.Holding? ==> h.pub.sid != s)
  {
    ReachableInv(domain, actions, h);
    assert Settled(h, i, s);
  }

  /**
   What the publisher has popped and has yet to pop is what consume delivered, at
   strictly increasing positions `at`, so each at most once and in order; exactly as
   many messages are missing as the full queue refused.
   */
  lemma MessagesArriveInOrder(domain: set<Topic>, actions: seq<Action>, h: Hub) returns (at: seq<nat>)
    requires Exec(domain, actions) == Some(h)
    ensures Picks(at, h.trace.taken + h.inbox, h.trace.arrived)
    ensures |h.trace.taken| + |h.inbox| + h.trace.missed == |h.trace.arrived|
    ensures h.trace.missed == 0 ==> h.trace.taken + h.inbox == h.trace.arrived
  {
    ReachableInv(domain, actions, h);
    SubIsShorter(h.trace.taken + h.inbox, h.trace.arrived);
    at := SubPositions(h.trace.taken + h.inbox, h.trace.arrived);
  }

  /** A snapshot holds exactly the members of the popped message's topic at that moment, all of them in memory. */
  lemma SnapshotIsTheMembers(domain: set<Topic>, actions: seq<Action>, h: Hub, visit: seq<Sid>, k: Hub)
    requires Exec(domain, actions) == Some(h) && Next(h, Snapshot(visit)) == Some(k)
    ensures h.trace.taken != [] && |k.trace.log| == |h.trace.taken|
    ensures var d := k.trace.log[|k.trace.log| - 1];
      && (d.topic, d.payload) == h.trace.taken[|h.trace.taken| - 1]
      && d.snapshot == h.ix.members[d.topic]
      && forall s :: s in d.snapshot ==> s in h.sess && !h.sess[s].phase.Gone?
  {
    ReachableInv(domain, actions, h);
    forall s | s in h.ix.members[h.pub.topic]
      ensures s in h.sess && !h.sess[s].phase.Gone?
    {
      if InPhase(h, s, Gone) {
        GoneIsUnlisted(h, s);
      }
    }
  }

  /** Sessions write one message at a time, always the front of their queue. */
  lemma OneWriteAtATime(domain: set<Topic>, actions: seq<Action>, h: Hub, s: Sid)
    requires Exec(domain, actions) == Some(h) && s in h.sess
    ensures var w := h.sess[s].writer;
      |w.outstanding| <= 1 && (w.outstanding != [] ==> w.queue != [] && w.outstanding[0] == w.queue[0])
  {
    ReachableInv(domain, actions, h);
    assert StreamAt(h, s);
  }
}
