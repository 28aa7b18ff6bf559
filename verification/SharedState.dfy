/**
 The hub's objects, each method run on its own: symbols and sessions that point
 at each other, the shared state that owns the index, the subscriber's loop and
 the publisher's fan-out. The methods are tied to the functions that HubSystem
 interleaves.
 */
module SharedStates {
  import opened SpscQueue
  import opened TopicIndex
  import opened WriteQueue
  import opened Tokens
  import HubSystem

  class Symbol {
    const code: Topic
    var sessions: set<WebsocketSession>

    constructor (code: Topic)
      ensures this.code == code && sessions == {}
    {
      this.code := code;
      sessions := {};
    }

    method Join(session: WebsocketSession)
      modifies this
      ensures sessions == old(sessions) + {session}
    {
      sessions := sessions + {session};
    }

    /** The number of sessions erased, which the caller tests. */
    method Leave(session: WebsocketSession) returns (erased: int)
      modifies this
      ensures sessions == old(sessions) - {session}
      ensures erased == if session in old(sessions) then 1 else 0
    {
      erased := if session in sessions then 1 else 0;
      sessions := sessions - {session};
    }
  }

  class WebsocketSession {
    var topics: set<Topic>
    var queue: seq<HubSystem.Payload>
    /** Handlers waiting on the session's strand. */
    var posted: seq<HubSystem.Payload>
    /** What the stream was asked to do. */
    ghost var outstanding: seq<HubSystem.Payload>
    ghost var written: seq<HubSystem.Payload>
    ghost var failures: nat

    constructor ()
      ensures topics == {} && posted == [] && View() == WriteQueue.Fresh()
    {
      topics, queue, posted := {}, [], [];
      outstanding, written, failures := [], [], 0;
    }

    ghost function View(): Writer<HubSystem.Payload>
      reads this
    {
      Writer(queue, outstanding, written, failures)
    }

    method Send(ss: HubSystem.Payload)
      modifies this`posted
      ensures posted == old(posted) + [ss]
    {
      posted := posted + [ss];
    }

    ghost method AsyncWrite(buffer: HubSystem.Payload)
      modifies this`outstanding
      ensures outstanding == old(outstanding) + [buffer]
    {
      outstanding := outstanding + [buffer];
    }

    method OnSend(ss: HubSystem.Payload)
      modifies this`queue, this`outstanding
      ensures View() == WriteQueue.OnSend(old(View()), ss)
    {
      queue := queue + [ss];
      if |queue| > 1 {
        return;
      }
      AsyncWrite(queue[0]);
    }

    /** The completion of the oldest outstanding write. A sound writer has its front to erase. */
    method OnWrite(failed: bool)
      requires outstanding != [] && Sound(View())
      modifies this`queue, this`outstanding, this`written, this`failures
      ensures View() == WriteQueue.OnWrite(old(View()), !failed) && Sound(View())
    {
      CallKeepsSound(View(), Written(!failed));
      ghost var buffer := outstanding[0];
      outstanding := outstanding[1..];
      if failed {
        failures := failures + 1;
        return;
      }
      written := written + [buffer];
      queue := queue[1..];
      if queue != [] {
        AsyncWrite(queue[0]);
      }
    }
  }

  datatype Request = Unparsable | Request(ty: int, to: string)

  class SharedState {
    const symbols: map<Topic, Symbol>
    var sessions: set<WebsocketSession>
    var spscQueue: seq<(Topic, HubSystem.Payload)>
    var spscQueueSubscriber: seq<Event>

    /** One symbol object per topic. */
    ghost predicate Valid() {
      forall t, u :: t in symbols && u in symbols && symbols[t] == symbols[u] ==> t == u
    }

    /** The index that symbols, sessions and the event queue represent together. */
    ghost function View(all: set<WebsocketSession>): Index<WebsocketSession>
      reads this, symbols.Values, all
    {
      Index(map t | t in symbols :: symbols[t].sessions, map s | s in all :: s.topics, spscQueueSubscriber)
    }

    /** init: one symbol for each comma-separated topic. */
    constructor (topics: string)
      ensures Valid() && symbols.Keys == (set t | t in Split(topics, ','))
      ensures forall t :: t in symbols ==> fresh(symbols[t]) && symbols[t].sessions == {}
      ensures sessions == {} && spscQueue == [] && spscQueueSubscriber == []
    {
      sessions, spscQueue, spscQueueSubscriber := {}, [], [];
      var table: map<Topic, Symbol> := map[];
      var names := Split(topics, ',');
      for i := 0 to |names|
        invariant table.Keys == (set t | t in names[..i])
        invariant forall t, u :: t in table && u in table && table[t] == table[u] ==> t == u
        invariant forall t :: t in table ==> fresh(table[t]) && table[t].sessions == {}
      {
        assert names[..i + 1] == names[..i] + [names[i]];
        var symbol := new Symbol(names[i]);
        table := table[names[i] := symbol];
      }
      assert names[..|names|] == names;
      symbols := table;
    }

    method Join(session: WebsocketSession)
      modifies this`sessions
      ensures sessions == old(sessions) + {session}
    {
      sessions := sessions + {session};
    }

    // ---------- the critical sections of the topic loops ----------

    method MarkTopic(kind: MsgType, session: WebsocketSession, topic: Topic, ghost all: set<WebsocketSession>)
      requires session in all
      modifies session`topics
      ensures View(all) == Mark(old(View(all)), kind, session, topic)
    {
      if kind == Subscribe {
        session.topics := session.topics + {topic};
      } else {
        session.topics := session.topics - {topic};
      }
      assert View(all).topics == Mark(old(View(all)), kind, session, topic).topics;
      assert View(all).members == old(View(all)).members;
    }

    method PushEvent(kind: MsgType, topic: Topic, ghost all: set<WebsocketSession>)
      modifies this`spscQueueSubscriber
      ensures View(all) == old(View(all)).(events := Push(old(spscQueueSubscriber), Event(kind, topic)))
    {
      spscQueueSubscriber := Push(spscQueueSubscriber, Event(kind, topic));
      assert View(all).members == old(View(all)).members && View(all).topics == old(View(all)).topics;
    }

    method EnterSymbol(session: WebsocketSession, topic: Topic, ghost all: set<WebsocketSession>)
      requires Valid() && topic in symbols
      modifies this`spscQueueSubscriber, symbols[topic]
      ensures View(all) == Commit(old(View(all)), Subscribe, session, topic)
    {
      ghost var before := View(all);
      if |symbols[topic].sessions| == 0 {
        PushEvent(Subscribe, topic, all);
      }
      InsertMember(session, topic, all);
      EnteredIndex(before, session, topic, View(all));
    }

    method InsertMember(session: WebsocketSession, topic: Topic, ghost all: set<WebsocketSession>)
      requires Valid() && topic in symbols
      modifies symbols[topic]
      ensures symbols[topic].sessions == old(symbols[topic].sessions) + {session}
      ensures View(all) == old(View(all)).(members := old(View(all)).members[topic := symbols[topic].sessions])
    {
      symbols[topic].Join(session);
      assert View(all).members == old(View(all)).members[topic := symbols[topic].sessions];
      assert View(all).topics == old(View(all)).topics;
    }

    method EraseMember(session: WebsocketSession, topic: Topic, ghost all: set<WebsocketSession>) returns (erased: int)
      requires Valid() && topic in symbols
      modifies symbols[topic]
      ensures symbols[topic].sessions == old(symbols[topic].sessions) - {session}
      ensures erased == if session in old(symbols[topic].sessions) then 1 else 0
      ensures View(all) == old(View(all)).(members := old(View(all)).members[topic := symbols[topic].sessions])
    {
      erased := symbols[topic].Leave(session);
      assert View(all).members == old(View(all)).members[topic := symbols[topic].sessions];
      assert View(all).topics == old(View(all)).topics;
    }

    method LeaveSymbol(session: WebsocketSession, topic: Topic, ghost all: set<WebsocketSession>)
      requires Valid() && topic in symbols
      modifies this`spscQueueSubscriber, symbols[topic]
      ensures View(all) == Commit(old(View(all)), Unsubscribe, session, topic)
    {
      ghost var before := View(all);
      var erased := EraseMember(session, topic, all);
      if erased != 0 {
        if |symbols[topic].sessions| == 0 {
          PushEvent(Unsubscribe, topic, all);
        }
      }
      LeftIndex(before, session, topic, View(all));
    }

    // ---------- the topic loops ----------

    method UnsubscribeTopic(session: WebsocketSession, topic: Topic, ghost all: set<WebsocketSession>)
      requires Valid() && session in all && topic in symbols
      modifies this`spscQueueSubscriber, symbols[topic], session`topics
      ensures View(all) == Commit(Mark(old(View(all)), Unsubscribe, session, topic), Unsubscribe, session, topic)
    {
      MarkTopic(Unsubscribe, session, topic, all);
      LeaveSymbol(session, topic, all);
    }

    method WebsocketSubscribeToSymbols(session: WebsocketSession, topics: seq<Topic>, ghost all: set<WebsocketSession>)
      requires Valid() && session in all && forall t :: t in topics ==> t in symbols
      modifies this`spscQueueSubscriber, symbols.Values, session`topics
      ensures View(all) == Apply(old(View(all)), Subscribe, session, topics)
    {
      ghost var start := View(all);
      for i := 0 to |topics|
        invariant View(all) == Apply(start, Subscribe, session, topics[..i])
      {
        assert topics[..i + 1][..i] == topics[..i];
        MarkTopic(Subscribe, session, topics[i], all);
        EnterSymbol(session, topics[i], all);
      }
      assert topics[..|topics|] == topics;
    }

    method WebsocketUnsubscribeToSymbols(session: WebsocketSession, topics: seq<Topic>, ghost all: set<WebsocketSession>)
      requires Valid() && session in all && forall t :: t in topics ==> t in symbols
      modifies this`spscQueueSubscriber, symbols.Values, session`topics
      ensures View(all) == Apply(old(View(all)), Unsubscribe, session, topics)
    {
      ghost var start := View(all);
      for i := 0 to |topics|
        invariant View(all) == Apply(start, Unsubscribe, session, topics[..i])
      {
        assert topics[..i + 1][..i] == topics[..i];
        UnsubscribeTopic(session, topics[i], all);
      }
      assert topics[..|topics|] == topics;
    }

    /** One more topic of an unsubscribe whose earlier topics were `order`. */
    method LeaveOneMore(session: WebsocketSession, topic: Topic, ghost all: set<WebsocketSession>,
                        ghost start: Index<WebsocketSession>, ghost order: seq<Topic>)
      requires Valid() && session in all && topic in symbols && Unsubscribed(start, session, order, View(all))
      modifies this`spscQueueSubscriber, symbols[topic], session`topics
      ensures Unsubscribed(start, session, order + [topic], View(all))
    {
      ApplyOneMore(start, Unsubscribe, session, order, topic);
      UnsubscribeTopic(session, topic, all);
    }

    /** Unsubscribing from a copy of the session's topics, in some order, while the original shrinks. */
    method LeaveTopics(session: WebsocketSession, ghost all: set<WebsocketSession>) returns (ghost order: seq<Topic>)
      requires Valid() && session in all && forall t :: t in session.topics ==> t in symbols
      modifies this`spscQueueSubscriber, symbols.Values, session`topics
      ensures HubSystem.Lists(order, old(session.topics))
      ensures View(all) == Apply(old(View(all)), Unsubscribe, session, order)
    {
      ghost var start, mine := View(all), session.topics;
      var copy := session.topics;
      order := [];
      while copy != {}
        invariant LeftToVisit(order, copy, mine)
        invariant Unsubscribed(start, session, order, View(all))
        decreases copy
      {
        var topic :| topic in copy;
        VisitOneMore(order, copy, mine, topic);
        copy := copy - {topic};
        LeaveOneMore(session, topic, all, start, order);
        order := order + [topic];
      }
      assert mine - {} == mine;
    }

    /** The destructor: afterwards no symbol lists the session, and no other session has changed. */
    method Leave(session: WebsocketSession, ghost all: set<WebsocketSession>) returns (ghost order: seq<Topic>)
      requires Valid() && session in all && Agrees(View(all), session)
      requires forall t :: t in session.topics ==> t in symbols
      modifies this, symbols.Values, session`topics
      ensures HubSystem.Lists(order, old(session.topics))
      ensures sessions == old(sessions) - {session} && spscQueue == old(spscQueue)
      ensures spscQueueSubscriber == Apply(old(View(all)), Unsubscribe, session, order).events
      ensures session.topics == {} && forall s :: s in all && s != session ==> s.topics == old(s.topics)
      ensures forall t :: t in symbols ==> symbols[t].sessions == old(symbols[t].sessions) - {session}
    {
      ghost var start := View(all);
      order := LeaveTopics(session, all);
      LeavingClears(start, session, order, View(all));
      forall t | t in symbols
        ensures symbols[t].sessions == old(symbols[t].sessions) - {session}
      {
        assert View(all).members[t] == symbols[t].sessions && start.members[t] == old(symbols[t].sessions);
      }
      forall s | s in all
        ensures s.topics == if s == session then {} else old(s.topics)
      {
        assert View(all).topics[s] == s.topics && start.topics[s] == old(s.topics);
      }
      sessions := sessions - {session};
    }

    /** parse: a well-formed request runs one of the loops; anything else changes nothing. */
    method Parse(msg: Request, session: WebsocketSession, ghost all: set<WebsocketSession>)
      requires Valid() && session in all
      requires msg.Request? && (msg.ty == 1 || msg.ty == 2) ==> forall t :: t in Split(msg.to, ',') ==> t in symbols
      modifies this`spscQueueSubscriber, symbols.Values, session`topics
      ensures View(all) == AfterRequest(old(View(all)), msg, session)
      ensures msg.Request? && msg.ty == 1 ==> forall t :: t in symbols ==>
        && (session in symbols[t].sessions <==> t in Split(msg.to, ',') || session in old(symbols[t].sessions))
        && (t in session.topics <==> t in Split(msg.to, ',') || t in old(session.topics))
      ensures msg.Request? && msg.ty == 2 ==> forall t :: t in symbols ==>
        && (session in symbols[t].sessions <==> t !in Split(msg.to, ',') && session in old(symbols[t].sessions))
        && (t in session.topics <==> t !in Split(msg.to, ',') && t in old(session.topics))
      ensures msg.Unparsable? || (msg.ty != 1 && msg.ty != 2) ==>
        && spscQueueSubscriber == old(spscQueueSubscriber) && session.topics == old(session.topics)
        && forall t :: t in symbols ==> symbols[t].sessions == old(symbols[t].sessions)
      ensures forall t :: t in symbols ==> symbols[t].sessions - {session} == old(symbols[t].sessions) - {session}
      ensures forall s :: s in all && s != session ==> s.topics == old(s.topics)
    {
      ghost var before := View(all);
      if msg.Request? {
        if msg.ty == 1 {
          WebsocketSubscribeToSymbols(session, Split(msg.to, ','), all);
        } else if msg.ty == 2 {
          WebsocketUnsubscribeToSymbols(session, Split(msg.to, ','), all);
        }
      }
      RequestMoves(before, msg, session);
      ViewShows(all, View(all));
      assert forall t :: t in symbols ==> before.members[t] == old(symbols[t].sessions);
      assert forall s :: s in all ==> before.topics[s] == old(s.topics);
    }

    lemma ViewShows(all: set<WebsocketSession>, x: Index<WebsocketSession>)
      requires x == View(all)
      ensures forall t :: t in symbols ==> x.members[t] == symbols[t].sessions
      ensures forall s :: s in all ==> x.topics[s] == s.topics
    {
    }
  }

  ghost function AfterRequest(x: Index<WebsocketSession>, msg: Request, s: WebsocketSession): Index<WebsocketSession>
    requires s in x.topics
    requires (msg.Request? && (msg.ty == 1 || msg.ty == 2) ==> forall t :: t in Split(msg.to, ',') ==> t in x.members)
  {
    match msg
    case Unparsable => x
    case Request(ty, to) =>
      if ty == 1 then Apply(x, Subscribe, s, Split(to, ','))
      else if ty == 2 then Apply(x, Unsubscribe, s, Split(to, ','))
      else x
  }

  /** Type 1 subscribes the session to the topics of the text, type 2 unsubscribes it, any other changes nothing. */
  lemma RequestMoves(x: Index<WebsocketSession>, msg: Request, s: WebsocketSession)
    requires s in x.topics
    requires msg.Request? && (msg.ty == 1 || msg.ty == 2) ==> forall t :: t in Split(msg.to, ',') ==> t in x.members
    ensures var y := AfterRequest(x, msg, s);
      && y.members.Keys == x.members.Keys && y.topics.Keys == x.topics.Keys
      && (msg.Request? && msg.ty == 1 ==> forall t :: t in x.members ==>
           && (s in y.members[t] <==> t in Split(msg.to, ',') || s in x.members[t])
           && (t in y.topics[s] <==> t in Split(msg.to, ',') || t in x.topics[s]))
      && (msg.Request? && msg.ty == 2 ==> forall t :: t in x.members ==>
           && (s in y.members[t] <==> t !in Split(msg.to, ',') && s in x.members[t])
           && (t in y.topics[s] <==> t !in Split(msg.to, ',') && t in x.topics[s]))
      && (msg.Unparsable? || (msg.ty != 1 && msg.ty != 2) ==> y == x)
      && (forall t :: t in x.members ==> y.members[t] - {s} == x.members[t] - {s})
      && (forall r :: r in x.topics && r != s ==> y.topics[r] == x.topics[r])
  {
    if msg.Request? && msg.ty == 1 {
      ApplySets(x, Subscribe, s, Split(msg.to, ','));
    } else if msg.Request? && msg.ty == 2 {
      ApplySets(x, Unsubscribe, s, Split(msg.to, ','));
    }
  }

  /** The index after a session is inserted into one symbol, field by field. */
  lemma EnteredIndex<S>(before: Index<S>, s: S, t: Topic, after: Index<S>)
    requires t in before.members && after.topics == before.topics
    requires after.members == before.members[t := before.members[t] + {s}]
    requires after.events == if |before.members[t]| == 0 then Push(before.events, Event(Subscribe, t)) else before.events
    ensures after == Commit(before, Subscribe, s, t)
  {
  }

  /** The index after a session is erased from one symbol, field by field. */
  lemma LeftIndex<S>(before: Index<S>, s: S, t: Topic, after: Index<S>)
    requires t in before.members && after.topics == before.topics
    requires after.members == before.members[t := before.members[t] - {s}]
    requires after.events ==
      if s in before.members[t] && |after.members[t]| == 0 then Push(before.events, Event(Unsubscribe, t)) else before.events
    ensures after == Commit(before, Unsubscribe, s, t)
  {
  }

  /** An unsubscribe of the topics in `order` has led from one index to the other. */
  ghost predicate Unsubscribed<S>(start: Index<S>, s: S, order: seq<Topic>, now: Index<S>) {
    CanRun(start, s, order) && now == Apply(start, Unsubscribe, s, order)
  }

  /** All of `mine` but `copy` has been visited, each topic once. */
  ghost predicate LeftToVisit(order: seq<Topic>, copy: set<Topic>, mine: set<Topic>) {
    copy <= mine && HubSystem.Lists(order, mine - copy)
  }

  lemma VisitOneMore(order: seq<Topic>, copy: set<Topic>, mine: set<Topic>, t: Topic)
    requires LeftToVisit(order, copy, mine) && t in copy
    ensures LeftToVisit(order + [t], copy - {t}, mine)
  {
    ListOneMore(order, mine - copy, t);
    assert mine - (copy - {t}) == (mine - copy) + {t};
  }

  lemma ListOneMore(order: seq<Topic>, visited: set<Topic>, t: Topic)
    requires HubSystem.Lists(order, visited) && t !in visited
    ensures HubSystem.Lists(order + [t], visited + {t})
  {
    assert HubSystem.Elements(order + [t]) == HubSystem.Elements(order) + {t};
    assert t !in HubSystem.Elements(order);
  }

  /** Unsubscribing everything a session records, in whatever order, leaves it nowhere. */
  lemma LeavingClears<S>(x: Index<S>, s: S, order: seq<Topic>, y: Index<S>)
    requires CanRun(x, s, order) && Agrees(x, s) && y == Apply(x, Unsubscribe, s, order)
    requires forall t :: t in x.topics[s] ==> t in HubSystem.Elements(order)
    ensures y.topics[s] == {} && forall t :: t in x.members ==> y.members[t] == x.members[t] - {s}
    ensures forall r :: r in x.topics && r != s ==> y.topics[r] == x.topics[r]
  {
    ApplySets(x, Unsubscribe, s, order);
  }
}
