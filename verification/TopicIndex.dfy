/**
 The two-way subscription index of the quote hub: for each topic the sessions
 that joined it, and for each session the topics it asked for. The two
 directions are guarded by different mutexes, so each operation on a topic is two
 critical sections; every function below is one of them.

 The session type is a parameter: heap objects in SharedState, plain
 identifiers in HubSystem.
 */
module TopicIndex {
  import opened SpscQueue

  type Topic = string

  datatype MsgType = Subscribe | Unsubscribe

  datatype Event = Event(kind: MsgType, topic: Topic)

  datatype Index<S(==)> = Index(members: map<Topic, set<S>>, topics: map<S, set<Topic>>, events: seq<Event>)

  // ---------- the critical sections ----------

  /** Under the hub mutex: the session's own record of its topics. */
  function Mark<S>(x: Index<S>, kind: MsgType, s: S, t: Topic): Index<S>
    requires s in x.topics
  {
    match kind
    case Subscribe => x.(topics := x.topics[s := x.topics[s] + {t}])
    case Unsubscribe => x.(topics := x.topics[s := x.topics[s] - {t}])
  }

  /** The symbol is about to gain its first or lose its last session. */
  predicate Edge<S>(x: Index<S>, kind: MsgType, s: S, t: Topic)
    requires t in x.members
  {
    match kind
    case Subscribe => x.members[t] == {}
    case Unsubscribe => s in x.members[t] && x.members[t] - {s} == {}
  }

  /** Under the symbol's mutex: the membership set, and the event when an edge is crossed. */
  function Commit<S>(x: Index<S>, kind: MsgType, s: S, t: Topic): Index<S>
    requires t in x.members
  {
    var after := match kind case Subscribe => x.members[t] + {s} case Unsubscribe => x.members[t] - {s};
    x.(members := x.members[t := after],
       events := if Edge(x, kind, s, t) then Push(x.events, Event(kind, t)) else x.events)
  }

  // ---------- a whole call, run alone ----------

  ghost predicate CanRun<S>(x: Index<S>, s: S, list: seq<Topic>) {
    s in x.topics && forall t :: t in list ==> t in x.members
  }

  function Apply<S>(x: Index<S>, kind: MsgType, s: S, list: seq<Topic>): (y: Index<S>)
    requires s in x.topics && forall t :: t in list ==> t in x.members
    ensures y.members.Keys == x.members.Keys && y.topics.Keys == x.topics.Keys
  {
    if list == [] then x
    else
      var y := Apply(x, kind, s, list[..|list| - 1]);
      Commit(Mark(y, kind, s, list[|list| - 1]), kind, s, list[|list| - 1])
  }

  lemma {:induction false} ApplyOneMore<S>(x: Index<S>, kind: MsgType, s: S, list: seq<Topic>, t: Topic)
    requires s in x.topics && t in x.members && forall u :: u in list ==> u in x.members
    ensures Apply(x, kind, s, list + [t]) == Commit(Mark(Apply(x, kind, s, list), kind, s, t), kind, s, t)
  {
    assert (list + [t])[..|list|] == list;
  }

  /** A call, seen from its first topic. */
  lemma {:induction false} ApplyFromFront<S>(x: Index<S>, kind: MsgType, s: S, t: Topic, rest: seq<Topic>)
    requires s in x.topics && t in x.members && forall u :: u in rest ==> u in x.members
    ensures var y := Commit(Mark(x, kind, s, t), kind, s, t);
      CanRun(y, s, rest) && Apply(x, kind, s, [t] + rest) == Apply(y, kind, s, rest)
  {
    var y := Commit(Mark(x, kind, s, t), kind, s, t);
    if rest == [] {
      ApplyOneMore(x, kind, s, [], t);
      assert [t] + rest == [] + [t];
    } else {
      var init, u := rest[..|rest| - 1], rest[|rest| - 1];
      assert rest == init + [u] && [t] + rest == ([t] + init) + [u];
      ApplyFromFront(x, kind, s, t, init);
      ApplyOneMore(x, kind, s, [t] + init, u);
      ApplyOneMore(y, kind, s, init, u);
    }
  }

  /** The topics of the list that lie in `among`, each at its first occurrence. */
  function Firsts(list: seq<Topic>, among: set<Topic>): (r: seq<Topic>)
    ensures forall t :: t in r <==> t in list && t in among
    ensures forall i, j :: 0 <= i < j < |r| ==> r[i] != r[j]
  {
    if list == [] then []
    else
      var init := list[..|list| - 1];
      var last := list[|list| - 1];
      assert list == init + [last];
      if last in among && last !in init then Firsts(init, among) + [last] else Firsts(init, among)
  }

  function Announce(kind: MsgType, list: seq<Topic>): (r: seq<Event>)
    ensures |r| == |list| && forall i :: 0 <= i < |r| ==> r[i] == Event(kind, list[i])
  {
    seq(|list|, i requires 0 <= i < |list| => Event(kind, list[i]))
  }

  function EmptyTopics<S>(x: Index<S>): set<Topic> {
    set t | t in x.members && x.members[t] == {}
  }

  function LoneTopics<S>(x: Index<S>, s: S): set<Topic> {
    set t | t in x.members && s in x.members[t] && x.members[t] - {s} == {}
  }

  function Moved<S>(sessions: set<S>, kind: MsgType, s: S, listed: bool): set<S> {
    if !listed then sessions else if kind == Subscribe then sessions + {s} else sessions - {s}
  }

  /** What one call run alone does to the two directions of the index. */
  lemma {:induction false} ApplySets<S>(x: Index<S>, kind: MsgType, s: S, list: seq<Topic>)
    requires CanRun(x, s, list)
    ensures var y := Apply(x, kind, s, list);
      && (forall t :: t in x.members ==> y.members[t] == Moved(x.members[t], kind, s, t in list))
      && (forall t :: t in x.members ==> (s in y.members[t] <==> if t in list then kind == Subscribe else s in x.members[t]))
      && (forall t :: t in x.members ==> y.members[t] - {s} == x.members[t] - {s})
      && (forall r :: r in x.topics && r != s ==> y.topics[r] == x.topics[r])
      && (forall t :: t in y.topics[s] <==> if t in list then kind == Subscribe else t in x.topics[s])
  {
    if list != [] {
      var init, last := list[..|list| - 1], list[|list| - 1];
      assert list == init + [last];
      ApplySets(x, kind, s, init);
    }
  }

  lemma AnnounceOneMore(kind: MsgType, list: seq<Topic>, t: Topic)
    ensures Announce(kind, list + [t]) == Announce(kind, list) + [Event(kind, t)]
    ensures forall q: seq<Event> :: PushAll(q, Announce(kind, list + [t])) == Push(PushAll(q, Announce(kind, list)), Event(kind, t))
  {
    var longer := Announce(kind, list + [t]);
    assert longer[..|longer| - 1] == Announce(kind, list);
  }

  /** The topics whose edge a call of this kind crosses. */
  function Crossed<S>(x: Index<S>, kind: MsgType, s: S): set<Topic> {
    if kind == Subscribe then EmptyTopics(x) else LoneTopics(x, s)
  }

  /** After part of a call, the next topic's edge is crossed iff it was there at the start and the topic is new. */
  lemma NextEdge<S>(x: Index<S>, kind: MsgType, s: S, init: seq<Topic>, t: Topic)
    requires CanRun(x, s, init) && t in x.members
    ensures var y := Apply(x, kind, s, init);
      Edge(Mark(y, kind, s, t), kind, s, t) <==> t in Crossed(x, kind, s) && t !in init
  {
    ApplySets(x, kind, s, init);
  }

  /**
   A call run alone announces each topic whose edge it crosses exactly once, at
   the topic's first occurrence in the list; duplicates announce nothing.
   */
  lemma {:induction false} ApplyEvents<S>(x: Index<S>, kind: MsgType, s: S, list: seq<Topic>)
    requires CanRun(x, s, list)
    ensures Apply(x, kind, s, list).events == PushAll(x.events, Announce(kind, Firsts(list, Crossed(x, kind, s))))
  {
    if list != [] {
      var init, last := list[..|list| - 1], list[|list| - 1];
      assert list == init + [last];
      ApplyEvents(x, kind, s, init);
      NextEdge(x, kind, s, init, last);
      AnnounceOneMore(kind, Firsts(init, Crossed(x, kind, s)), last);
    }
  }

  lemma RoundTripSets<S>(x: Index<S>, s: S, list: seq<Topic>)
    requires CanRun(x, s, list)
    ensures var z := Apply(Apply(x, Subscribe, s, list), Unsubscribe, s, list);
      forall t :: t in x.members ==> z.members[t] == Moved(x.members[t], Unsubscribe, s, t in list)
  {
    var y := Apply(x, Subscribe, s, list);
    ApplySets(x, Subscribe, s, list);
    ApplySets(y, Unsubscribe, s, list);
    forall t | t in x.members
      ensures Moved(y.members[t], Unsubscribe, s, t in list) == Moved(x.members[t], Unsubscribe, s, t in list)
    {
      assert x.members[t] + {s} - {s} == x.members[t] - {s};
    }
  }

  /**
   A subscribe call followed by an unsubscribe call of the same list restores
   every membership set exactly when the session was in none of them before.
   This holds whatever the queue drops.
   */
  lemma RoundTripRestoresMembers<S>(x: Index<S>, s: S, list: seq<Topic>)
    requires CanRun(x, s, list)
    ensures var z := Apply(Apply(x, Subscribe, s, list), Unsubscribe, s, list);
      z.members == x.members <==> forall t :: t in list ==> s !in x.members[t]
  {
    RoundTripSets(x, s, list);
    MovedOutIsSame(x.members, Apply(Apply(x, Subscribe, s, list), Unsubscribe, s, list).members, s, list);
  }

  lemma MovedOutIsSame<S>(before: map<Topic, set<S>>, after: map<Topic, set<S>>, s: S, list: seq<Topic>)
    requires after.Keys == before.Keys && forall t :: t in list ==> t in before
    requires forall t :: t in before ==> after[t] == Moved(before[t], Unsubscribe, s, t in list)
    ensures after == before <==> forall t :: t in list ==> s !in before[t]
  {
    forall t | t in before
      ensures after[t] == before[t] <==> (t in list ==> s !in before[t])
    {
      assert s !in before[t] ==> before[t] - {s} == before[t];
    }
  }

  /**
   The same round trip seen by the Redis side: each topic that had no session
   gets one SUBSCRIBE and one matching UNSUBSCRIBE, in the same order, and the
   other sessions' records are untouched.
   */
  lemma RoundTripAnnouncesInPairs<S>(x: Index<S>, s: S, list: seq<Topic>)
    requires CanRun(x, s, list)
    requires forall t :: t in list ==> s !in x.members[t]
    ensures var woken := Firsts(list, EmptyTopics(x));
      var z := Apply(Apply(x, Subscribe, s, list), Unsubscribe, s, list);
      && z.events == PushAll(x.events, Announce(Subscribe, woken) + Announce(Unsubscribe, woken))
      && (forall r :: r in x.topics && r != s ==> z.topics[r] == x.topics[r])
      && (forall t :: t in z.topics[s] <==> t in x.topics[s] && t !in list)
  {
    var y := Apply(x, Subscribe, s, list);
    RoundTripRecords(x, s, list);
    ApplyEvents(x, Subscribe, s, list);
    ApplyEvents(y, Unsubscribe, s, list);
    forall t | t in list
      ensures t in LoneTopics(y, s) <==> t in EmptyTopics(x)
    {
      AloneAfterJoining(x, s, list, t);
    }
    FirstsOfSameTopics(list, LoneTopics(y, s), EmptyTopics(x));
    var woken := Firsts(list, EmptyTopics(x));
    PushAllAppends(x.events, Announce(Subscribe, woken), Announce(Unsubscribe, woken));
  }

  /** A session is alone on a topic it just joined iff the topic had nobody. */
  lemma AloneAfterJoining<S>(x: Index<S>, s: S, list: seq<Topic>, t: Topic)
    requires CanRun(x, s, list) && t in list && s !in x.members[t]
    ensures t in LoneTopics(Apply(x, Subscribe, s, list), s) <==> t in EmptyTopics(x)
  {
    ApplySets(x, Subscribe, s, list);
    assert x.members[t] + {s} - {s} == x.members[t];
  }

  lemma RoundTripRecords<S>(x: Index<S>, s: S, list: seq<Topic>)
    requires CanRun(x, s, list)
    ensures var z := Apply(Apply(x, Subscribe, s, list), Unsubscribe, s, list);
      && (forall r :: r in x.topics && r != s ==> z.topics[r] == x.topics[r])
      && (forall t :: t in z.topics[s] <==> t in x.topics[s] && t !in list)
  {
    ApplySets(x, Subscribe, s, list);
    ApplySets(Apply(x, Subscribe, s, list), Unsubscribe, s, list);
  }

  lemma {:induction false} FirstsOfSameTopics(list: seq<Topic>, a: set<Topic>, b: set<Topic>)
    requires forall t :: t in list ==> (t in a <==> t in b)
    ensures Firsts(list, a) == Firsts(list, b)
  {
    if list != [] {
      FirstsOfSameTopics(list[..|list| - 1], a, b);
      assert list[|list| - 1] in list;
    }
  }

  /** The two directions agree for session s. */
  ghost predicate Agrees<S>(x: Index<S>, s: S) {
    s in x.topics && forall t :: t in x.members ==> (s in x.members[t] <==> t in x.topics[s])
  }

  /** A call run alone keeps the two directions in agreement for every session. */
  lemma ApplyKeepsAgreement<S>(x: Index<S>, kind: MsgType, s: S, list: seq<Topic>, r: S)
    requires CanRun(x, s, list) && r in x.topics
    requires Agrees(x, r)
    ensures Agrees(Apply(x, kind, s, list), r)
  {
    ApplySets(x, kind, s, list);
  }
}
