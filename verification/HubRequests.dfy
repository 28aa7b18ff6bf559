/**
 What a client's request, and its departure, come to in the running hub. Whatever
 runs in between, a request has moved exactly the topics it lists by the time its
 loop ends; and left alone, a request or a departure always gets to its end.
 */
module HubRequests {
  import opened Wrappers
  import opened TopicIndex
  import WriteQueue
  import opened HubSystem
  import opened HubIndex
  import opened HubRuns

  // ---------- among all other activities ----------

  /** The record of the session, once its loop is through, will be `goal`. */
  predicate HeadsFor(h: Hub, s: Sid, kind: MsgType, goal: set<Topic>) {
    && s in h.sess && s in h.ix.topics
    && match h.sess[s].phase
       case Serving(task) => task.kind == kind && After(h.ix.topics[s], kind, Todo(task)) == goal
       case Reading => h.ix.topics[s] == goal
       case Quiet => h.ix.topics[s] == goal
       case _ => false
  }

  function After(mine: set<Topic>, kind: MsgType, list: seq<Topic>): set<Topic> {
    if kind == Subscribe then mine + Elements(list) else mine - Elements(list)
  }

  /** The next request, or the destructor, of the session. */
  predicate Ends(a: Action, s: Sid) {
    (a.Request? || a.Destroy?) && a.s == s
  }

  lemma OwnStepHeadsOn(h: Hub, a: Action, k: Hub, s: Sid, kind: MsgType, goal: set<Topic>)
    requires Next(h, a) == Some(k) && HeadsFor(h, s, kind, goal)
    requires a == MarkTopic(s) || a == CommitTopic(s) || a == Finish(s)
    ensures HeadsFor(k, s, kind, goal)
  {
    var task := h.sess[s].phase.task;
    if a == MarkTopic(s) {
      assert task.rest == [task.rest[0]] + task.rest[1..];
      assert Elements(task.rest) == {task.rest[0]} + Elements(task.rest[1..]);
    } else if a == Finish(s) {
      assert Elements(task.rest) == {};
    }
  }

  lemma OtherStepHeadsOn(h: Hub, a: Action, k: Hub, s: Sid, kind: MsgType, goal: set<Topic>)
    requires Next(h, a) == Some(k) && HeadsFor(h, s, kind, goal) && !Ends(a, s)
    requires a != MarkTopic(s) && a != CommitTopic(s) && a != Finish(s)
    ensures HeadsFor(k, s, kind, goal)
  {
  }

  lemma {:induction false} RunHeadsOn(h: Hub, more: seq<Action>, z: Hub, s: Sid, kind: MsgType, goal: set<Topic>)
    requires ExecFrom(h, more) == Some(z) && HeadsFor(h, s, kind, goal)
    requires forall a :: a in more ==> !Ends(a, s)
    ensures HeadsFor(z, s, kind, goal)
  {
    if more != [] {
      var a := more[|more| - 1];
      var before := ExecFrom(h, more[..|more| - 1]).value;
      RunHeadsOn(h, more[..|more| - 1], before, s, kind, goal);
      assert a in more;
      if a == MarkTopic(s) || a == CommitTopic(s) || a == Finish(s) {
        OwnStepHeadsOn(before, a, z, s, kind, goal);
      } else {
        OtherStepHeadsOn(before, a, z, s, kind, goal);
      }
    }
  }

  lemma RecordGains(h: Hub, s: Sid, kind: MsgType, list: seq<Topic>, k: Hub, more: seq<Action>, z: Hub)
    requires IndexInv(h) && Next(h, Request(s, kind, list)) == Some(k)
    requires ExecFrom(k, more) == Some(z) && forall a :: a in more ==> !Ends(a, s)
    requires s in z.sess && (z.sess[s].phase.Reading? || z.sess[s].phase.Quiet?)
    ensures InPhase(h, s, Reading) && s in h.ix.topics && s in z.ix.topics
    ensures forall t :: t in z.ix.topics[s] <==> if t in list then kind == Subscribe else t in h.ix.topics[s]
  {
    var goal := After(h.ix.topics[s], kind, list);
    assert HeadsFor(k, s, kind, goal);
    RunHeadsOn(k, more, z, s, kind, goal);
  }

  /**
   Whatever else runs meanwhile, once the loop of a request has ended and before
   the session's next request, its record has gained (SUBSCRIBE) or lost
   (UNSUBSCRIBE) exactly the topics of the list, duplicates included, and the
   symbols list the session accordingly.
   */
  lemma RequestTakesEffect(domain: set<Topic>, actions: seq<Action>, h: Hub, s: Sid, kind: MsgType, list: seq<Topic>,
                           k: Hub, more: seq<Action>, z: Hub)
    requires Exec(domain, actions) == Some(h) && Next(h, Request(s, kind, list)) == Some(k)
    requires ExecFrom(k, more) == Some(z) && forall a :: a in more ==> !Ends(a, s)
    requires s in z.sess && (z.sess[s].phase.Reading? || z.sess[s].phase.Quiet?)
    ensures s in h.ix.topics && s in z.ix.topics
    ensures forall t :: t in z.ix.topics[s] <==> if t in list then kind == Subscribe else t in h.ix.topics[s]
    ensures forall t :: t in domain ==>
      t in h.ix.members && t in z.ix.members
      && (s in z.ix.members[t] <==> if t in list then kind == Subscribe else s in h.ix.members[t])
  {
    var asked := actions + [Request(s, kind, list)];
    ExecStep(Init(domain), actions, Request(s, kind, list));
    ExecInTwoParts(Init(domain), asked, more, k);
    ReachableInv(domain, actions, h);
    RecordGains(h, s, kind, list, k, more, z);
    RestingAgrees(domain, actions, h, s);
    RestingAgrees(domain, asked + more, z, s);
  }

  /** Between its loops a session agrees with every symbol. */
  lemma RestingAgrees(domain: set<Topic>, actions: seq<Action>, h: Hub, s: Sid)
    requires Exec(domain, actions) == Some(h) && s in h.sess && (h.sess[s].phase.Reading? || h.sess[s].phase.Quiet?)
    ensures s in h.ix.topics
    ensures forall t :: t in domain ==> t in h.ix.members && (s in h.ix.members[t] <==> t in h.ix.topics[s])
  {
    ReachableInv(domain, actions, h);
    forall t | t in domain
      ensures t in h.ix.members && (s in h.ix.members[t] <==> t in h.ix.topics[s])
    {
      IndexIsTwoWay(domain, actions, h, s, t);
    }
  }

  // ---------- left alone ----------

  /** The two critical sections of each of n topics. */
  function Sections(s: Sid, n: nat): seq<Action> {
    if n == 0 then [] else [MarkTopic(s)] + ([CommitTopic(s)] + Sections(s, n - 1))
  }

  /** The states are the same but for the history. */
  predicate SameState(h: Hub, k: Hub) {
    h.(trace := k.trace) == k
  }

  lemma OneTopicAlone(h: Hub, s: Sid) returns (m: Hub, k: Hub)
    requires Looping(h, s) && !h.sess[s].phase.task.marked && h.sess[s].phase.task.rest != []
    requires s in h.ix.topics && h.sess[s].phase.task.rest[0] in h.ix.members
    ensures Next(h, MarkTopic(s)) == Some(m) && Next(m, CommitTopic(s)) == Some(k)
    ensures var task := h.sess[s].phase.task;
      var t := task.rest[0];
      SameState(k, SetTask(h, s, Task(task.kind, false, task.rest[1..])).(
                     ix := Commit(Mark(h.ix, task.kind, s, t), task.kind, s, t)))
  {
    m := MarkStep(h, s).value;
    k := CommitStep(m, s).value;
    var task := h.sess[s].phase.task;
    assert k.sess == SetTask(h, s, Task(task.kind, false, task.rest[1..])).sess;
  }

  /** The loop at its end, having led to this index. */
  function LoopedTo(h: Hub, s: Sid, kind: MsgType, final: Index<Sid>): Hub
    requires Looping(h, s)
  {
    SetTask(h, s, Task(kind, false, [])).(ix := final)
  }

  lemma {:induction false} LoopedFurther(h: Hub, s: Sid, task: Task, mid: Index<Sid>, m: Hub, final: Index<Sid>)
    requires Looping(h, s) && SameState(m, SetTask(h, s, task).(ix := mid))
    ensures Looping(m, s) && m.sess[s].phase.task == task && m.ix == mid
    ensures SameState(LoopedTo(m, s, task.kind, final), LoopedTo(h, s, task.kind, final))
  {
    assert SetTask(m, s, Task(task.kind, false, [])).sess == SetTask(h, s, Task(task.kind, false, [])).sess;
  }

  lemma LoopedAtOnce(h: Hub, s: Sid, kind: MsgType)
    requires Looping(h, s) && h.sess[s].phase.task == Task(kind, false, [])
    ensures LoopedTo(h, s, kind, h.ix) == h
  {
    assert SetTask(h, s, Task(kind, false, [])).sess == h.sess;
  }

  /** The first topic of the loop, after which the same call is to come from a shorter list. */
  lemma {:induction false} FirstTopicAlone(h: Hub, s: Sid, kind: MsgType, list: seq<Topic>) returns (m: Hub, k: Hub)
    requires Looping(h, s) && h.sess[s].phase.task == Task(kind, false, list) && CanRun(h.ix, s, list) && list != []
    ensures Next(h, MarkTopic(s)) == Some(m) && Next(m, CommitTopic(s)) == Some(k)
    ensures Looping(k, s) && k.sess[s].phase.task == Task(kind, false, list[1..]) && CanRun(k.ix, s, list[1..])
    ensures SameState(LoopedTo(k, s, kind, Apply(k.ix, kind, s, list[1..])), LoopedTo(h, s, kind, Apply(h.ix, kind, s, list)))
  {
    assert list[0] in list && list == [list[0]] + list[1..];
    m, k := OneTopicAlone(h, s);
    var mid := Commit(Mark(h.ix, kind, s, list[0]), kind, s, list[0]);
    ApplyFromFront(h.ix, kind, s, list[0], list[1..]);
    LoopedFurther(h, s, Task(kind, false, list[1..]), mid, k, Apply(h.ix, kind, s, list));
  }

  lemma {:induction false} LoopAlone(h: Hub, s: Sid, kind: MsgType, list: seq<Topic>) returns (k: Hub)
    requires Looping(h, s) && h.sess[s].phase.task == Task(kind, false, list) && CanRun(h.ix, s, list)
    ensures ExecFrom(h, Sections(s, |list|)) == Some(k) && SameState(k, LoopedTo(h, s, kind, Apply(h.ix, kind, s, list)))
    decreases |list|
  {
    if list == [] {
      k := h;
      LoopedAtOnce(h, s, kind);
    } else {
      var m, after := FirstTopicAlone(h, s, kind, list);
      k := LoopAlone(after, s, kind, list[1..]);
      SectionsFromFront(h, s, |list|, m, after, k);
    }
  }

  lemma {:induction false} SectionsFromFront(h: Hub, s: Sid, n: nat, m: Hub, after: Hub, k: Hub)
    requires n > 0 && Next(h, MarkTopic(s)) == Some(m) && Next(m, CommitTopic(s)) == Some(after)
    requires ExecFrom(after, Sections(s, n - 1)) == Some(k)
    ensures ExecFrom(h, Sections(s, n)) == Some(k)
  {
    var rest := Sections(s, n - 1);
    OneThenMore(m, CommitTopic(s), after, rest);
    OneThenMore(h, MarkTopic(s), m, [CommitTopic(s)] + rest);
  }

  /** The loop to its end, and the step after it. */
  lemma LoopEndsAlone(h: Hub, s: Sid, kind: MsgType, list: seq<Topic>) returns (k: Hub, z: Hub)
    requires Looping(h, s) && h.sess[s].phase.task == Task(kind, false, list) && CanRun(h.ix, s, list)
    ensures ExecFrom(h, Sections(s, |list|) + [Finish(s)]) == Some(z) && FinishStep(k, s) == Some(z)
    ensures SameState(k, SetTask(h, s, Task(kind, false, [])).(ix := Apply(h.ix, kind, s, list)))
  {
    k := LoopAlone(h, s, kind, list);
    z := FinishAlone(h, s, kind, list, k);
    OneStepMore(h, Sections(s, |list|), k, Finish(s), z);
  }

  lemma FinishAlone(h: Hub, s: Sid, kind: MsgType, list: seq<Topic>, k: Hub) returns (z: Hub)
    requires Looping(h, s) && CanRun(h.ix, s, list) && SameState(k, LoopedTo(h, s, kind, Apply(h.ix, kind, s, list)))
    ensures FinishStep(k, s) == Some(z) && Next(k, Finish(s)) == Some(z)
  {
    z := FinishStep(k, s).value;
  }

  function RequestRun(s: Sid, kind: MsgType, list: seq<Topic>): seq<Action> {
    [Request(s, kind, list)] + (Sections(s, |list|) + [Finish(s)])
  }

  /**
   In every reachable state a reading session can make a request for any configured
   topics, and with nothing else running gets through it: the hub has then done the
   whole call of TopicIndex and nothing else.
   */
  lemma RequestAlone(domain: set<Topic>, actions: seq<Action>, h: Hub, s: Sid, kind: MsgType, list: seq<Topic>) returns (k: Hub)
    requires Exec(domain, actions) == Some(h) && InPhase(h, s, Reading) && forall t :: t in list ==> t in domain
    ensures ExecFrom(h, RequestRun(s, kind, list)) == Some(k) && CanRun(h.ix, s, list)
    ensures SameState(k, h.(ix := Apply(h.ix, kind, s, list)))
  {
    ReachableInv(domain, actions, h);
    assert LocalAt(h, s);
    k := RequestFrom(h, s, kind, list);
  }

  lemma RequestFrom(h: Hub, s: Sid, kind: MsgType, list: seq<Topic>) returns (k: Hub)
    requires InPhase(h, s, Reading) && CanRun(h.ix, s, list)
    ensures ExecFrom(h, RequestRun(s, kind, list)) == Some(k)
    ensures SameState(k, h.(ix := Apply(h.ix, kind, s, list)))
  {
    var asked := SetPhase(h, s, Serving(Task(kind, false, list)));
    OneThenMore(h, Request(s, kind, list), asked, Sections(s, |list|) + [Finish(s)]);
    var looped;
    looped, k := LoopEndsAlone(asked, s, kind, list);
    assert k.sess == h.sess;
  }

  function DepartureRun(s: Sid, order: seq<Topic>): seq<Action> {
    [Destroy(s, order)] + (Sections(s, |order|) + [Finish(s)])
  }

  /**
   In every reachable state a session that has stopped reading, with no handler
   posted, no write outstanding and not held by the publisher, can be destroyed, in
   any order of its topics, and with nothing else running gets to the end of leave:
   it is freed, in no symbol and not among the connections, and nobody else has
   changed.
   */
  lemma DepartureAlone(domain: set<Topic>, actions: seq<Action>, h: Hub, s: Sid, order: seq<Topic>) returns (k: Hub)
    requires Exec(domain, actions) == Some(h) && InPhase(h, s, Quiet)
    requires h.sess[s].posted == [] && h.sess[s].writer.outstanding == [] && (h.pub.Holding? ==> h.pub.sid != s)
    requires s in h.ix.topics && Lists(order, h.ix.topics[s])
    ensures ExecFrom(h, DepartureRun(s, order)) == Some(k)
    ensures InPhase(k, s, Gone) && k.conns == h.conns - {s} && k.ix.members.Keys == h.ix.members.Keys
    ensures forall t :: t in h.ix.members ==> k.ix.members[t] == h.ix.members[t] - {s}
    ensures k.sess.Keys == h.sess.Keys && k.pub == h.pub && k.inbox == h.inbox && k.redis == h.redis && k.count == h.count
    ensures forall r :: r in h.sess && r != s ==> k.sess[r] == h.sess[r]
    ensures forall r :: r in h.ix.topics && r != s ==> r in k.ix.topics && k.ix.topics[r] == h.ix.topics[r]
  {
    ReachableInv(domain, actions, h);
    QuietCanLeave(h, s, order);
    k := DepartureFrom(h, s, order);
    DepartedSets(h, s, order, k.ix);
    DepartedRest(h, s, k);
  }

  lemma DepartedRest(h: Hub, s: Sid, k: Hub)
    requires s in h.sess && SameState(k, SetPhase(h, s, Gone).(conns := h.conns - {s}, ix := k.ix))
    ensures InPhase(k, s, Gone) && k.conns == h.conns - {s}
    ensures k.sess.Keys == h.sess.Keys && k.pub == h.pub && k.inbox == h.inbox && k.redis == h.redis && k.count == h.count
    ensures forall r :: r in h.sess && r != s ==> k.sess[r] == h.sess[r]
  {
  }

  lemma QuietCanLeave(h: Hub, s: Sid, order: seq<Topic>)
    requires IndexInv(h) && InPhase(h, s, Quiet) && s in h.ix.topics && Lists(order, h.ix.topics[s])
    requires h.sess[s].posted == [] && h.sess[s].writer.outstanding == [] && (h.pub.Holding? ==> h.pub.sid != s)
    ensures !HasRef(h, s) && CanRun(h.ix, s, order) && LocalAt(h, s)
  {
    assert LocalAt(h, s);
    assert forall t :: t in order <==> t in Elements(order);
  }

  lemma DepartureFrom(h: Hub, s: Sid, order: seq<Topic>) returns (k: Hub)
    requires InPhase(h, s, Quiet) && !HasRef(h, s) && CanRun(h.ix, s, order) && Lists(order, h.ix.topics[s])
    ensures ExecFrom(h, DepartureRun(s, order)) == Some(k)
    ensures SameState(k, SetPhase(h, s, Gone).(conns := h.conns - {s}, ix := Apply(h.ix, Unsubscribe, s, order)))
  {
    var begun := SetPhase(h, s, Leaving(Task(Unsubscribe, false, order)));
    OneThenMore(h, Destroy(s, order), begun, Sections(s, |order|) + [Finish(s)]);
    var looped;
    looped, k := LoopEndsAlone(begun, s, Unsubscribe, order);
    assert k.sess == SetPhase(h, s, Gone).sess;
  }

  lemma DepartedSets(h: Hub, s: Sid, order: seq<Topic>, after: Index<Sid>)
    requires s in h.sess && s in h.ix.topics && LocalAt(h, s) && h.sess[s].phase.Quiet?
    requires Elements(order) == h.ix.topics[s] && CanRun(h.ix, s, order) && after == Apply(h.ix, Unsubscribe, s, order)
    ensures after.members.Keys == h.ix.members.Keys
    ensures forall t :: t in h.ix.members ==> after.members[t] == h.ix.members[t] - {s}
    ensures forall r :: r in h.ix.topics && r != s ==> r in after.topics && after.topics[r] == h.ix.topics[r]
  {
    ApplySets(h.ix, Unsubscribe, s, order);
    forall t | t in h.ix.members
      ensures after.members[t] == h.ix.members[t] - {s}
    {
      assert t in order <==> t in Elements(order);
      assert t in Joined(h.ix, s) <==> s in h.ix.members[t];
    }
  }

  // ---------- connections ----------

  /** Nothing but the session's own entry, its empty record and its connection is new. */
  predicate OnlyNewcomer(h: Hub, k: Hub, s: Sid, phase: Phase, connected: bool) {
    k == h.(sess := h.sess[s := Session(phase, [], WriteQueue.Fresh())], ix := h.ix.(topics := h.ix.topics[s := {}]),
            conns := if connected then h.conns + {s} else h.conns)
  }

  /** A new session's handshake can succeed, and it then reads and is connected, or fail, and it then stays quiet. */
  lemma NewcomerAlone(h: Hub, s: Sid) returns (reading: Hub, quiet: Hub)
    requires s !in h.sess
    ensures ExecFrom(h, [] + [Connect(s)] + [Action.Accepted(s)]) == Some(reading)
    ensures OnlyNewcomer(h, reading, s, Reading, true)
    ensures ExecFrom(h, [] + [Connect(s)] + [AcceptFailed(s)]) == Some(quiet)
    ensures OnlyNewcomer(h, quiet, s, Quiet, false)
  {
    var connected := Next(h, Connect(s)).value;
    reading := Next(connected, Action.Accepted(s)).value;
    quiet := Next(connected, AcceptFailed(s)).value;
    ExecStep(h, [], Connect(s));
    ExecStep(h, [] + [Connect(s)], Action.Accepted(s));
    ExecStep(h, [] + [Connect(s)], AcceptFailed(s));
  }

  /** A reading session whose read fails goes quiet and keeps everything else. */
  lemma ReadCanFail(h: Hub, s: Sid)
    requires InPhase(h, s, Reading)
    ensures Next(h, ReadFailed(s)) == Some(h.(sess := h.sess[s := h.sess[s].(phase := Quiet)]))
  {
  }
}
