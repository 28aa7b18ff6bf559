/**
 The two-way index under interleaving. Session, subscriber and publisher actions
 are mixed freely; the two directions may disagree only for the one topic a
 session is midway through.

 The invariant is local to a session: it relates the session's phase, its own
 record of topics and the symbols that list it. Each action is then one small
 lemma about the acting session, and leaves the other sessions' view alone.
 */
module HubIndex {
  import opened Wrappers
  import opened TopicIndex
  import opened HubSystem

  /** The symbols whose membership set lists the session. */
  function Joined(ix: Index<Sid>, s: Sid): set<Topic> {
    set t | t in ix.members && s in ix.members[t]
  }

  /** The topics a loop still has to remove from the session's own record. */
  function Todo(task: Task): seq<Topic> {
    if task.marked && task.rest != [] then task.rest[1..] else task.rest
  }

  predicate LoopLocal(task: Task, mine: set<Topic>, joined: set<Topic>, domain: set<Topic>) {
    && (forall t :: t in task.rest ==> t in domain)
    && if !task.marked then mine == joined
       else
         && task.rest != []
         && (task.rest[0] in mine <==> task.kind == Subscribe)
         && mine - {task.rest[0]} == joined - {task.rest[0]}
  }

  /** The index invariant as one session sees it. */
  predicate Local(phase: Phase, mine: set<Topic>, joined: set<Topic>, connected: bool, domain: set<Topic>) {
    && mine <= domain
    && match phase
       case Accepting => mine == joined && !connected
       case Reading => mine == joined && connected
       case Serving(task) => LoopLocal(task, mine, joined, domain) && connected
       case Leaving(task) =>
         LoopLocal(task, mine, joined, domain) && task.kind == Unsubscribe && forall t :: t in mine ==> t in Todo(task)
       case Gone => mine == {} && joined == {} && !connected
       case Quiet => mine == joined
  }

  predicate LocalAt(h: Hub, s: Sid)
    requires s in h.sess && s in h.ix.topics
  {
    Local(h.sess[s].phase, h.ix.topics[s], Joined(h.ix, s), s in h.conns, h.ix.members.Keys)
  }

  ghost predicate Typed(h: Hub) {
    && h.ix.topics.Keys == h.sess.Keys
    && h.conns <= h.sess.Keys
    && forall t :: t in h.ix.members ==> h.ix.members[t] <= h.sess.Keys
  }

  ghost predicate IndexInv(h: Hub) {
    Typed(h) && forall s :: s in h.sess ==> LocalAt(h, s)
  }

  // ---------- one session's view ----------

  lemma MarkIsLocal(task: Task, mine: set<Topic>, joined: set<Topic>, domain: set<Topic>)
    requires LoopLocal(task, mine, joined, domain) && mine <= domain && !task.marked && task.rest != []
    ensures var t := task.rest[0];
      var after := if task.kind == Subscribe then mine + {t} else mine - {t};
      && LoopLocal(task.(marked := true), after, joined, domain) && after <= domain
      && (task.kind == Unsubscribe && (forall u :: u in mine ==> u in Todo(task))
          ==> forall u :: u in after ==> u in Todo(task.(marked := true)))
  {
    assert task.rest == [task.rest[0]] + task.rest[1..];
  }

  lemma CommitIsLocal(task: Task, mine: set<Topic>, joined: set<Topic>, domain: set<Topic>)
    requires LoopLocal(task, mine, joined, domain) && task.marked
    ensures var t := task.rest[0];
      var after := if task.kind == Subscribe then joined + {t} else joined - {t};
      LoopLocal(Task(task.kind, false, task.rest[1..]), mine, after, domain)
  {
    var t := task.rest[0];
    if task.kind == Subscribe {
      assert mine == (mine - {t}) + {t};
      assert joined + {t} == (joined - {t}) + {t};
    } else {
      assert mine == mine - {t};
    }
  }

  lemma JoinedAfterCommit(ix: Index<Sid>, kind: MsgType, s: Sid, t: Topic, r: Sid)
    requires t in ix.members
    ensures Joined(Commit(ix, kind, s, t), r)
         == if r != s then Joined(ix, r) else if kind == Subscribe then Joined(ix, r) + {t} else Joined(ix, r) - {t}
  {
  }

  // ---------- each action ----------

  /** The index and every phase are as before. */
  predicate SameView(h: Hub, k: Hub) {
    && k.sess.Keys == h.sess.Keys && k.conns == h.conns
    && k.ix.members == h.ix.members && k.ix.topics == h.ix.topics
    && forall s :: s in h.sess ==> k.sess[s].phase == h.sess[s].phase
  }

  lemma SameViewKeeps(h: Hub, k: Hub)
    requires IndexInv(h) && SameView(h, k)
    ensures IndexInv(k)
  {
    forall s | s in k.sess
      ensures LocalAt(k, s)
    {
      assert LocalAt(h, s);
      assert Joined(k.ix, s) == Joined(h.ix, s);
    }
  }

  lemma SetPhaseKeeps(h: Hub, s: Sid, p: Phase, conns: set<Sid>)
    requires IndexInv(h) && s in h.sess
    requires conns == h.conns || conns == h.conns + {s} || conns == h.conns - {s}
    requires Local(p, h.ix.topics[s], Joined(h.ix, s), s in conns, h.ix.members.Keys)
    ensures IndexInv(SetPhase(h, s, p).(conns := conns))
  {
    var k := SetPhase(h, s, p).(conns := conns);
    forall r | r in k.sess
      ensures LocalAt(k, r)
    {
      assert LocalAt(h, r);
    }
  }

  lemma ConnectKeeps(h: Hub, s: Sid, k: Hub)
    requires IndexInv(h) && Next(h, Connect(s)) == Some(k)
    ensures IndexInv(k)
  {
    forall r | r in k.sess
      ensures LocalAt(k, r)
    {
      assert Joined(k.ix, r) == Joined(h.ix, r);
      if r != s {
        assert LocalAt(h, r);
      }
    }
  }

  lemma MarkKeeps(h: Hub, s: Sid, k: Hub)
    requires IndexInv(h) && MarkStep(h, s) == Some(k)
    ensures IndexInv(k)
  {
    var task := h.sess[s].phase.task;
    assert LocalAt(h, s);
    MarkIsLocal(task, h.ix.topics[s], Joined(h.ix, s), h.ix.members.Keys);
    forall r | r in k.sess
      ensures LocalAt(k, r)
    {
      assert LocalAt(h, r);
      assert Joined(k.ix, r) == Joined(h.ix, r);
    }
  }

  lemma CommitKeeps(h: Hub, s: Sid, k: Hub)
    requires IndexInv(h) && CommitStep(h, s) == Some(k)
    ensures IndexInv(k)
  {
    var task := h.sess[s].phase.task;
    assert LocalAt(h, s);
    CommitIsLocal(task, h.ix.topics[s], Joined(h.ix, s), h.ix.members.Keys);
    forall r | r in k.sess
      ensures LocalAt(k, r)
    {
      assert LocalAt(h, r);
      JoinedAfterCommit(h.ix, task.kind, s, task.rest[0], r);
    }
  }

  lemma FinishKeeps(h: Hub, s: Sid, k: Hub)
    requires IndexInv(h) && FinishStep(h, s) == Some(k)
    ensures IndexInv(k)
  {
    assert LocalAt(h, s);
    var phase := h.sess[s].phase;
    if phase.Serving? {
      SetPhaseKeeps(h, s, Reading, h.conns);
    } else {
      assert h.ix.topics[s] == {};
      SetPhaseKeeps(h, s, Gone, h.conns - {s});
    }
  }

  lemma DestroyKeeps(h: Hub, s: Sid, order: seq<Topic>, k: Hub)
    requires IndexInv(h) && Next(h, Destroy(s, order)) == Some(k)
    ensures IndexInv(k)
  {
    assert LocalAt(h, s);
    forall t
      ensures t in order <==> t in h.ix.topics[s]
    {
      assert t in order <==> t in Elements(order);
    }
    SetPhaseKeeps(h, s, Leaving(Task(Unsubscribe, false, order)), h.conns);
  }

  lemma PhaseKeeps(h: Hub, a: Action, k: Hub)
    requires a.AcceptFailed? || a.Accepted? || a.ReadFailed? || a.Request?
    requires IndexInv(h) && Next(h, a) == Some(k)
    ensures IndexInv(k)
  {
    assert LocalAt(h, a.s);
    match a
    case AcceptFailed(s) => SetPhaseKeeps(h, s, Quiet, h.conns);
    case Accepted(s) => SetPhaseKeeps(h, s, Reading, h.conns + {s});
    case ReadFailed(s) => SetPhaseKeeps(h, s, Quiet, h.conns);
    case Request(s, kind, list) => SetPhaseKeeps(h, s, Serving(Task(kind, false, list)), h.conns);
  }

  lemma NextKeepsIndex(h: Hub, a: Action, k: Hub)
    requires IndexInv(h) && Next(h, a) == Some(k)
    ensures IndexInv(k)
  {
    match a {
      case Connect(s) => ConnectKeeps(h, s, k);
      case AcceptFailed(s) => PhaseKeeps(h, a, k);
      case Accepted(s) => PhaseKeeps(h, a, k);
      case ReadFailed(s) => PhaseKeeps(h, a, k);
      case Request(s, kind, list) => PhaseKeeps(h, a, k);
      case MarkTopic(s) => MarkKeeps(h, s, k);
      case CommitTopic(s) => CommitKeeps(h, s, k);
      case Finish(s) => FinishKeeps(h, s, k);
      case Destroy(s, order) => DestroyKeeps(h, s, order, k);
      case _ => SameViewKeeps(h, k);
    }
  }
}
