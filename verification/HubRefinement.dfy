/**
 The mutexes do their job: every run of the lock-level machine is, with its
 critical sections made whole, a run of the atomic hub, and every continuation of
 the one a continuation of the other. The theorems of HubRuns hold of it, also
 those that speak of what follows; some are read off in memory here.
 */
module HubRefinement {
  import opened Wrappers
  import opened TopicIndex
  import opened HubSystem
  import opened HubLocks
  import opened HubMutexes
  import HubRuns

  // ---------- actions that do not read membership ----------

  /** Only the symbol's own section and the snapshot look inside the membership sets. */
  lemma MembersDoNotMatter(h: Hub, members: map<Topic, set<Sid>>, a: Action)
    requires members.Keys == h.ix.members.Keys && !a.CommitTopic? && !a.Snapshot?
    ensures Next(WithMembers(h, members), a)
         == match Next(h, a) case None => None case Some(k) => Some(WithMembers(k, members))
  {
    match a {
      case MarkTopic(s) => MarkIgnoresMembers(h, members, s);
      case Finish(s) => FinishIgnoresMembers(h, members, s);
      case Destroy(s, _) => RefsIgnoreMembers(h, members);
      case Lock => LockIgnoresMembers(h, members);
      case _ =>
    }
  }

  lemma MembersStay(h: Hub, a: Action, k: Hub)
    requires !a.CommitTopic? && !a.Snapshot? && Next(h, a) == Some(k)
    ensures k.ix.members == h.ix.members
  {
  }

  lemma MarkIgnoresMembers(h: Hub, members: map<Topic, set<Sid>>, s: Sid)
    requires members.Keys == h.ix.members.Keys
    ensures MarkStep(WithMembers(h, members), s)
         == match MarkStep(h, s) case None => None case Some(k) => Some(WithMembers(k, members))
  {
  }

  lemma FinishIgnoresMembers(h: Hub, members: map<Topic, set<Sid>>, s: Sid)
    requires members.Keys == h.ix.members.Keys
    ensures FinishStep(WithMembers(h, members), s)
         == match FinishStep(h, s) case None => None case Some(k) => Some(WithMembers(k, members))
  {
  }

  lemma LockIgnoresMembers(h: Hub, members: map<Topic, set<Sid>>)
    requires members.Keys == h.ix.members.Keys
    ensures LockStep(WithMembers(h, members))
         == match LockStep(h) case None => None case Some(k) => Some(WithMembers(k, members))
  {
    RefsIgnoreMembers(h, members);
  }

  lemma RefsIgnoreMembers(h: Hub, members: map<Topic, set<Sid>>)
    ensures forall s :: s in h.sess ==> (HasRef(WithMembers(h, members), s) <==> HasRef(h, s))
  {
  }

  /** A section that has not decided yet, or no longer lags, sees the settled membership in memory. */
  lemma NobodyLags(f: Machine, who: Holder, t: Topic)
    requires LockInv(f) && Holds(f, who) == Some(SymbolMutex(t))
    requires who.Worker? ==> !Lags(f.at[who.s], t)
    ensures Lagging(f, t) == {}
  {
    if s :| s in Lagging(f, t) {
      OneInside(f, who, Worker(s), SymbolMutex(t));
    }
  }

  lemma OnlyOneLags(f: Machine, s: Sid, t: Topic)
    requires LockInv(f) && s in f.at && Lags(f.at[s], t)
    ensures Lagging(f, t) == {s}
  {
    forall r | r in Lagging(f, t)
      ensures r == s
    {
      OneInside(f, Worker(r), Worker(s), SymbolMutex(t));
    }
  }

  // ---------- each step, seen from outside ----------

  /** The step is invisible, or it is one action of the atomic hub. */
  ghost predicate Simulated(f: Machine, g: Machine) {
    Abs(g) == Abs(f) || exists a :: Next(Abs(f), a) == Some(Abs(g))
  }

  /** Memory and lags changed together, so that the settled membership did not. */
  lemma QuietMove(f: Machine, g: Machine)
    requires g.mem.(ix := f.mem.ix, sess := f.mem.sess) == f.mem.(ix := f.mem.ix, sess := f.mem.sess)
    requires g.mem.ix.(members := f.mem.ix.members) == f.mem.ix && g.mem.sess == f.mem.sess
    requires g.mem.ix.members.Keys == f.mem.ix.members.Keys
    requires forall t :: t in f.mem.ix.members ==> g.mem.ix.members[t] + Lagging(g, t) == f.mem.ix.members[t] + Lagging(f, t)
    ensures Abs(g) == Abs(f)
  {
    assert Settle(g) == Settle(f);
  }

  lemma LagMoves(f: Machine, s: Sid, p: Point, t: Topic)
    ensures Lagging(f.(at := f.at[s := p]), t) == Lagging(f, t) - {s} + (if Lags(p, t) then {s} else {})
  {
  }

  /** An action that reads no membership, run on memory, is the same action of the atomic hub. */
  lemma PlainAction(f: Machine, a: Action, g: Machine)
    requires !a.CommitTopic? && !a.Snapshot? && Next(f.mem, a) == Some(g.mem)
    requires forall t :: Lagging(g, t) == Lagging(f, t)
    ensures Next(Abs(f), a) == Some(Abs(g))
  {
    MembersDoNotMatter(f.mem, Settle(f), a);
    MembersStay(f.mem, a, g.mem);
    assert Settle(g) == Settle(f);
  }

  lemma PointMoved(f: Machine, g: Machine, s: Sid, t: Topic)
    requires s in g.at && g.at == f.at[s := g.at[s]]
    ensures Lagging(g, t) == Lagging(f, t) - {s} + (if Lags(g.at[s], t) then {s} else {})
  {
    LagMoves(f, s, g.at[s], t);
    assert Lagging(g, t) == Lagging(f.(at := g.at), t);
  }

  lemma AcquireSimulated(f: Machine, s: Sid, g: Machine)
    requires LockInv(f) && AcquireStep(f, s) == Some(g)
    ensures Abs(g) == Abs(f)
  {
    forall t | t in f.mem.ix.members
      ensures Lagging(g, t) == Lagging(f, t)
    {
      PointMoved(f, g, s, t);
    }
    QuietMove(f, g);
  }

  lemma ReleaseSimulated(f: Machine, s: Sid, g: Machine)
    requires LockInv(f) && ReleaseStep(f, s) == Some(g)
    ensures Abs(g) == Abs(f)
  {
    forall t | t in f.mem.ix.members
      ensures Lagging(g, t) == Lagging(f, t)
    {
      PointMoved(f, g, s, t);
    }
    QuietMove(f, g);
  }

  lemma WriteSimulated(f: Machine, s: Sid, a: Action, g: Machine)
    requires LockInv(f) && s in f.at && MutexAt(f.at[s]) == Some(HubMutex)
    requires !a.CommitTopic? && !a.Snapshot? && WriteStep(f, s, a) == Some(g)
    ensures Next(Abs(f), a) == Some(Abs(g))
  {
    forall t
      ensures Lagging(g, t) == Lagging(f, t)
    {
      PointMoved(f, g, s, t);
    }
    PlainAction(f, a, g);
  }

  /** One topic's settled membership changed, the rest did not. */
  lemma SettlesAt(f: Machine, g: Machine, t: Topic, sessions: set<Sid>)
    requires t in f.mem.ix.members && g.mem.ix.members.Keys == f.mem.ix.members.Keys
    requires g.mem.ix.members[t] + Lagging(g, t) == sessions
    requires forall u :: u in f.mem.ix.members && u != t ==>
      g.mem.ix.members[u] == f.mem.ix.members[u] && Lagging(g, u) == Lagging(f, u)
    ensures Settle(g) == Settle(f)[t := sessions]
  {
  }

  /** The settled membership around the decision of a subscribe. */
  lemma CheckSettles(f: Machine, s: Sid, t: Topic, g: Machine)
    requires LockInv(f) && s in f.at && f.at[s] == Entering(t)
    requires Looping(f.mem, s) && CheckStep(f, s, t) == Some(g)
    ensures Abs(f).ix.members[t] == f.mem.ix.members[t]
    ensures Settle(g) == Settle(f)[t := f.mem.ix.members[t] + {s}]
  {
    NobodyLags(f, Worker(s), t);
    forall u
      ensures Lagging(g, u) == if u == t then {s} else Lagging(f, u)
    {
      PointMoved(f, g, s, u);
    }
    SettlesAt(f, g, t, f.mem.ix.members[t] + {s});
  }

  /** Deciding a subscribe: the whole section happens here. */
  lemma CheckSimulated(f: Machine, s: Sid, t: Topic, g: Machine)
    requires LockInv(f) && s in f.at && f.at[s] == Entering(t)
    requires Looping(f.mem, s) && f.mem.sess[s].phase.task.kind == Subscribe && CheckStep(f, s, t) == Some(g)
    ensures Next(Abs(f), CommitTopic(s)) == Some(Abs(g))
  {
    assert PointFits(f, s);
    CheckSettles(f, s, t, g);
    assert Edge(Abs(f).ix, Subscribe, s, t) <==> f.mem.ix.members[t] == {};
    assert Commit(Abs(f).ix, Subscribe, s, t) == Abs(g).ix;
  }

  /** Inserting afterwards changes nothing the settled membership did not already show. */
  lemma InsertSimulated(f: Machine, s: Sid, t: Topic, g: Machine)
    requires LockInv(f) && s in f.at && f.at[s] == Checked(t) && WorkStep(f, s) == Some(g)
    ensures Abs(g) == Abs(f)
  {
    OnlyOneLags(f, s, t);
    forall u | u in f.mem.ix.members
      ensures g.mem.ix.members[u] + Lagging(g, u) == f.mem.ix.members[u] + Lagging(f, u)
    {
      PointMoved(f, g, s, u);
    }
    QuietMove(f, g);
  }

  /** Erasing early is hidden until the section decides. */
  lemma EraseSimulated(f: Machine, s: Sid, t: Topic, g: Machine)
    requires LockInv(f) && s in f.at && f.at[s] == Entering(t) && EraseStep(f, s, t) == Some(g)
    ensures Abs(g) == Abs(f)
  {
    NobodyLags(f, Worker(s), t);
    forall u | u in f.mem.ix.members
      ensures g.mem.ix.members[u] + Lagging(g, u) == f.mem.ix.members[u] + Lagging(f, u)
    {
      PointMoved(f, g, s, u);
    }
    QuietMove(f, g);
  }

  /** The settled membership around the decision of an unsubscribe. */
  lemma ReportSettles(f: Machine, s: Sid, t: Topic, found: bool, g: Machine)
    requires LockInv(f) && s in f.at && f.at[s] == Erased(t, found)
    requires Looping(f.mem, s) && ReportStep(f, s, t, found) == Some(g)
    ensures Abs(f).ix.members[t] == f.mem.ix.members[t] + (if found then {s} else {})
    ensures Settle(g) == Settle(f)[t := f.mem.ix.members[t]]
  {
    if found {
      OnlyOneLags(f, s, t);
    } else {
      NobodyLags(f, Worker(s), t);
    }
    forall u
      ensures Lagging(g, u) == if u == t then {} else Lagging(f, u)
    {
      PointMoved(f, g, s, u);
    }
    assert f.mem.ix.members[t] + {} == f.mem.ix.members[t];
    SettlesAt(f, g, t, f.mem.ix.members[t]);
  }

  /** Deciding an unsubscribe: the whole section happens here. */
  lemma ReportSimulated(f: Machine, s: Sid, t: Topic, found: bool, g: Machine)
    requires LockInv(f) && s in f.at && f.at[s] == Erased(t, found)
    requires Looping(f.mem, s) && ReportStep(f, s, t, found) == Some(g)
    ensures Next(Abs(f), CommitTopic(s)) == Some(Abs(g))
  {
    assert PointFits(f, s);
    ReportSettles(f, s, t, found, g);
    assert Abs(f).ix.members[t] - {s} == f.mem.ix.members[t];
    assert Edge(Abs(f).ix, Unsubscribe, s, t) <==> found && f.mem.ix.members[t] == {};
    assert Commit(Abs(f).ix, Unsubscribe, s, t) == Abs(g).ix;
  }

  /** Letting go of the symbol's mutex: the plan is the snapshot. */
  lemma SnapshotSimulated(f: Machine, g: Machine)
    requires LockInv(f) && MicroNext(f, PubRelease) == Some(g)
    ensures Next(Abs(f), Snapshot(f.pubAt.plan)) == Some(Abs(g))
  {
    var t := f.pubAt.t;
    assert f.pubAt.plan[..f.pubAt.copied] == f.pubAt.plan;
    NobodyLags(f, PublisherLoop, t);
    assert Abs(f).ix.members[t] == f.mem.ix.members[t];
    assert Settle(g) == Settle(f);
  }

  lemma WorkSimulated(f: Machine, s: Sid, g: Machine)
    requires LockInv(f) && WorkStep(f, s) == Some(g)
    ensures Simulated(f, g)
  {
    match f.at[s] {
      case Joining => WriteSimulated(f, s, Action.Accepted(s), g);
      case Marking => WriteSimulated(f, s, MarkTopic(s), g);
      case Erasing => WriteSimulated(f, s, Finish(s), g);
      case Entering(t) =>
        if f.mem.sess[s].phase.task.kind == Subscribe {
          CheckSimulated(f, s, t, g);
        } else {
          EraseSimulated(f, s, t, g);
        }
      case Checked(t) => InsertSimulated(f, s, t, g);
      case Erased(t, found) => ReportSimulated(f, s, t, found, g);
    }
  }

  lemma LocklessSimulated(f: Machine, a: Action, g: Machine)
    requires LockInv(f) && Lockless(f, a) && Next(f.mem, a) == Some(g.mem)
    requires g.at == if a.Connect? then f.at[a.s := Outside] else f.at
    ensures Next(Abs(f), a) == Some(Abs(g))
  {
    forall t
      ensures Lagging(g, t) == Lagging(f, t)
    {
      if a.Connect? {
        PointMoved(f, g, a.s, t);
      }
    }
    PlainAction(f, a, g);
  }

  lemma StepSimulated(f: Machine, u: Micro, g: Machine)
    requires LockInv(f) && MicroNext(f, u) == Some(g)
    ensures Simulated(f, g)
  {
    match u {
      case Acquire(s) => AcquireSimulated(f, s, g);
      case Work(s) => WorkSimulated(f, s, g);
      case Release(s) => ReleaseSimulated(f, s, g);
      case PubAcquire(plan) => assert Settle(g) == Settle(f);
      case PubCopy => assert Settle(g) == Settle(f);
      case PubRelease => SnapshotSimulated(f, g);
      case PubDestroys(s, order) => LocklessSimulated(f, Destroy(s, order), g);
      case Free(a) => LocklessSimulated(f, a, g);
    }
  }

  // ---------- whole runs ----------

  lemma BootSettled(domain: set<Topic>)
    ensures LockInv(Boot(domain)) && Abs(Boot(domain)) == Init(domain)
  {
    var f := Boot(domain);
    assert forall t :: t in f.mem.ix.members ==> Lagging(f, t) == {} && f.mem.ix.members[t] + {} == f.mem.ix.members[t];
    assert Settle(f) == f.mem.ix.members;
  }

  /** From any state, whatever the lock-level machine goes on to do the atomic hub can do. */
  lemma {:induction false} ContinuationsAreHubContinuations(f: Machine, more: seq<Micro>, g: Machine)
    requires LockInv(f) && MicroFrom(f, more) == Some(g)
    ensures LockInv(g)
    ensures exists after :: ExecFrom(Abs(f), after) == Some(Abs(g))
  {
    if more == [] {
      assert ExecFrom(Abs(f), []) == Some(Abs(g));
    } else {
      var before := MicroFrom(f, more[..|more| - 1]).value;
      var u := more[|more| - 1];
      ContinuationsAreHubContinuations(f, more[..|more| - 1], before);
      StepKeepsLocks(before, u, g);
      StepSimulated(before, u, g);
      var after :| ExecFrom(Abs(f), after) == Some(Abs(before));
      if Abs(g) != Abs(before) {
        var a :| Next(Abs(before), a) == Some(Abs(g));
        var longer := after + [a];
        assert longer[..|longer| - 1] == after;
        assert ExecFrom(Abs(f), longer) == Some(Abs(g));
      }
    }
  }

  /** Every run of the lock-level machine is a run of the atomic hub, and so is every continuation of it. */
  lemma LockedRunsAreHubRuns(domain: set<Topic>, run: seq<Micro>, f: Machine, more: seq<Micro>, g: Machine)
    requires MicroRun(domain, run) == Some(f) && MicroFrom(f, more) == Some(g)
    ensures LockInv(f) && LockInv(g)
    ensures exists actions :: Exec(domain, actions) == Some(Abs(f))
    ensures exists after :: ExecFrom(Abs(f), after) == Some(Abs(g))
  {
    BootSettled(domain);
    ContinuationsAreHubContinuations(Boot(domain), run, f);
    var actions :| ExecFrom(Abs(Boot(domain)), actions) == Some(Abs(f));
    assert Exec(domain, actions) == Some(Abs(f));
    ContinuationsAreHubContinuations(f, more, g);
  }

  // ---------- the theorems of the atomic hub, in memory ----------

  /** A symbol's set lags only while a session is inside it, past its decision or short of it. */
  lemma OnlyASessionInsideLags(f: Machine, t: Topic)
    requires LockInv(f)
    requires SymbolMutex(t) !in f.held || f.held[SymbolMutex(t)].PublisherLoop?
    ensures Lagging(f, t) == {}
  {
    assert forall s :: s in f.at && Lags(f.at[s], t) ==> Holds(f, Worker(s)) == Some(SymbolMutex(t));
  }

  /**
   The two-way index, read in memory at any moment, whoever is inside the symbol:
   the directions agree except while the session itself is midway through the
   topic or is about to insert itself.
   */
  lemma MemoryIndexIsTwoWay(domain: set<Topic>, run: seq<Micro>, f: Machine, s: Sid, t: Topic)
    requires MicroRun(domain, run) == Some(f) && s in f.mem.sess && t in domain
    ensures t in f.mem.ix.members && s in f.mem.ix.topics && s in f.at
    ensures HubRuns.Midway(f.mem, s) != Some(t) && !Lags(f.at[s], t)
        ==> (s in f.mem.ix.members[t] <==> t in f.mem.ix.topics[s])
    ensures HubRuns.Midway(f.mem, s) != Some(t) && Lags(f.at[s], t) ==> t in f.mem.ix.topics[s]
    ensures HubRuns.Midway(f.mem, s) == Some(t) ==> (t in f.mem.ix.topics[s] <==> f.mem.sess[s].phase.task.kind == Subscribe)
  {
    LockedRunsAreHubRuns(domain, run, f, [], f);
    var actions :| Exec(domain, actions) == Some(Abs(f));
    HubRuns.IndexIsTwoWay(domain, actions, Abs(f), s, t);
    MemoryView(f, s, t);
  }

  /** What memory and the atomic hub show of one session and one topic. */
  lemma MemoryView(f: Machine, s: Sid, t: Topic)
    requires LockInv(f) && s in f.at && t in Abs(f).ix.members
    ensures t in f.mem.ix.members && HubRuns.Midway(Abs(f), s) == HubRuns.Midway(f.mem, s)
    ensures Abs(f).ix.members[t] == f.mem.ix.members[t] + Lagging(f, t)
    ensures s in Lagging(f, t) <==> Lags(f.at[s], t)
  {
  }

  /** The subscription law, read in memory at any moment; while a section lags the topic still counts as having sessions. */
  lemma MemorySubscriptionFollowsSessions(domain: set<Topic>, run: seq<Micro>, f: Machine, t: Topic)
    requires MicroRun(domain, run) == Some(f) && t in domain
    ensures t in f.mem.ix.members
    ensures SymbolMutex(t) !in f.held || f.held[SymbolMutex(t)].PublisherLoop? ==> Lagging(f, t) == {}
    ensures Lagging(f, t) == {} ==> (t in HubRuns.Due(f.mem) <==> (f.mem.ix.members[t] != {}) != (t in f.mem.trace.skew))
    ensures Lagging(f, t) != {} ==> (t in HubRuns.Due(f.mem) <==> t !in f.mem.trace.skew)
  {
    LockedRunsAreHubRuns(domain, run, f, [], f);
    var actions :| Exec(domain, actions) == Some(Abs(f));
    HubRuns.ReachableInv(domain, actions, Abs(f));
    HubRuns.SubscriptionFollowsSessions(domain, actions, Abs(f));
    MemoryDue(f, t);
    if SymbolMutex(t) !in f.held || f.held[SymbolMutex(t)].PublisherLoop? {
      OnlyASessionInsideLags(f, t);
    }
  }

  lemma MemoryDue(f: Machine, t: Topic)
    requires t in Abs(f).ix.members
    ensures t in f.mem.ix.members && HubRuns.Due(Abs(f)) == HubRuns.Due(f.mem) && Abs(f).trace == f.mem.trace
    ensures t in HubRuns.Wanted(Abs(f)) <==> f.mem.ix.members[t] + Lagging(f, t) != {}
  {
  }

  /**
   After leave has freed a session, in that memory and in every later one: no
   symbol's set holds it, it is not among the connections, no snapshot taken since
   contains it, and the publisher is not about to copy its pointer.
   */
  lemma MemoryLeaveIsFinal(domain: set<Topic>, run: seq<Micro>, f: Machine, s: Sid, more: seq<Micro>, g: Machine)
    requires MicroRun(domain, run) == Some(f) && InPhase(f.mem, s, Gone)
    requires MicroFrom(f, more) == Some(g)
    ensures InPhase(g.mem, s, Gone)
    ensures s !in g.mem.conns && forall t :: t in g.mem.ix.members ==> s !in g.mem.ix.members[t]
    ensures g.pubAt.Copying? ==> s !in g.pubAt.plan
    ensures |f.mem.trace.log| <= |g.mem.trace.log|
    ensures forall i :: |f.mem.trace.log| <= i < |g.mem.trace.log| ==> s !in g.mem.trace.log[i].snapshot
  {
    LockedRunsAreHubRuns(domain, run, f, more, g);
    var actions :| Exec(domain, actions) == Some(Abs(f));
    var after :| ExecFrom(Abs(f), after) == Some(Abs(g));
    HubRuns.LeaveIsFinal(domain, actions, Abs(f), s, after, Abs(g));
    forall t | t in g.mem.ix.members
      ensures s !in g.mem.ix.members[t]
    {
      assert s !in Abs(g).ix.members[t];
    }
    if g.pubAt.Copying? {
      assert forall r :: r in g.pubAt.plan ==> r in Elements(g.pubAt.plan);
    }
  }
}
