/**
 The mutex invariant of the lock-level machine: every mutex has the holder the
 code says it has, and what a section relies on stays put until it is through.
 */
module HubMutexes {
  import opened Wrappers
  import opened TopicIndex
  import opened HubSystem
  import opened HubLocks

  // ---------- exclusion ----------

  lemma ExclusionAfterAcquire(f: Machine, g: Machine, who: Holder, m: Mutex)
    requires Exclusive(f) && m !in f.held && Holds(f, who) == None
    requires g.held == f.held[m := who]
    requires forall w :: Holds(g, w) == if w == who then Some(m) else Holds(f, w)
    ensures Exclusive(g)
  {
    forall n | n in g.held
      ensures Holds(g, g.held[n]) == Some(n)
    {
      if n != m {
        assert Holds(f, f.held[n]) == Some(n);
      }
    }
  }

  lemma ExclusionAfterRelease(f: Machine, g: Machine, who: Holder, m: Mutex)
    requires Exclusive(f) && Holds(f, who) == Some(m)
    requires g.held == f.held - {m}
    requires forall w :: Holds(g, w) == if w == who then None else Holds(f, w)
    ensures Exclusive(g)
  {
    forall n | n in g.held
      ensures Holds(g, g.held[n]) == Some(n)
    {
      assert Holds(f, f.held[n]) == Some(n);
    }
    forall w, n | Holds(g, w) == Some(n)
      ensures n in g.held && g.held[n] == w
    {
      assert Holds(f, w) == Some(n);
    }
  }

  lemma ExclusionInside(f: Machine, g: Machine)
    requires Exclusive(f) && g.held == f.held && forall w :: Holds(g, w) == Holds(f, w)
    ensures Exclusive(g)
  {
  }

  /** Two sections on the same symbol are never entered together. */
  lemma OneInside(f: Machine, a: Holder, b: Holder, m: Mutex)
    requires Exclusive(f) && Holds(f, a) == Some(m) && Holds(f, b) == Some(m)
    ensures a == b
  {
  }

  // ---------- what a section relies on ----------

  /** Others may change memory as long as they leave alone the session's phase and the set it has locked. */
  lemma PointStays(f: Machine, g: Machine, r: Sid)
    requires r in f.at && r in g.at && g.at[r] == f.at[r] && PointFits(f, r)
    requires r in f.mem.sess && r in g.mem.sess && g.mem.sess[r].phase == f.mem.sess[r].phase
    requires g.mem.ix.members.Keys == f.mem.ix.members.Keys
    requires forall t :: t in f.mem.ix.members && MutexAt(f.at[r]) == Some(SymbolMutex(t)) ==> g.mem.ix.members[t] == f.mem.ix.members[t]
    ensures PointFits(g, r)
  {
  }

  lemma PlanStays(f: Machine, g: Machine)
    requires PlanFits(f) && g.pubAt == f.pubAt && g.mem.pub == f.mem.pub && g.mem.ix.members.Keys == f.mem.ix.members.Keys
    requires f.pubAt.Copying? && f.pubAt.t in f.mem.ix.members ==> g.mem.ix.members[f.pubAt.t] == f.mem.ix.members[f.pubAt.t]
    requires f.pubAt.Copying? && PublisherFree(f) ==> PublisherFree(g)
    ensures PlanFits(g)
  {
  }

  /** A step of session s inside its section: only s moves, and at most the set it has locked changes. */
  lemma WorkKeeps(f: Machine, s: Sid, g: Machine)
    requires LockInv(f) && s in f.at && f.at[s] != Outside
    requires g.held == f.held && g.pubAt == f.pubAt && g.dying == f.dying && g.mem.pub == f.mem.pub
    requires s in g.at && g.at == f.at[s := g.at[s]] && MutexAt(g.at[s]) == MutexAt(f.at[s])
    requires g.mem.sess.Keys == f.mem.sess.Keys && forall r :: r in f.mem.sess && r != s ==> g.mem.sess[r] == f.mem.sess[r]
    requires g.mem.ix.members.Keys == f.mem.ix.members.Keys
    requires forall t :: t in f.mem.ix.members && MutexAt(f.at[s]) != Some(SymbolMutex(t)) ==> g.mem.ix.members[t] == f.mem.ix.members[t]
    requires PointFits(g, s)
    ensures LockInv(g)
  {
    assert forall w :: Holds(g, w) == Holds(f, w);
    ExclusionInside(f, g);
    forall r | r in g.at
      ensures PointFits(g, r)
    {
      if r != s {
        forall t | t in f.mem.ix.members && MutexAt(f.at[r]) == Some(SymbolMutex(t))
          ensures g.mem.ix.members[t] == f.mem.ix.members[t]
        {
          if MutexAt(f.at[s]) == Some(SymbolMutex(t)) {
            OneInside(f, Worker(r), Worker(s), SymbolMutex(t));
          }
        }
        PointStays(f, g, r);
      }
    }
    if f.pubAt.Copying? {
      if MutexAt(f.at[s]) == Some(SymbolMutex(f.pubAt.t)) {
        OneInside(f, PublisherLoop, Worker(s), SymbolMutex(f.pubAt.t));
      }
    }
    PlanStays(f, g);
  }

  // ---------- each step ----------

  lemma AcquireKeeps(f: Machine, s: Sid, g: Machine)
    requires LockInv(f) && AcquireStep(f, s) == Some(g)
    ensures LockInv(g)
  {
    var m := MutexAt(g.at[s]).value;
    assert Holds(f, Worker(s)) == None;
    assert forall w :: Holds(g, w) == if w == Worker(s) then Some(m) else Holds(f, w);
    ExclusionAfterAcquire(f, g, Worker(s), m);
    forall r | r in g.at
      ensures PointFits(g, r)
    {
      if r != s {
        PointStays(f, g, r);
      }
    }
    PlanStays(f, g);
  }

  lemma ReleaseKeeps(f: Machine, s: Sid, g: Machine)
    requires LockInv(f) && ReleaseStep(f, s) == Some(g)
    ensures LockInv(g)
  {
    var m := f.at[s].m;
    assert Holds(f, Worker(s)) == Some(m);
    assert forall w :: Holds(g, w) == if w == Worker(s) then None else Holds(f, w);
    ExclusionAfterRelease(f, g, Worker(s), m);
    forall r | r in g.at
      ensures PointFits(g, r)
    {
      if r != s {
        PointStays(f, g, r);
      }
    }
    PlanStays(f, g);
  }

  lemma WriteKeeps(f: Machine, s: Sid, a: Action, g: Machine)
    requires LockInv(f) && s in f.at && WriteStep(f, s, a) == Some(g)
    requires MutexAt(f.at[s]) == Some(HubMutex)
    requires a == Action.Accepted(s) || a == MarkTopic(s) || a == Finish(s)
    ensures LockInv(g)
  {
    WorkKeeps(f, s, g);
  }

  lemma CheckKeeps(f: Machine, s: Sid, t: Topic, g: Machine)
    requires LockInv(f) && s in f.at && f.at[s] == Entering(t)
    requires Looping(f.mem, s) && CheckStep(f, s, t) == Some(g)
    ensures LockInv(g)
  {
    WorkKeeps(f, s, g);
  }

  lemma EraseKeeps(f: Machine, s: Sid, t: Topic, g: Machine)
    requires LockInv(f) && s in f.at && f.at[s] == Entering(t)
    requires Looping(f.mem, s) && f.mem.sess[s].phase.task.kind == Unsubscribe && EraseStep(f, s, t) == Some(g)
    ensures LockInv(g)
  {
    WorkKeeps(f, s, g);
  }

  lemma InsertKeeps(f: Machine, s: Sid, t: Topic, g: Machine)
    requires LockInv(f) && s in f.at && f.at[s] == Checked(t) && WorkStep(f, s) == Some(g)
    ensures LockInv(g)
  {
    WorkKeeps(f, s, g);
  }

  lemma ReportKeeps(f: Machine, s: Sid, t: Topic, found: bool, g: Machine)
    requires LockInv(f) && s in f.at && f.at[s] == Erased(t, found)
    requires Looping(f.mem, s) && ReportStep(f, s, t, found) == Some(g)
    ensures LockInv(g)
  {
    WorkKeeps(f, s, g);
  }

  lemma AnyWorkKeeps(f: Machine, s: Sid, g: Machine)
    requires LockInv(f) && WorkStep(f, s) == Some(g)
    ensures LockInv(g)
  {
    match f.at[s] {
      case Joining => WriteKeeps(f, s, Action.Accepted(s), g);
      case Marking => WriteKeeps(f, s, MarkTopic(s), g);
      case Erasing => WriteKeeps(f, s, Finish(s), g);
      case Entering(t) =>
        if f.mem.sess[s].phase.task.kind == Subscribe {
          CheckKeeps(f, s, t, g);
        } else {
          EraseKeeps(f, s, t, g);
        }
      case Checked(t) => InsertKeeps(f, s, t, g);
      case Erased(t, found) => ReportKeeps(f, s, t, found, g);
    }
  }

  lemma PubAcquireKeeps(f: Machine, plan: seq<Sid>, g: Machine)
    requires LockInv(f) && MicroNext(f, PubAcquire(plan)) == Some(g)
    ensures LockInv(g)
  {
    var m := SymbolMutex(f.mem.pub.topic);
    assert forall w :: Holds(g, w) == if w == PublisherLoop then Some(m) else Holds(f, w);
    ExclusionAfterAcquire(f, g, PublisherLoop, m);
    forall r | r in g.at
      ensures PointFits(g, r)
    {
      PointStays(f, g, r);
    }
  }

  lemma PubCopyKeeps(f: Machine, g: Machine)
    requires LockInv(f) && MicroNext(f, PubCopy) == Some(g)
    ensures LockInv(g)
  {
    assert forall w :: Holds(g, w) == Holds(f, w);
    ExclusionInside(f, g);
    forall r | r in g.at
      ensures PointFits(g, r)
    {
      PointStays(f, g, r);
    }
  }

  lemma PubReleaseKeeps(f: Machine, g: Machine)
    requires LockInv(f) && MicroNext(f, PubRelease) == Some(g)
    ensures LockInv(g)
  {
    var m := SymbolMutex(f.pubAt.t);
    assert Holds(f, PublisherLoop) == Some(m);
    assert forall w :: Holds(g, w) == if w == PublisherLoop then None else Holds(f, w);
    ExclusionAfterRelease(f, g, PublisherLoop, m);
    forall r | r in g.at
      ensures PointFits(g, r)
    {
      PointStays(f, g, r);
    }
  }

  /** A lockless action on memory: sessions outside every section may change phase, the publisher only when it is not copying. */
  lemma LocklessKeeps(f: Machine, a: Action, g: Machine)
    requires LockInv(f) && Lockless(f, a) && Next(f.mem, a) == Some(g.mem)
    requires g.held == f.held && g.pubAt == f.pubAt
    requires g.at == if a.Connect? then f.at[a.s := Outside] else f.at
    requires g.dying == f.dying || (g.dying.Some? && g.pubAt.Away?)
    ensures LockInv(g)
  {
    LocklessEffect(f, a, g.mem);
    assert forall w :: Holds(g, w) == Holds(f, w);
    ExclusionInside(f, g);
    forall r | r in g.at
      ensures PointFits(g, r)
    {
      if r in f.at && f.at[r] != Outside {
        PointStays(f, g, r);
      }
    }
    if f.pubAt.Copying? {
      PlanStays(f, g);
    }
  }

  lemma LocklessEffect(f: Machine, a: Action, h: Hub)
    requires LockInv(f) && Lockless(f, a) && Next(f.mem, a) == Some(h)
    ensures h.ix.members == f.mem.ix.members
    ensures h.sess.Keys == if a.Connect? then f.mem.sess.Keys + {a.s} else f.mem.sess.Keys
    ensures forall r :: r in f.at && f.at[r] != Outside ==> h.sess[r].phase == f.mem.sess[r].phase
    ensures forall r :: r in f.mem.sess && f.mem.sess[r].phase == Gone ==> h.sess[r].phase == Gone
    ensures f.pubAt.Copying? ==> h.pub == f.mem.pub
  {
    LocklessShape(f, a, h);
    forall r | r in f.mem.sess
      ensures f.at[r] != Outside || f.mem.sess[r].phase == Gone ==> h.sess[r].phase == f.mem.sess[r].phase
    {
      LocklessPhase(f, a, h, r);
    }
  }

  lemma LocklessShape(f: Machine, a: Action, h: Hub)
    requires PlanFits(f) && Lockless(f, a) && Next(f.mem, a) == Some(h)
    ensures h.ix.members == f.mem.ix.members
    ensures h.sess.Keys == if a.Connect? then f.mem.sess.Keys + {a.s} else f.mem.sess.Keys
    ensures f.pubAt.Copying? ==> h.pub == f.mem.pub
  {
  }

  lemma LocklessPhase(f: Machine, a: Action, h: Hub, r: Sid)
    requires Lockless(f, a) && Next(f.mem, a) == Some(h) && r in f.mem.sess && r in f.at && r in h.sess
    ensures f.at[r] != Outside || f.mem.sess[r].phase == Gone ==> h.sess[r].phase == f.mem.sess[r].phase
  {
  }

  lemma StepKeepsLocks(f: Machine, u: Micro, g: Machine)
    requires LockInv(f) && MicroNext(f, u) == Some(g)
    ensures LockInv(g)
  {
    match u {
      case Acquire(s) => AcquireKeeps(f, s, g);
      case Work(s) => AnyWorkKeeps(f, s, g);
      case Release(s) => ReleaseKeeps(f, s, g);
      case PubAcquire(plan) => PubAcquireKeeps(f, plan, g);
      case PubCopy => PubCopyKeeps(f, g);
      case PubRelease => PubReleaseKeeps(f, g);
      case PubDestroys(s, order) => LocklessKeeps(f, Destroy(s, order), g);
      case Free(a) => LocklessKeeps(f, a, g);
    }
  }
}
