/**
 No deadlock among the hub's mutexes, and no use of freed memory under them.
 Whoever is inside a section can always take its next step without acquiring
 anything; whoever waits, waits for someone inside.
 */
module HubProgress {
  import opened Wrappers
  import opened TopicIndex
  import opened HubSystem
  import opened HubLocks
  import opened HubRefinement
  import HubIndex
  import HubFanout
  import HubRuns

  /** The session is inside a section, or has sections or a loop's end still to come. */
  predicate Unfinished(f: Machine, s: Sid) {
    s in f.at && (f.at[s] != Outside || Looping(f.mem, s))
  }

  /** The publisher is in the middle of a message. */
  predicate Publishing(f: Machine) {
    f.pubAt.Copying? || !Through(f.mem.pub)
  }

  /** A next step that acquires nothing. */
  predicate MovesInside(f: Machine, who: Holder) {
    match who
    case Worker(s) => MicroNext(f, Work(s)).Some? || MicroNext(f, Release(s)).Some?
    case PublisherLoop => MicroNext(f, PubCopy).Some? || MicroNext(f, PubRelease).Some?
  }

  ghost predicate Moves(f: Machine, who: Holder) {
    MovesInside(f, who) ||
    match who
    case Worker(s) => MicroNext(f, Acquire(s)).Some? || MicroNext(f, Free(Finish(s))).Some?
    case PublisherLoop =>
      || (exists plan :: MicroNext(f, PubAcquire(plan)).Some?)
      || MicroNext(f, Free(Lock)).Some? || MicroNext(f, Free(Post)).Some?
  }

  /** The activity stands outside, before a section whose mutex someone else is inside of. */
  predicate WaitsFor(f: Machine, who: Holder, m: Mutex) {
    && m in f.held
    && match who
       case Worker(s) => Wants(f.mem, s).Some? && MutexAt(Wants(f.mem, s).value) == Some(m)
       case PublisherLoop => f.mem.pub.Popped? && m == SymbolMutex(f.mem.pub.topic)
  }

  /** The session a publisher's thread is destroying is on its way out or gone. */
  predicate DyingFits(f: Machine) {
    f.dying.Some? ==>
      f.dying.value in f.mem.sess && (f.mem.sess[f.dying.value].phase.Leaving? || f.mem.sess[f.dying.value].phase.Gone?)
  }

  ghost predicate ProgressInv(f: Machine) {
    LockInv(f) && DyingFits(f) && HubRuns.Inv(Abs(f))
  }

  // ---------- the invariant ----------

  lemma DepartureContinues(h: Hub, a: Action, k: Hub, s: Sid)
    requires Next(h, a) == Some(k) && s in h.sess && (h.sess[s].phase.Leaving? || h.sess[s].phase.Gone?)
    ensures s in k.sess && (k.sess[s].phase.Leaving? || k.sess[s].phase.Gone?)
  {
  }

  lemma StepKeepsDying(f: Machine, u: Micro, g: Machine)
    requires DyingFits(f) && MicroNext(f, u) == Some(g)
    ensures DyingFits(g)
  {
    match u {
      case PubDestroys(s, order) =>
      case Free(a) =>
        if f.dying.Some? {
          DepartureContinues(f.mem, a, g.mem, f.dying.value);
        }
      case Work(s) =>
        if f.dying.Some? {
          WorkKeepsDeparture(f, s, g, f.dying.value);
        }
      case _ =>
    }
  }

  lemma WorkKeepsDeparture(f: Machine, s: Sid, g: Machine, r: Sid)
    requires WorkStep(f, s) == Some(g) && r in f.mem.sess && (f.mem.sess[r].phase.Leaving? || f.mem.sess[r].phase.Gone?)
    ensures r in g.mem.sess && (g.mem.sess[r].phase.Leaving? || g.mem.sess[r].phase.Gone?)
  {
    match f.at[s] {
      case Joining => DepartureContinues(f.mem, Action.Accepted(s), g.mem, r);
      case Marking => DepartureContinues(f.mem, MarkTopic(s), g.mem, r);
      case Erasing => DepartureContinues(f.mem, Finish(s), g.mem, r);
      case _ =>
    }
  }

  lemma {:induction false} MicroRunKeepsProgressInv(domain: set<Topic>, run: seq<Micro>, f: Machine)
    requires MicroRun(domain, run) == Some(f)
    ensures ProgressInv(f)
  {
    LockedRunsAreHubRuns(domain, run, f, [], f);
    var actions :| Exec(domain, actions) == Some(Abs(f));
    HubRuns.ReachableInv(domain, actions, Abs(f));
    if run != [] {
      var before := MicroFrom(Boot(domain), run[..|run| - 1]).value;
      MicroRunKeepsProgressInv(domain, run[..|run| - 1], before);
      StepKeepsDying(before, run[|run| - 1], f);
    }
  }

  // ---------- whoever is inside moves ----------

  /** A loop has its symbols and its record, and stands before a topic when it has marked one. */
  predicate LoopReady(f: Machine, s: Sid) {
    Looping(f.mem, s) ==>
      var task := f.mem.sess[s].phase.task;
      && s in f.mem.ix.topics && s in f.at
      && (task.marked ==> task.rest != [])
      && (task.rest != [] ==> task.rest[0] in f.mem.ix.members)
  }

  /** What the atomic hub's index invariant says of a loop in memory. */
  lemma LoopFacts(f: Machine, s: Sid)
    requires LockInv(f) && HubIndex.IndexInv(Abs(f))
    ensures LoopReady(f, s)
  {
    if Looping(f.mem, s) {
      assert HubIndex.LocalAt(Abs(f), s);
      assert Abs(f).ix.members.Keys == f.mem.ix.members.Keys;
    }
  }

  lemma WorkerInsideMoves(f: Machine, s: Sid)
    requires s in f.at && f.at[s] != Outside && PointFits(f, s) && LoopReady(f, s)
    ensures MovesInside(f, Worker(s))
  {
    match f.at[s] {
      case Joining => assert Next(f.mem, Action.Accepted(s)).Some?;
      case Marking => assert Next(f.mem, MarkTopic(s)).Some?;
      case Erasing => assert Next(f.mem, Finish(s)).Some?;
      case _ =>
    }
  }

  lemma InsideMoves(f: Machine, who: Holder)
    requires LockInv(f) && HubIndex.IndexInv(Abs(f)) && Holds(f, who).Some?
    ensures MovesInside(f, who)
  {
    match who
    case PublisherLoop =>
    case Worker(s) =>
      LoopFacts(f, s);
      assert PointFits(f, s);
      WorkerInsideMoves(f, s);
  }

  // ---------- deadlock freedom ----------

  /** One thread runs both: the publisher's loop and the destructor it has set off. */
  predicate SameThread(f: Machine, a: Holder, b: Holder) {
    a == b || (OnPublisherThread(f, a) && OnPublisherThread(f, b))
  }

  predicate OnPublisherThread(f: Machine, who: Holder) {
    who.PublisherLoop? || f.dying == Some(who.s)
  }

  /** The loop holds its mutex only while no destructor it has set off is running. */
  lemma PublisherThreadHoldsOne(f: Machine, a: Holder, b: Holder)
    requires LockInv(f) && SameThread(f, a, b) && Holds(f, a).Some? && Holds(f, b).Some?
    ensures a == b
  {
  }

  /** No thread has two mutexes, and every holder can move without another. */
  lemma HoldersNeverWait(domain: set<Topic>, run: seq<Micro>, f: Machine, m: Mutex)
    requires MicroRun(domain, run) == Some(f) && m in f.held
    ensures forall n :: n in f.held && SameThread(f, f.held[n], f.held[m]) ==> n == m
    ensures MovesInside(f, f.held[m])
  {
    MicroRunKeepsProgressInv(domain, run, f);
    InsideMoves(f, f.held[m]);
    forall n | n in f.held && SameThread(f, f.held[n], f.held[m])
      ensures n == m
    {
      PublisherThreadHoldsOne(f, f.held[n], f.held[m]);
    }
  }

  /** Before a section, and its mutex is free: the session can enter. Past its last topic: the loop can end. */
  lemma OutsideMoves(f: Machine, s: Sid)
    requires s in f.at && f.at[s] == Outside && Looping(f.mem, s) && LoopReady(f, s)
    requires Wants(f.mem, s).Some? ==> MutexAt(Wants(f.mem, s).value).value !in f.held
    ensures Moves(f, Worker(s))
  {
    if Wants(f.mem, s).Some? {
      assert AcquireStep(f, s).Some?;
    } else {
      assert Next(f.mem, Finish(s)).Some?;
    }
  }

  /** An unfinished session can move, or it waits for a mutex whose holder can. */
  lemma NoSessionDeadlocks(domain: set<Topic>, run: seq<Micro>, f: Machine, s: Sid)
    requires MicroRun(domain, run) == Some(f) && Unfinished(f, s)
    ensures Moves(f, Worker(s)) || exists m :: WaitsFor(f, Worker(s), m) && MovesInside(f, f.held[m])
  {
    MicroRunKeepsProgressInv(domain, run, f);
    SessionMovesOrWaits(f, s);
  }

  lemma SessionMovesOrWaits(f: Machine, s: Sid)
    requires LockInv(f) && HubIndex.IndexInv(Abs(f)) && Unfinished(f, s)
    ensures Moves(f, Worker(s)) || exists m :: WaitsFor(f, Worker(s), m) && MovesInside(f, f.held[m])
  {
    LoopFacts(f, s);
    var p := Wants(f.mem, s);
    if f.at[s] != Outside {
      InsideMoves(f, Worker(s));
    } else if p.Some? && MutexAt(p.value).value in f.held {
      var m := MutexAt(p.value).value;
      assert Holds(f, f.held[m]) == Some(m);
      InsideMoves(f, f.held[m]);
      assert WaitsFor(f, Worker(s), m);
    } else {
      OutsideMoves(f, s);
    }
  }

  /**
   A publisher in the middle of a message can move, or waits for a mutex whose
   holder can, or its thread is running the destructor of a session whose last
   owner it was; then it holds no mutex and that session is not deadlocked.
   */
  lemma NoPublisherDeadlock(domain: set<Topic>, run: seq<Micro>, f: Machine)
    requires MicroRun(domain, run) == Some(f) && Publishing(f)
    ensures
      || Moves(f, PublisherLoop)
      || (exists m :: WaitsFor(f, PublisherLoop, m) && MovesInside(f, f.held[m]))
      || (f.dying.Some? && Unfinished(f, f.dying.value) && Holds(f, PublisherLoop) == None)
  {
    MicroRunKeepsProgressInv(domain, run, f);
    if f.pubAt.Copying? {
      InsideMoves(f, PublisherLoop);
    } else if PublisherFree(f) {
      PublisherFacts(f);
      if f.mem.pub.Popped? && SymbolMutex(f.mem.pub.topic) in f.held {
        var m := SymbolMutex(f.mem.pub.topic);
        assert Holds(f, f.held[m]) == Some(m);
        InsideMoves(f, f.held[m]);
        assert WaitsFor(f, PublisherLoop, m);
      } else {
        FreePublisherMoves(f);
      }
    }
  }

  /** The publisher's topic has a symbol, and the session it holds is one. */
  predicate PublisherReady(f: Machine) {
    match f.mem.pub
    case Popped(t, _) => t in f.mem.ix.members
    case Holding(_, s, _) => s in f.mem.sess
    case _ => true
  }

  lemma PublisherFacts(f: Machine)
    requires HubFanout.LogInv(Abs(f)) && HubFanout.InboxInv(Abs(f))
    ensures PublisherReady(f)
  {
    assert Abs(f).ix.members.Keys == f.mem.ix.members.Keys;
  }

  lemma FreePublisherMoves(f: Machine)
    requires f.pubAt.Away? && PublisherFree(f) && PublisherReady(f) && !Through(f.mem.pub)
    requires f.mem.pub.Popped? ==> SymbolMutex(f.mem.pub.topic) !in f.held
    ensures Moves(f, PublisherLoop)
  {
    match f.mem.pub {
      case Popped(t, _) =>
        var plan := SetsCanBeListed(f.mem.ix.members[t]);
        assert MicroNext(f, PubAcquire(plan)).Some?;
      case Fanning(_, pending) =>
        assert Next(f.mem, Lock).Some?;
      case Holding(_, s, _) =>
        assert Next(f.mem, Post).Some?;
    }
  }

  // ---------- memory ----------

  /** Each pointer the publisher dereferences under the symbol's mutex is to a session still in memory. */
  lemma CopiesOnlyLiveMemory(domain: set<Topic>, run: seq<Micro>, f: Machine)
    requires MicroRun(domain, run) == Some(f) && MicroNext(f, PubCopy).Some?
    ensures f.pubAt.plan[f.pubAt.copied] in f.mem.sess && !f.mem.sess[f.pubAt.plan[f.pubAt.copied]].phase.Gone?
  {
    MicroRunKeepsProgressInv(domain, run, f);
    var t, s := f.pubAt.t, f.pubAt.plan[f.pubAt.copied];
    assert s in Elements(f.pubAt.plan);
    assert s in Abs(f).ix.members[t];
    if InPhase(f.mem, s, Gone) {
      HubRuns.GoneIsUnlisted(Abs(f), s);
    }
  }

  /** Nor is a freed session posted to, and no handler of its own runs. */
  lemma CallsOnlyLiveMemory(domain: set<Topic>, run: seq<Micro>, f: Machine, s: Sid, ok: bool)
    requires MicroRun(domain, run) == Some(f) && InPhase(f.mem, s, Gone)
    ensures f.mem.pub.Holding? ==> f.mem.pub.sid != s
    ensures MicroNext(f, Free(RunSend(s))) == None && MicroNext(f, Free(RunWrite(s, ok))) == None
    ensures MicroNext(f, Acquire(s)) == None && MicroNext(f, Work(s)) == None
  {
    MicroRunKeepsProgressInv(domain, run, f);
    assert !HasRef(Abs(f), s);
    assert PointFits(f, s);
    GoneIsIdle(f, s, ok);
  }

  lemma GoneIsIdle(f: Machine, s: Sid, ok: bool)
    requires InPhase(f.mem, s, Gone) && !HasRef(f.mem, s) && s in f.at && PointFits(f, s)
    ensures f.mem.pub.Holding? ==> f.mem.pub.sid != s
    ensures MicroNext(f, Free(RunSend(s))) == None && MicroNext(f, Free(RunWrite(s, ok))) == None
    ensures MicroNext(f, Acquire(s)) == None && MicroNext(f, Work(s)) == None
  {
    assert Wants(f.mem, s) == None && !Looping(f.mem, s);
    assert WorkStep(f, s) == None;
  }
}
