/**
 The atomic hub says no more than the mutexes allow: each of its actions can be
 taken apart into steps of the lock-level machine. With HubRefinement, the two have
 the same runs, up to where a section's effect is counted.
 */
module HubUnfolding {
  import opened Wrappers
  import opened TopicIndex
  import opened HubSystem
  import opened HubLocks

  /** Nobody is inside a section, and the publisher's thread runs no destructor. */
  predicate AtRest(f: Machine) {
    && f.held == map[] && f.pubAt.Away? && f.dying.None? && f.at.Keys == f.mem.sess.Keys
    && forall s :: s in f.at ==> f.at[s] == Outside
  }

  // ---------- runs ----------

  lemma MicroStep(f: Machine, run: seq<Micro>, u: Micro)
    ensures MicroFrom(f, run + [u]) == match MicroFrom(f, run) case None => None case Some(g) => MicroNext(g, u)
  {
    assert (run + [u])[..|run + [u]| - 1] == run;
  }

  lemma {:induction false} MicroInTwoParts(f: Machine, a: seq<Micro>, b: seq<Micro>, g: Machine)
    requires MicroFrom(f, a) == Some(g)
    ensures MicroFrom(f, a + b) == MicroFrom(g, b)
  {
    if b == [] {
      assert a + b == a;
    } else {
      assert (a + b)[..|a + b| - 1] == a + b[..|b| - 1];
      MicroInTwoParts(f, a, b[..|b| - 1], g);
    }
  }

  lemma ThreeSteps(f: Machine, a: Micro, b: Micro, c: Micro, f1: Machine, f2: Machine, g: Machine)
    requires MicroNext(f, a) == Some(f1) && MicroNext(f1, b) == Some(f2) && MicroNext(f2, c) == Some(g)
    ensures MicroFrom(f, [] + [a] + [b] + [c]) == Some(g)
  {
    MicroStep(f, [], a);
    MicroStep(f, [] + [a], b);
    MicroStep(f, [] + [a] + [b], c);
  }

  // ---------- the sections ----------

  /** A section of one write under the hub mutex. */
  lemma WriteUnfolds(f: Machine, s: Sid, p: Point, a: Action, k: Hub) returns (run: seq<Micro>, g: Machine)
    requires AtRest(f) && s in f.at && Wants(f.mem, s) == Some(p) && Next(f.mem, a) == Some(k)
    requires (p == Joining && a == Action.Accepted(s)) || (p == Marking && a == MarkTopic(s)) || (p == Erasing && a == Finish(s))
    ensures MicroFrom(f, run) == Some(g) && g == f.(mem := k)
  {
    var f1 := AcquireStep(f, s).value;
    var f2 := WriteStep(f1, s, a).value;
    g := ReleaseStep(f2, s).value;
    ThreeSteps(f, Acquire(s), Work(s), Release(s), f1, f2, g);
    run := [] + [Acquire(s)] + [Work(s)] + [Release(s)];
    assert g.at == f.at && g.held == f.held;
  }

  lemma AllSettled(f: Machine)
    requires forall s, t :: s in f.at ==> !Lags(f.at[s], t)
    ensures Settle(f) == f.mem.ix.members && Abs(f).ix == f.mem.ix
  {
    assert forall t :: Lagging(f, t) == {};
    assert forall t :: t in f.mem.ix.members ==> f.mem.ix.members[t] + {} == f.mem.ix.members[t];
  }

  /** Entering the symbol of the next topic. */
  lemma Enters(f: Machine, s: Sid, t: Topic) returns (g: Machine)
    requires AtRest(f) && s in f.at && Wants(f.mem, s) == Some(Entering(t))
    ensures MicroNext(f, Acquire(s)) == Some(g)
    ensures g == f.(held := map[SymbolMutex(t) := Worker(s)], at := f.at[s := Entering(t)])
  {
    g := AcquireStep(f, s).value;
    assert f.held[SymbolMutex(t) := Worker(s)] == map[SymbolMutex(t) := Worker(s)];
  }

  lemma Exits(f: Machine, inside: Machine, s: Sid, t: Topic) returns (g: Machine)
    requires AtRest(f) && s in f.at && inside.held == map[SymbolMutex(t) := Worker(s)]
    requires inside.at == f.at[s := Done(SymbolMutex(t))]
    ensures MicroNext(inside, Release(s)) == Some(g) && g == inside.(held := f.held, at := f.at)
  {
    g := ReleaseStep(inside, s).value;
    assert g.at == f.at;
  }

  lemma CheckThenInsert(f: Machine, s: Sid, t: Topic) returns (f1: Machine, g: Machine)
    requires s in f.at && f.at[s] == Entering(t) && Abs(f).ix == f.mem.ix
    requires Looping(f.mem, s) && f.mem.sess[s].phase.task.kind == Subscribe && f.mem.sess[s].phase.task.marked
    requires f.mem.sess[s].phase.task.rest != [] && f.mem.sess[s].phase.task.rest[0] == t && t in f.mem.ix.members
    ensures MicroNext(f, Work(s)) == Some(f1) && MicroNext(f1, Work(s)) == Some(g)
    ensures CommitStep(f.mem, s).Some? && g == f.(mem := CommitStep(f.mem, s).value, at := f.at[s := Done(SymbolMutex(t))])
  {
    f1 := CheckStep(f, s, t).value;
    g := WorkStep(f1, s).value;
    assert g.mem == CommitStep(f.mem, s).value;
    assert g.at == f.at[s := Done(SymbolMutex(t))];
  }

  /** After an erasure the settled membership is the one before it. */
  lemma ErasedIsSettled(f: Machine, s: Sid, t: Topic, f1: Machine)
    requires s in f.at && f.at[s] == Entering(t) && t in f.mem.ix.members && EraseStep(f, s, t) == Some(f1)
    requires forall r, u :: r in f.at ==> !Lags(f.at[r], u)
    ensures Abs(f1).ix == f.mem.ix
  {
    forall u | u in f.mem.ix.members
      ensures f1.mem.ix.members[u] + Lagging(f1, u) == f.mem.ix.members[u]
    {
      assert Lagging(f1, u) == if u == t && s in f.mem.ix.members[t] then {s} else {};
    }
    assert Settle(f1) == f.mem.ix.members;
  }

  lemma EraseThenReport(f: Machine, s: Sid, t: Topic) returns (f1: Machine, g: Machine)
    requires s in f.at && f.at[s] == Entering(t) && forall r, u :: r in f.at ==> !Lags(f.at[r], u)
    requires Looping(f.mem, s) && f.mem.sess[s].phase.task.kind == Unsubscribe && f.mem.sess[s].phase.task.marked
    requires f.mem.sess[s].phase.task.rest != [] && f.mem.sess[s].phase.task.rest[0] == t && t in f.mem.ix.members
    ensures MicroNext(f, Work(s)) == Some(f1) && MicroNext(f1, Work(s)) == Some(g)
    ensures CommitStep(f.mem, s).Some? && g == f.(mem := CommitStep(f.mem, s).value, at := f.at[s := Done(SymbolMutex(t))])
  {
    f1 := EraseStep(f, s, t).value;
    ErasedIsSettled(f, s, t, f1);
    g := ReportStep(f1, s, t, s in f.mem.ix.members[t]).value;
    assert g.mem == CommitStep(f.mem, s).value;
    assert g.at == f.at[s := Done(SymbolMutex(t))];
  }

  /** The section of a symbol: acquired, two writes, released. */
  lemma CommitUnfolds(f: Machine, s: Sid, k: Hub) returns (run: seq<Micro>, g: Machine)
    requires AtRest(f) && CommitStep(f.mem, s) == Some(k)
    ensures MicroFrom(f, run) == Some(g) && g == f.(mem := k)
  {
    var t := f.mem.sess[s].phase.task.rest[0];
    var f1 := Enters(f, s, t);
    var f2, f3;
    if f.mem.sess[s].phase.task.kind == Subscribe {
      AllSettled(f1);
      f2, f3 := CheckThenInsert(f1, s, t);
    } else {
      f2, f3 := EraseThenReport(f1, s, t);
    }
    assert f3.at == f.at[s := Done(SymbolMutex(t))];
    g := Exits(f, f3, s, t);
    ThreeSteps(f, Acquire(s), Work(s), Work(s), f1, f2, f3);
    MicroStep(f, [] + [Acquire(s)] + [Work(s)] + [Work(s)], Release(s));
    run := [] + [Acquire(s)] + [Work(s)] + [Work(s)] + [Release(s)];
  }

  /** The publisher copies the rest of its plan. */
  lemma {:induction false} CopiesUnfold(f: Machine) returns (run: seq<Micro>, g: Machine)
    requires f.pubAt.Copying? && f.pubAt.copied <= |f.pubAt.plan|
    ensures MicroFrom(f, run) == Some(g) && g == f.(pubAt := f.pubAt.(copied := |f.pubAt.plan|))
    decreases |f.pubAt.plan| - f.pubAt.copied
  {
    if f.pubAt.copied == |f.pubAt.plan| {
      run, g := [], f;
    } else {
      var f1 := MicroNext(f, PubCopy).value;
      var rest;
      rest, g := CopiesUnfold(f1);
      MicroStep(f, [], PubCopy);
      run := ([] + [PubCopy]) + rest;
      MicroInTwoParts(f, [] + [PubCopy], rest, f1);
    }
  }

  lemma SnapshotUnfolds(f: Machine, visit: seq<Sid>, k: Hub) returns (run: seq<Micro>, g: Machine)
    requires AtRest(f) && Next(f.mem, Snapshot(visit)) == Some(k)
    ensures MicroFrom(f, run) == Some(g) && g == f.(mem := k)
  {
    var t := f.mem.pub.topic;
    var f1 := MicroNext(f, PubAcquire(visit)).value;
    var copies, f2 := CopiesUnfold(f1);
    assert visit[..|visit|] == visit;
    g := MicroNext(f2, PubRelease).value;
    assert g.held == f.held;
    MicroStep(f, [], PubAcquire(visit));
    MicroInTwoParts(f, [] + [PubAcquire(visit)], copies, f1);
    MicroStep(f, ([] + [PubAcquire(visit)]) + copies, PubRelease);
    run := ([] + [PubAcquire(visit)]) + copies + [PubRelease];
  }

  /** The actions that touch no mutex. */
  lemma FreeUnfolds(f: Machine, a: Action, k: Hub) returns (run: seq<Micro>, g: Machine)
    requires AtRest(f) && Next(f.mem, a) == Some(k)
    requires !a.Accepted? && !a.MarkTopic? && !a.CommitTopic? && !a.Snapshot?
    requires a.Finish? ==> a.s in f.mem.sess && f.mem.sess[a.s].phase.Serving?
    ensures MicroFrom(f, run) == Some(g) && AtRest(g) && g.mem == k
  {
    g := FreeStep(f, a).value;
    MicroStep(f, [], Free(a));
    run := [] + [Free(a)];
    FreeKeepsRest(f, a, g);
  }

  lemma FreeKeepsRest(f: Machine, a: Action, g: Machine)
    requires AtRest(f) && FreeStep(f, a) == Some(g)
    ensures AtRest(g)
  {
  }

  lemma ActionUnfolds(f: Machine, a: Action, k: Hub) returns (run: seq<Micro>, g: Machine)
    requires AtRest(f) && Next(f.mem, a) == Some(k)
    ensures MicroFrom(f, run) == Some(g) && g.mem == k && AtRest(g)
  {
    match a {
      case Accepted(s) => run, g := WriteUnfolds(f, s, Joining, a, k);
      case MarkTopic(s) => run, g := WriteUnfolds(f, s, Marking, a, k);
      case CommitTopic(s) => run, g := CommitUnfolds(f, s, k);
      case Snapshot(visit) => run, g := SnapshotUnfolds(f, visit, k);
      case Finish(s) =>
        if f.mem.sess[s].phase.Leaving? {
          run, g := WriteUnfolds(f, s, Erasing, a, k);
        } else {
          run, g := FreeUnfolds(f, a, k);
        }
      case _ => run, g := FreeUnfolds(f, a, k);
    }
    if a.Accepted? || a.MarkTopic? || a.CommitTopic? || a.Snapshot? || a.Finish? {
      SectionKeepsSessions(f.mem, a, k);
    }
  }

  lemma SectionKeepsSessions(h: Hub, a: Action, k: Hub)
    requires Next(h, a) == Some(k) && (a.Accepted? || a.MarkTopic? || a.CommitTopic? || a.Snapshot? || a.Finish?)
    ensures k.sess.Keys == h.sess.Keys
  {
  }

  /** Every run of the atomic hub is a run of the lock-level machine that ends with every mutex free and this very memory. */
  lemma {:induction false} HubRunsAreLockedRuns(domain: set<Topic>, actions: seq<Action>, h: Hub) returns (run: seq<Micro>, f: Machine)
    requires Exec(domain, actions) == Some(h)
    ensures MicroRun(domain, run) == Some(f) && f.mem == h && f.held == map[]
    ensures AtRest(f)
  {
    if actions == [] {
      run, f := [], Boot(domain);
    } else {
      var before := ExecFrom(Init(domain), actions[..|actions| - 1]).value;
      var init, g := HubRunsAreLockedRuns(domain, actions[..|actions| - 1], before);
      var last;
      last, f := ActionUnfolds(g, actions[|actions| - 1], h);
      run := init + last;
      MicroInTwoParts(Boot(domain), init, last, g);
    }
  }
}
