/**
 The hub at the level of its mutexes. Every lock_guard becomes an acquisition, one
 or two separate writes to shared memory, and a release; other threads may run
 between any two of them. The bodies are not atomic here: a subscribe tests the
 set and pushes the event before it inserts, an unsubscribe erases before it
 pushes, and the publisher copies weak pointers one by one.
 */
module HubLocks {
  import opened Wrappers
  import opened SpscQueue
  import opened TopicIndex
  import opened HubSystem

  datatype Mutex = HubMutex | SymbolMutex(topic: Topic)

  /** Who can hold a mutex: the thread running a session's handler or destructor, or the publisher's loop. */
  datatype Holder = Worker(s: Sid) | PublisherLoop

  /** Where a session's code stands; every point but Outside is inside a lock_guard's scope. */
  datatype Point =
    | Outside
    | Joining
    | Marking
    | Erasing
    | Entering(t: Topic)
    | Checked(t: Topic)
    | Erased(t: Topic, found: bool)
    | Done(m: Mutex)

  /** The publisher copying the pointers in `plan`, `copied` of them so far. */
  datatype PublisherPoint = Away | Copying(t: Topic, plan: seq<Sid>, copied: nat)

  /** `dying`: the session whose destructor the publisher's thread is running. */
  datatype Machine = Machine(mem: Hub, held: map<Mutex, Holder>, at: map<Sid, Point>,
                             pubAt: PublisherPoint, dying: Option<Sid>)

  datatype Micro =
    | Acquire(s: Sid)
    | Work(s: Sid)
    | Release(s: Sid)
    | PubAcquire(plan: seq<Sid>)
    | PubCopy
    | PubRelease
    | PubDestroys(s: Sid, order: seq<Topic>)
    | Free(a: Action)

  function Boot(domain: set<Topic>): Machine {
    Machine(Init(domain), map[], map[], Away, None)
  }

  function MutexAt(p: Point): Option<Mutex> {
    match p
    case Outside => None
    case Joining => Some(HubMutex)
    case Marking => Some(HubMutex)
    case Erasing => Some(HubMutex)
    case Entering(t) => Some(SymbolMutex(t))
    case Checked(t) => Some(SymbolMutex(t))
    case Erased(t, _) => Some(SymbolMutex(t))
    case Done(m) => Some(m)
  }

  /** The mutex a holder's code is inside of: a function of where it stands, so never two. */
  function Holds(f: Machine, who: Holder): Option<Mutex> {
    match who
    case Worker(s) => if s in f.at then MutexAt(f.at[s]) else None
    case PublisherLoop => if f.pubAt.Copying? then Some(SymbolMutex(f.pubAt.t)) else None
  }

  /** The critical section a session's code comes to next, if any. */
  function Wants(h: Hub, s: Sid): Option<Point> {
    if s !in h.sess then None
    else
      match h.sess[s].phase
      case Accepting => Some(Joining)
      case Serving(task) =>
        if task.rest == [] then None else Some(if task.marked then Entering(task.rest[0]) else Marking)
      case Leaving(task) =>
        if task.rest == [] then Some(Erasing) else Some(if task.marked then Entering(task.rest[0]) else Marking)
      case _ => None
  }

  function Advance(h: Hub, s: Sid): Hub
    requires Looping(h, s) && h.sess[s].phase.task.rest != []
  {
    var task := h.sess[s].phase.task;
    SetTask(h, s, Task(task.kind, false, task.rest[1..]))
  }

  function SetMembers(h: Hub, t: Topic, sessions: set<Sid>): Hub {
    h.(ix := h.ix.(members := h.ix.members[t := sessions]))
  }

  /** The event push of a critical section, with its history. `before` is the membership the section found. */
  function Emit(h: Hub, before: Index<Sid>, kind: MsgType, s: Sid, t: Topic, crossed: bool): Hub
    requires t in before.members
  {
    h.(ix := h.ix.(events := if crossed then Push(h.ix.events, Event(kind, t)) else h.ix.events),
       trace := NoteEvent(h.trace, before, kind, s, t))
  }

  /** Past an insertion decided but not done, or an erasure done but not decided. */
  predicate Lags(p: Point, t: Topic) {
    p == Checked(t) || p == Erased(t, true)
  }

  /** Membership as it will be once the sections that have passed their point of decision are through. */
  function Lagging(f: Machine, t: Topic): set<Sid> {
    set s | s in f.at && Lags(f.at[s], t)
  }

  function Settle(f: Machine): map<Topic, set<Sid>> {
    map t | t in f.mem.ix.members :: f.mem.ix.members[t] + Lagging(f, t)
  }

  function WithMembers(h: Hub, members: map<Topic, set<Sid>>): Hub {
    h.(ix := h.ix.(members := members))
  }

  /** The machine with its critical sections made whole. */
  function Abs(f: Machine): Hub {
    WithMembers(f.mem, Settle(f))
  }

  // ---------- steps ----------

  function AcquireStep(f: Machine, s: Sid): Option<Machine> {
    match Wants(f.mem, s)
    case None => None
    case Some(p) =>
      var m := MutexAt(p);
      if s !in f.at || f.at[s] != Outside || m.None? || m.value in f.held then None
      else Some(f.(held := f.held[m.value := Worker(s)], at := f.at[s := p]))
  }

  /** A write to memory by one of the one-write sections: join, insert or erase a topic, erase the connection. */
  function WriteStep(f: Machine, s: Sid, a: Action): Option<Machine> {
    match Next(f.mem, a)
    case None => None
    case Some(h) => Some(f.(mem := h, at := f.at[s := Done(HubMutex)]))
  }

  /** Subscribe: look at the set, push the event if it is empty. */
  function CheckStep(f: Machine, s: Sid, t: Topic): Option<Machine>
    requires Looping(f.mem, s)
  {
    if f.mem.sess[s].phase.task.rest == [] || t !in f.mem.ix.members then None
    else
      var h := Emit(Advance(f.mem, s), Abs(f).ix, Subscribe, s, t, f.mem.ix.members[t] == {});
      Some(f.(mem := h, at := f.at[s := Checked(t)]))
  }

  /** Unsubscribe: erase from the set, remember whether the session was there. */
  function EraseStep(f: Machine, s: Sid, t: Topic): Option<Machine> {
    if t !in f.mem.ix.members then None
    else
      Some(f.(mem := SetMembers(f.mem, t, f.mem.ix.members[t] - {s}),
              at := f.at[s := Erased(t, s in f.mem.ix.members[t])]))
  }

  /** Unsubscribe: push the event if the session was erased and the set is now empty. */
  function ReportStep(f: Machine, s: Sid, t: Topic, found: bool): Option<Machine>
    requires Looping(f.mem, s)
  {
    if f.mem.sess[s].phase.task.rest == [] || t !in f.mem.ix.members then None
    else
      var h := Emit(Advance(f.mem, s), Abs(f).ix, Unsubscribe, s, t, found && f.mem.ix.members[t] == {});
      Some(f.(mem := h, at := f.at[s := Done(SymbolMutex(t))]))
  }

  function WorkStep(f: Machine, s: Sid): Option<Machine> {
    if s !in f.at then None
    else
      match f.at[s]
      case Outside => None
      case Joining => WriteStep(f, s, Action.Accepted(s))
      case Marking => WriteStep(f, s, MarkTopic(s))
      case Erasing => WriteStep(f, s, Finish(s))
      case Entering(t) =>
        if !Looping(f.mem, s) then None
        else if f.mem.sess[s].phase.task.kind == Subscribe then CheckStep(f, s, t) else EraseStep(f, s, t)
      case Checked(t) =>
        if t !in f.mem.ix.members then None
        else Some(f.(mem := SetMembers(f.mem, t, f.mem.ix.members[t] + {s}), at := f.at[s := Done(SymbolMutex(t))]))
      case Erased(t, found) => if Looping(f.mem, s) then ReportStep(f, s, t, found) else None
      case Done(_) => None
  }

  function ReleaseStep(f: Machine, s: Sid): Option<Machine> {
    if s in f.at && f.at[s].Done? then Some(f.(held := f.held - {f.at[s].m}, at := f.at[s := Outside])) else None
  }

  /** The publisher's thread is in its own loop, not in a destructor it set off. */
  predicate PublisherFree(f: Machine) {
    f.dying.None? || (InPhase(f.mem, f.dying.value, Gone) && f.dying.value in f.at && f.at[f.dying.value] == Outside)
  }

  /** Actions that touch no mutex; the session they run on is outside every section. */
  predicate Lockless(f: Machine, a: Action) {
    match a
    case Connect(_) => true
    case AcceptFailed(s) => s in f.at && f.at[s] == Outside
    case ReadFailed(s) => s in f.at && f.at[s] == Outside
    case Request(s, _, _) => s in f.at && f.at[s] == Outside
    case Finish(s) => s in f.at && f.at[s] == Outside && s in f.mem.sess && f.mem.sess[s].phase.Serving?
    case Destroy(s, _) => s in f.at && f.at[s] == Outside
    case RunSend(_) => true
    case RunWrite(_, _) => true
    case PopEvent => true
    case Consume(_, _) => true
    case PopMessage => PublisherFree(f)
    case Lock => PublisherFree(f)
    case Post => PublisherFree(f)
    case _ => false
  }

  function FreeStep(f: Machine, a: Action): Option<Machine> {
    if !Lockless(f, a) then None
    else
      match Next(f.mem, a)
      case None => None
      case Some(h) => Some(f.(mem := h, at := if a.Connect? then f.at[a.s := Outside] else f.at))
  }

  function MicroNext(f: Machine, u: Micro): Option<Machine> {
    match u
    case Acquire(s) => AcquireStep(f, s)
    case Work(s) => WorkStep(f, s)
    case Release(s) => ReleaseStep(f, s)
    case PubAcquire(plan) =>
      if PublisherFree(f) && f.mem.pub.Popped? && f.pubAt.Away? && f.mem.pub.topic in f.mem.ix.members
         && SymbolMutex(f.mem.pub.topic) !in f.held && Lists(plan, f.mem.ix.members[f.mem.pub.topic])
      then Some(f.(held := f.held[SymbolMutex(f.mem.pub.topic) := PublisherLoop], pubAt := Copying(f.mem.pub.topic, plan, 0)))
      else None
    case PubCopy =>
      if f.pubAt.Copying? && f.pubAt.copied < |f.pubAt.plan|
      then Some(f.(pubAt := f.pubAt.(copied := f.pubAt.copied + 1))) else None
    case PubRelease =>
      if f.pubAt.Copying? && f.pubAt.copied == |f.pubAt.plan| && f.mem.pub.Popped? then
        var v := f.pubAt.plan[..f.pubAt.copied];
        var d := Delivery(f.mem.pub.topic, f.mem.pub.payload, Elements(v), {});
        Some(f.(mem := f.mem.(pub := Fanning(f.mem.pub.payload, v), trace := f.mem.trace.(log := f.mem.trace.log + [d])),
                held := f.held - {SymbolMutex(f.pubAt.t)}, pubAt := Away))
      else None
    case PubDestroys(s, order) =>
      if PublisherFree(f) && f.mem.pub.Fanning? && f.pubAt.Away? && Lockless(f, Destroy(s, order)) then
        (match Next(f.mem, Destroy(s, order))
         case None => None
         case Some(h) => Some(f.(mem := h, dying := Some(s))))
      else None
    case Free(a) => FreeStep(f, a)
  }

  function MicroFrom(f: Machine, run: seq<Micro>): Option<Machine> {
    if run == [] then Some(f)
    else
      match MicroFrom(f, run[..|run| - 1])
      case None => None
      case Some(g) => MicroNext(g, run[|run| - 1])
  }

  /** A whole run of the machine from the start. */
  function MicroRun(domain: set<Topic>, run: seq<Micro>): Option<Machine> {
    MicroFrom(Boot(domain), run)
  }

  // ---------- the mutex invariant ----------

  /** A session's point fits its phase. */
  predicate PointFits(f: Machine, s: Sid)
    requires s in f.at
  {
    match f.at[s]
    case Joining => InPhase(f.mem, s, Accepting)
    case Marking => Looping(f.mem, s) && !f.mem.sess[s].phase.task.marked && f.mem.sess[s].phase.task.rest != []
    case Erasing => s in f.mem.sess && f.mem.sess[s].phase.Leaving? && f.mem.sess[s].phase.task.rest == []
    case Entering(t) =>
      Looping(f.mem, s) && f.mem.sess[s].phase.task.marked && f.mem.sess[s].phase.task.rest != []
      && f.mem.sess[s].phase.task.rest[0] == t
    case Erased(t, _) =>
      Looping(f.mem, s) && f.mem.sess[s].phase.task.marked && f.mem.sess[s].phase.task.rest != []
      && f.mem.sess[s].phase.task.rest[0] == t && f.mem.sess[s].phase.task.kind == Unsubscribe
      && t in f.mem.ix.members && s !in f.mem.ix.members[t]
    case Checked(t) => Looping(f.mem, s) && t in f.mem.ix.members
    case _ => true
  }

  /** `held` records exactly who stands where: each mutex has one holder, each holder one mutex. */
  ghost predicate Exclusive(f: Machine) {
    && (forall m :: m in f.held ==> Holds(f, f.held[m]) == Some(m))
    && (forall who, m :: Holds(f, who) == Some(m) ==> m in f.held && f.held[m] == who)
  }

  /** While the publisher copies, its plan stays the membership of the topic. */
  predicate PlanFits(f: Machine) {
    f.pubAt.Copying? ==>
      && f.mem.pub.Popped? && f.mem.pub.topic == f.pubAt.t && f.pubAt.copied <= |f.pubAt.plan|
      && f.pubAt.t in f.mem.ix.members && Lists(f.pubAt.plan, f.mem.ix.members[f.pubAt.t])
      && PublisherFree(f)
  }

  ghost predicate LockInv(f: Machine) {
    && f.at.Keys == f.mem.sess.Keys
    && (forall s :: s in f.at ==> PointFits(f, s))
    && Exclusive(f)
    && PlanFits(f)
  }
}
