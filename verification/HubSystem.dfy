/**
 The running quote hub: sessions, the Redis subscriber and the publisher,
 interleaved. One action is one critical section, one queue operation or one
 callback; HubLocks shows that the mutexes make the critical sections atomic.
 */
module HubSystem {
  import opened Wrappers
  import opened SpscQueue
  import opened TopicIndex
  import opened WriteQueue

  /** A session object; an identifier is never reused. */
  type Sid = nat
  type Payload = string

  /** The rest of a topic loop. `marked`: the first critical section for rest[0] is done. */
  datatype Task = Task(kind: MsgType, marked: bool, rest: seq<Topic>)

  /**
   Accepting and Reading have an asynchronous operation outstanding; Serving runs
   parse inside on_read; Quiet has stopped reading; Leaving runs the destructor;
   Gone is freed memory.
   */
  datatype Phase = Accepting | Reading | Serving(task: Task) | Quiet | Leaving(task: Task) | Gone

  /** `posted`: the on_send handlers waiting on the session's strand. */
  datatype Session = Session(phase: Phase, posted: seq<Payload>, writer: Writer<Payload>)

  /**
   The publisher's locals. Polling: no message popped yet. Popped: about to take
   the snapshot. Fanning: weak pointers left to try. Holding: one was locked.
   */
  datatype Publisher =
    | Polling
    | Popped(topic: Topic, payload: Payload)
    | Fanning(payload: Payload, pending: seq<Sid>)
    | Holding(payload: Payload, sid: Sid, pending: seq<Sid>)

  /** Ready for the next message. */
  predicate Through(pub: Publisher) {
    pub.Polling? || (pub.Fanning? && pub.pending == [])
  }

  /** History of one published message: who was in the snapshot and whose weak pointer still locked. */
  datatype Delivery = Delivery(topic: Topic, payload: Payload, snapshot: set<Sid>, locked: set<Sid>)

  /**
   History; no action reads it. `applied`: events the subscriber popped. `lost`: events refused by the
   full queue. `skew`: topics whose latest accepted event is followed by an odd
   number of refused ones. `torn`: an event was accepted for a skewed topic; `surplus`: SUBSCRIBEs less
   UNSUBSCRIBEs among such events.
   `arrived`: messages consume delivered; `missed`: those refused by the full queue.
   `taken`: messages the publisher popped.
   */
  datatype Trace = Trace(applied: seq<Event>, lost: nat, skew: set<Topic>, torn: bool, surplus: int,
                         arrived: seq<(Topic, Payload)>, missed: nat, taken: seq<(Topic, Payload)>, log: seq<Delivery>)

  datatype Hub = Hub(ix: Index<Sid>, conns: set<Sid>, sess: map<Sid, Session>,
                     redis: set<Topic>, count: int,
                     inbox: seq<(Topic, Payload)>, pub: Publisher, trace: Trace)

  datatype Action =
    | Connect(s: Sid)
    | AcceptFailed(s: Sid)
    | Accepted(s: Sid)
    | ReadFailed(s: Sid)
    | Request(s: Sid, kind: MsgType, list: seq<Topic>)
    | MarkTopic(s: Sid)
    | CommitTopic(s: Sid)
    | Finish(s: Sid)
    | Destroy(s: Sid, order: seq<Topic>)
    | RunSend(s: Sid)
    | RunWrite(s: Sid, ok: bool)
    | PopEvent
    | Consume(topic: Topic, payload: Payload)
    | PopMessage
    | Snapshot(visit: seq<Sid>)
    | Lock
    | Post

  function Init(domain: set<Topic>): Hub {
    Hub(Index(map t | t in domain :: {}, map[], []), {}, map[], {}, 0, [], Polling,
        Trace([], 0, {}, false, 0, [], 0, [], []))
  }

  /** Something owns a strong pointer to the session. */
  predicate HasRef(h: Hub, s: Sid)
    requires s in h.sess
  {
    var me := h.sess[s];
    || me.phase.Accepting? || me.phase.Reading? || me.phase.Serving?
    || me.posted != [] || me.writer.outstanding != []
    || (h.pub.Holding? && h.pub.sid == s)
  }

  predicate InPhase(h: Hub, s: Sid, p: Phase) {
    s in h.sess && h.sess[s].phase == p
  }

  function SetPhase(h: Hub, s: Sid, p: Phase): Hub
    requires s in h.sess
  {
    h.(sess := h.sess[s := h.sess[s].(phase := p)])
  }

  /** The session is inside a topic loop: a client request or its own destructor. */
  predicate Looping(h: Hub, s: Sid) {
    s in h.sess && (h.sess[s].phase.Serving? || h.sess[s].phase.Leaving?)
  }

  function SetTask(h: Hub, s: Sid, task: Task): Hub
    requires Looping(h, s)
  {
    SetPhase(h, s, if h.sess[s].phase.Serving? then Serving(task) else Leaving(task))
  }

  /** History of a CommitTopic: what the push, if any, did to the Redis side's knowledge. */
  function NoteEvent(tr: Trace, ix: Index<Sid>, kind: MsgType, s: Sid, t: Topic): Trace
    requires t in ix.members
  {
    if !Edge(ix, kind, s, t) then tr
    else if Full(ix.events) then tr.(lost := tr.lost + 1, skew := if t in tr.skew then tr.skew - {t} else tr.skew + {t})
    else if t in tr.skew then tr.(skew := tr.skew - {t}, torn := true, surplus := tr.surplus + Sign(Event(kind, t)))
    else tr
  }

  function ApplyEvent(redis: set<Topic>, e: Event): set<Topic> {
    match e.kind
    case Subscribe => redis + {e.topic}
    case Unsubscribe => redis - {e.topic}
  }

  function Sign(e: Event): int {
    if e.kind == Subscribe then 1 else -1
  }

  predicate NoRepeat<T(==)>(xs: seq<T>) {
    forall i, j :: 0 <= i < j < |xs| ==> xs[i] != xs[j]
  }

  function Elements<T(==, !new)>(xs: seq<T>): (s: set<T>)
    ensures forall x :: x in s <==> x in xs
  {
    set x | x in xs
  }

  /** xs visits each element of s once: the order a container happens to iterate in. */
  predicate Lists<T(==, !new)>(xs: seq<T>, s: set<T>) {
    NoRepeat(xs) && Elements(xs) == s
  }

  function MarkStep(h: Hub, s: Sid): Option<Hub> {
    if !Looping(h, s) then None
    else
      var task := h.sess[s].phase.task;
      if task.marked || task.rest == [] || s !in h.ix.topics then None
      else Some(SetTask(h, s, task.(marked := true)).(ix := Mark(h.ix, task.kind, s, task.rest[0])))
  }

  function CommitStep(h: Hub, s: Sid): Option<Hub> {
    if !Looping(h, s) then None
    else
      var task := h.sess[s].phase.task;
      if !task.marked || task.rest == [] || task.rest[0] !in h.ix.members then None
      else
        var t := task.rest[0];
        Some(SetTask(h, s, Task(task.kind, false, task.rest[1..])).(
             ix := Commit(h.ix, task.kind, s, t),
             trace := NoteEvent(h.trace, h.ix, task.kind, s, t)))
  }

  function FinishStep(h: Hub, s: Sid): Option<Hub> {
    if !Looping(h, s) then None
    else
      var phase := h.sess[s].phase;
      if phase.task.marked || phase.task.rest != [] then None
      else if phase.Serving? then Some(SetPhase(h, s, Reading))
      else Some(SetPhase(h, s, Gone).(conns := h.conns - {s}))
  }

  /** History of a Lock: the weak pointer of s locked for the newest message. */
  function NoteLocked(log: seq<Delivery>, s: Sid): seq<Delivery> {
    if log == [] then log
    else
      var init, d := log[..|log| - 1], log[|log| - 1];
      init + [d.(locked := d.locked + {s})]
  }

  /** The weak pointer at the head is locked if the session still has an owner, skipped otherwise. */
  function LockStep(h: Hub): Option<Hub> {
    if !h.pub.Fanning? || h.pub.pending == [] then None
    else
      var s, rest := h.pub.pending[0], h.pub.pending[1..];
      if s in h.sess && HasRef(h, s)
      then Some(h.(pub := Holding(h.pub.payload, s, rest), trace := h.trace.(log := NoteLocked(h.trace.log, s))))
      else Some(h.(pub := Fanning(h.pub.payload, rest)))
  }

  /** send: the payload is posted to the strand of the session held. */
  function PostStep(h: Hub): Option<Hub> {
    if !h.pub.Holding? || h.pub.sid !in h.sess then None
    else
      var s, payload := h.pub.sid, h.pub.payload;
      Some(h.(pub := Fanning(payload, h.pub.pending), sess := h.sess[s := h.sess[s].(posted := h.sess[s].posted + [payload])]))
  }

  /** The state after an action, or None when the action cannot happen. */
  function Next(h: Hub, a: Action): Option<Hub> {
    match a
    case Connect(s) =>
      if s in h.sess then None
      else Some(h.(sess := h.sess[s := Session(Accepting, [], Fresh())], ix := h.ix.(topics := h.ix.topics[s := {}])))
    case AcceptFailed(s) =>
      if InPhase(h, s, Accepting) then Some(SetPhase(h, s, Quiet)) else None
    case Accepted(s) =>
      if InPhase(h, s, Accepting) then Some(SetPhase(h, s, Reading).(conns := h.conns + {s})) else None
    case ReadFailed(s) =>
      if InPhase(h, s, Reading) then Some(SetPhase(h, s, Quiet)) else None
    case Request(s, kind, list) =>
      if InPhase(h, s, Reading) && forall t :: t in list ==> t in h.ix.members
      then Some(SetPhase(h, s, Serving(Task(kind, false, list)))) else None
    case MarkTopic(s) => MarkStep(h, s)
    case CommitTopic(s) => CommitStep(h, s)
    case Finish(s) => FinishStep(h, s)
    case Destroy(s, order) =>
      if InPhase(h, s, Quiet) && !HasRef(h, s) && s in h.ix.topics && Lists(order, h.ix.topics[s])
      then Some(SetPhase(h, s, Leaving(Task(Unsubscribe, false, order)))) else None
    case RunSend(s) =>
      if s !in h.sess || h.sess[s].posted == [] then None
      else
        var me := h.sess[s];
        Some(h.(sess := h.sess[s := me.(posted := me.posted[1..], writer := OnSend(me.writer, me.posted[0]))]))
    case RunWrite(s, ok) =>
      if s !in h.sess then None
      else
        var me := h.sess[s];
        (match WriteQueue.Call(me.writer, Written(ok))
         case At(w) => Some(h.(sess := h.sess[s := me.(writer := w)]))
         case _ => None)
    case PopEvent =>
      if h.ix.events == [] then None
      else
        var e := h.ix.events[0];
        Some(h.(ix := h.ix.(events := h.ix.events[1..]), redis := ApplyEvent(h.redis, e), count := h.count + Sign(e),
                trace := h.trace.(applied := h.trace.applied + [e])))
    case Consume(topic, payload) =>
      if h.count != 0 && topic in h.ix.members
      then Some(h.(inbox := Push(h.inbox, (topic, payload)),
                   trace := h.trace.(arrived := h.trace.arrived + [(topic, payload)],
                                     missed := h.trace.missed + if Full(h.inbox) then 1 else 0)))
      else None
    case PopMessage =>
      if !Through(h.pub) || h.inbox == [] then None
      else Some(h.(inbox := h.inbox[1..], pub := Popped(h.inbox[0].0, h.inbox[0].1),
                   trace := h.trace.(taken := h.trace.taken + [h.inbox[0]])))
    case Snapshot(visit) =>
      if h.pub.Popped? && h.pub.topic in h.ix.members && Lists(visit, h.ix.members[h.pub.topic])
      then Some(h.(pub := Fanning(h.pub.payload, visit),
                   trace := h.trace.(log := h.trace.log + [Delivery(h.pub.topic, h.pub.payload, h.ix.members[h.pub.topic], {})])))
      else None
    case Lock => LockStep(h)
    case Post => PostStep(h)
  }

  /** The state after a sequence of actions, or None when some action could not happen. */
  function ExecFrom(h: Hub, actions: seq<Action>): Option<Hub> {
    if actions == [] then Some(h)
    else
      match ExecFrom(h, actions[..|actions| - 1])
      case None => None
      case Some(k) => Next(k, actions[|actions| - 1])
  }

  /** A whole run from the start, over the configured topics. */
  function Exec(domain: set<Topic>, actions: seq<Action>): Option<Hub> {
    ExecFrom(Init(domain), actions)
  }

  // ---------- runs ----------

  lemma {:induction false} ExecStep(h: Hub, actions: seq<Action>, a: Action)
    ensures ExecFrom(h, actions + [a]) == match ExecFrom(h, actions) case None => None case Some(k) => Next(k, a)
  {
    assert (actions + [a])[..|actions + [a]| - 1] == actions;
  }

  lemma {:induction false} OneStepMore(h: Hub, run: seq<Action>, m: Hub, a: Action, k: Hub)
    requires ExecFrom(h, run) == Some(m) && Next(m, a) == Some(k)
    ensures ExecFrom(h, run + [a]) == Some(k)
  {
    ExecStep(h, run, a);
  }

  lemma {:induction false} ExecInTwoParts(h: Hub, a: seq<Action>, b: seq<Action>, k: Hub)
    requires ExecFrom(h, a) == Some(k)
    ensures ExecFrom(h, a + b) == ExecFrom(k, b)
  {
    if b == [] {
      assert a + b == a;
    } else {
      assert (a + b)[..|a + b| - 1] == a + b[..|b| - 1];
      ExecInTwoParts(h, a, b[..|b| - 1], k);
    }
  }

  lemma {:induction false} OneThenMore(h: Hub, a: Action, k: Hub, more: seq<Action>)
    requires Next(h, a) == Some(k)
    ensures ExecFrom(h, [a] + more) == ExecFrom(k, more)
  {
    assert [a][..0] == [];
    ExecStep(h, [], a);
    assert [] + [a] == [a];
    ExecInTwoParts(h, [a], more, k);
  }

  lemma {:induction false} SetsCanBeListed<T(!new)>(s: set<T>) returns (xs: seq<T>)
    ensures Lists(xs, s)
  {
    if s == {} {
      xs := [];
    } else {
      var y :| y in s;
      var ys := SetsCanBeListed(s - {y});
      xs := [y] + ys;
      assert y !in Elements(ys);
      assert Elements(xs) == {y} + Elements(ys);
    }
  }
}
