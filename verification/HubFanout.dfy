/**
 From a popped message to the bytes of each session: the publisher copies weak
 pointers under the symbol's mutex, tries them without it, and each session
 writes what was posted to it in order.
 */
module HubFanout {
  import opened Wrappers
  import opened SpscQueue
  import opened TopicIndex
  import opened WriteQueue
  import opened HubSystem
  import opened Sequences

  /** Everything the session was sent: written, queued, and still posted on its strand. */
  function Stream(me: Session): seq<Payload> {
    me.writer.written + me.writer.queue + me.posted
  }

  /** The payloads of the deliveries for which the weak pointer of s locked, in the order they were popped. */
  function Collect(log: seq<Delivery>, s: Sid): seq<Payload> {
    if log == [] then []
    else
      var d := log[|log| - 1];
      Collect(log[..|log| - 1], s) + if s in d.locked then [d.payload] else []
  }

  function Pairs(log: seq<Delivery>): (r: seq<(Topic, Payload)>)
    ensures |r| == |log| && forall i :: 0 <= i < |r| ==> r[i] == (log[i].topic, log[i].payload)
  {
    seq(|log|, i requires 0 <= i < |log| => (log[i].topic, log[i].payload))
  }

  /** The publisher has yet to try the weak pointer of s for the current message. */
  predicate Awaited(pub: Publisher, s: Sid) {
    match pub
    case Fanning(_, pending) => s in pending
    case Holding(_, _, pending) => s in pending
    case _ => false
  }

  /** The message the publisher holds s for but has not posted yet. */
  function InHand(h: Hub, s: Sid): seq<Payload> {
    if h.pub.Holding? && h.pub.sid == s then [h.pub.payload] else []
  }

  ghost predicate StreamAt(h: Hub, s: Sid)
    requires s in h.sess
  {
    Sound(h.sess[s].writer) && Stream(h.sess[s]) + InHand(h, s) == Collect(h.trace.log, s)
  }

  /** A session that was in the snapshot was locked, or is awaited, or had lost its last owner. */
  predicate Settled(h: Hub, i: nat, s: Sid)
    requires i < |h.trace.log|
  {
    || s in h.trace.log[i].locked
    || (s in h.sess && !HasRef(h, s))
    || (i == |h.trace.log| - 1 && Awaited(h.pub, s))
  }

  ghost predicate StreamInv(h: Hub) {
    forall s :: s in h.sess ==> StreamAt(h, s)
  }

  ghost predicate LogInv(h: Hub) {
    && h.trace.taken == Pairs(h.trace.log) + (if h.pub.Popped? then [(h.pub.topic, h.pub.payload)] else [])
    && (forall i :: 0 <= i < |h.trace.log| ==>
         h.trace.log[i].locked <= h.trace.log[i].snapshot && h.trace.log[i].snapshot <= h.sess.Keys)
    && (h.pub.Polling? ==> h.trace.log == [])
    && (h.pub.Fanning? || h.pub.Holding? ==>
         && NoRepeat(h.pub.pending)
         && h.trace.log != [] && h.pub.payload == h.trace.log[|h.trace.log| - 1].payload)
    && (h.pub.Holding? ==> h.pub.sid in h.sess)
    && (forall s :: Awaited(h.pub, s) ==>
         s in h.trace.log[|h.trace.log| - 1].snapshot && s !in h.trace.log[|h.trace.log| - 1].locked)
  }

  ghost predicate SettledInv(h: Hub) {
    forall i, s :: 0 <= i < |h.trace.log| && s in h.trace.log[i].snapshot ==> Settled(h, i, s)
  }

  /** The destructor runs, and memory is freed, only without owners. */
  ghost predicate OwnerInv(h: Hub) {
    forall s :: s in h.sess && (h.sess[s].phase.Leaving? || h.sess[s].phase.Gone?) ==> !HasRef(h, s)
  }

  /** What travels from Redis to the publisher: configured topics only, in order, all but what the queue refused. */
  ghost predicate InboxInv(h: Hub) {
    && (forall i :: 0 <= i < |h.inbox| ==> h.inbox[i].0 in h.ix.members)
    && (h.pub.Popped? ==> h.pub.topic in h.ix.members)
    && Sub(h.trace.taken + h.inbox, h.trace.arrived)
    && |h.trace.taken| + |h.inbox| + h.trace.missed == |h.trace.arrived|
  }

  lemma ConsumeKeepsInbox(h: Hub, topic: Topic, payload: Payload, k: Hub)
    requires InboxInv(h) && Next(h, Consume(topic, payload)) == Some(k)
    ensures InboxInv(k)
  {
    ArrivalKeepsOrder(h.trace.taken, h.inbox, h.trace.arrived, (topic, payload));
  }

  lemma NextKeepsInbox(h: Hub, a: Action, k: Hub)
    requires InboxInv(h) && Next(h, a) == Some(k)
    ensures InboxInv(k)
  {
    match a {
      case Consume(topic, payload) => ConsumeKeepsInbox(h, topic, payload, k);
      case PopMessage => assert k.trace.taken + k.inbox == h.trace.taken + h.inbox;
      case _ => OthersKeepInbox(h, a, k);
    }
  }

  lemma OthersKeepInbox(h: Hub, a: Action, k: Hub)
    requires Next(h, a) == Some(k) && !a.Consume? && !a.PopMessage?
    ensures k.inbox == h.inbox && k.trace.taken == h.trace.taken && k.trace.arrived == h.trace.arrived
    ensures k.trace.missed == h.trace.missed && k.ix.members.Keys == h.ix.members.Keys
    ensures k.pub.Popped? ==> k.pub == h.pub
  {
  }

  // ---------- ownership ----------

  /** Once the last owner is gone, no action makes a new one: a weak pointer never revives. */
  lemma UnownedForever(h: Hub, a: Action, k: Hub, s: Sid)
    requires Next(h, a) == Some(k)
    requires s in h.sess && !HasRef(h, s)
    ensures s in k.sess && !HasRef(k, s)
  {
  }

  lemma NextKeepsOwners(h: Hub, a: Action, k: Hub)
    requires OwnerInv(h) && Next(h, a) == Some(k)
    ensures OwnerInv(k)
  {
    forall s | s in k.sess && (k.sess[s].phase.Leaving? || k.sess[s].phase.Gone?)
      ensures !HasRef(k, s)
    {
      DepartureNeedsNoOwner(h, a, k, s);
      UnownedForever(h, a, k, s);
    }
  }

  lemma DepartureNeedsNoOwner(h: Hub, a: Action, k: Hub, s: Sid)
    requires OwnerInv(h) && Next(h, a) == Some(k)
    requires s in k.sess && (k.sess[s].phase.Leaving? || k.sess[s].phase.Gone?)
    ensures s in h.sess && !HasRef(h, s)
  {
  }

  // ---------- streams ----------

  lemma {:induction false} CollectNothing(log: seq<Delivery>, s: Sid)
    requires forall i :: 0 <= i < |log| ==> s !in log[i].locked
    ensures Collect(log, s) == []
  {
    if log != [] {
      CollectNothing(log[..|log| - 1], s);
    }
  }

  lemma CollectAppend(log: seq<Delivery>, d: Delivery, s: Sid)
    ensures Collect(log + [d], s) == Collect(log, s) + if s in d.locked then [d.payload] else []
  {
    assert (log + [d])[..|log + [d]| - 1] == log;
  }

  /** A session's stream depends only on its own record, the log and what the publisher holds. */
  lemma StreamFrame(h: Hub, k: Hub)
    requires StreamInv(h) && k.trace.log == h.trace.log && k.sess.Keys == h.sess.Keys
    requires forall s :: s in h.sess ==> k.sess[s].posted == h.sess[s].posted && k.sess[s].writer == h.sess[s].writer
    requires forall s :: InHand(k, s) == InHand(h, s)
    ensures StreamInv(k)
  {
    forall s | s in k.sess
      ensures StreamAt(k, s)
    {
      assert StreamAt(h, s);
    }
  }

  lemma ConnectKeepsStreams(h: Hub, s: Sid, k: Hub)
    requires StreamInv(h) && LogInv(h) && Next(h, Connect(s)) == Some(k)
    ensures StreamInv(k)
  {
    CollectNothing(h.trace.log, s);
    forall r | r in k.sess
      ensures StreamAt(k, r)
    {
      if r != s {
        assert StreamAt(h, r);
      }
    }
  }

  /** A callback on one session's strand moves messages within that session only. */
  lemma StrandFrame(h: Hub, s: Sid, me: Session, k: Hub)
    requires StreamInv(h) && s in h.sess && k == h.(sess := h.sess[s := me])
    requires Sound(me.writer) && Stream(me) == Stream(h.sess[s])
    ensures StreamInv(k)
  {
    assert StreamAt(h, s);
    forall r | r in k.sess
      ensures StreamAt(k, r)
    {
      assert StreamAt(h, r);
    }
  }

  lemma RunSendKeepsStreams(h: Hub, s: Sid, k: Hub)
    requires StreamInv(h) && Next(h, RunSend(s)) == Some(k)
    ensures StreamInv(k)
  {
    assert StreamAt(h, s);
    var me := h.sess[s];
    var m := me.posted[0];
    CallKeepsSound(me.writer, Callback.Send(m));
    assert me.posted == [m] + me.posted[1..];
    assert Stream(k.sess[s]) == Stream(me);
    StrandFrame(h, s, k.sess[s], k);
  }

  lemma RunWriteKeepsStreams(h: Hub, s: Sid, ok: bool, k: Hub)
    requires StreamInv(h) && Next(h, RunWrite(s, ok)) == Some(k)
    ensures StreamInv(k)
  {
    var me := h.sess[s];
    assert StreamAt(h, s);
    CallKeepsSound(me.writer, Callback.Written(ok));
    var w := Call(me.writer, Callback.Written(ok)).w;
    assert Stream(me.(writer := w)) == Stream(me);
    StrandFrame(h, s, me.(writer := w), k);
  }

  lemma SnapshotKeepsStreams(h: Hub, visit: seq<Sid>, k: Hub)
    requires StreamInv(h) && Next(h, Snapshot(visit)) == Some(k)
    ensures StreamInv(k)
  {
    forall r | r in k.sess
      ensures StreamAt(k, r)
    {
      assert StreamAt(h, r);
      CollectAppend(h.trace.log, k.trace.log[|h.trace.log|], r);
    }
  }

  /** Locking one more weak pointer for the newest message. */
  lemma CollectAfterLock(log: seq<Delivery>, s: Sid, r: Sid)
    requires log != [] && s !in log[|log| - 1].locked
    ensures Collect(NoteLocked(log, s), r) == Collect(log, r) + if r == s then [log[|log| - 1].payload] else []
  {
    var init, d := log[..|log| - 1], log[|log| - 1];
    assert log == init + [d];
    CollectAppend(init, d, r);
    CollectAppend(init, d.(locked := d.locked + {s}), r);
  }

  lemma LockKeepsStreams(h: Hub, k: Hub)
    requires StreamInv(h) && LogInv(h) && LockStep(h) == Some(k)
    ensures StreamInv(k)
  {
    var s := h.pub.pending[0];
    assert Awaited(h.pub, s);
    if k.pub.Holding? {
      forall r | r in k.sess
        ensures StreamAt(k, r)
      {
        assert StreamAt(h, r);
        CollectAfterLock(h.trace.log, s, r);
      }
    } else {
      StreamFrame(h, k);
    }
  }

  lemma PostKeepsStreams(h: Hub, k: Hub)
    requires StreamInv(h) && LogInv(h) && PostStep(h) == Some(k)
    ensures StreamInv(k)
  {
    var s := h.pub.sid;
    forall r | r in k.sess
      ensures StreamAt(k, r)
    {
      assert StreamAt(h, r);
      if r == s {
        assert Stream(k.sess[s]) == Stream(h.sess[s]) + InHand(h, s);
      }
    }
  }

  /** The remaining actions move no message. */
  lemma OthersMoveNoMessage(h: Hub, a: Action, k: Hub)
    requires Next(h, a) == Some(k)
    requires !a.Connect? && !a.RunSend? && !a.RunWrite? && !a.Snapshot? && !a.Lock? && !a.Post?
    ensures k.trace.log == h.trace.log && k.sess.Keys == h.sess.Keys
    ensures forall s :: InHand(k, s) == InHand(h, s)
    ensures forall s :: s in h.sess ==> k.sess[s].posted == h.sess[s].posted && k.sess[s].writer == h.sess[s].writer
  {
  }

  lemma NextKeepsStreams(h: Hub, a: Action, k: Hub)
    requires StreamInv(h) && LogInv(h) && Next(h, a) == Some(k)
    ensures StreamInv(k)
  {
    match a {
      case Connect(s) => ConnectKeepsStreams(h, s, k);
      case RunSend(s) => RunSendKeepsStreams(h, s, k);
      case RunWrite(s, ok) => RunWriteKeepsStreams(h, s, ok, k);
      case Snapshot(visit) => SnapshotKeepsStreams(h, visit, k);
      case Lock => LockKeepsStreams(h, k);
      case Post => PostKeepsStreams(h, k);
      case _ =>
        OthersMoveNoMessage(h, a, k);
        StreamFrame(h, k);
    }
  }

  // ---------- the log ----------

  lemma LogFrame(h: Hub, k: Hub)
    requires LogInv(h) && k.trace.log == h.trace.log && k.trace.taken == h.trace.taken && k.pub == h.pub
    requires h.sess.Keys <= k.sess.Keys
    ensures LogInv(k)
  {
  }

  lemma LockKeepsLog(h: Hub, k: Hub)
    requires LogInv(h) && LockStep(h) == Some(k)
    ensures LogInv(k)
  {
    var s, rest := h.pub.pending[0], h.pub.pending[1..];
    assert Awaited(h.pub, s);
    assert Pairs(k.trace.log) == Pairs(h.trace.log);
    forall r | Awaited(k.pub, r)
      ensures Awaited(h.pub, r) && r != s
    {
      var i :| 0 <= i < |rest| && rest[i] == r;
      assert h.pub.pending[i + 1] == r;
    }
  }

  lemma PostKeepsLog(h: Hub, k: Hub)
    requires LogInv(h) && PostStep(h) == Some(k)
    ensures LogInv(k)
  {
    assert forall r :: Awaited(k.pub, r) ==> Awaited(h.pub, r);
  }

  lemma SnapshotKeepsLog(h: Hub, visit: seq<Sid>, k: Hub)
    requires LogInv(h) && Next(h, Snapshot(visit)) == Some(k)
    requires h.ix.members[h.pub.topic] <= h.sess.Keys
    ensures LogInv(k)
  {
    assert Pairs(k.trace.log) == Pairs(h.trace.log) + [(h.pub.topic, h.pub.payload)];
    forall r | Awaited(k.pub, r)
      ensures r in h.ix.members[h.pub.topic]
    {
      assert r in Elements(visit);
    }
  }

  lemma PopMessageKeepsLog(h: Hub, k: Hub)
    requires LogInv(h) && Next(h, PopMessage) == Some(k)
    ensures LogInv(k)
  {
    assert Pairs(h.trace.log) + [] == Pairs(h.trace.log);
  }

  lemma NextKeepsLog(h: Hub, a: Action, k: Hub)
    requires LogInv(h) && Next(h, a) == Some(k)
    requires forall t :: t in h.ix.members ==> h.ix.members[t] <= h.sess.Keys
    ensures LogInv(k)
  {
    match a {
      case PopMessage => PopMessageKeepsLog(h, k);
      case Snapshot(visit) => SnapshotKeepsLog(h, visit, k);
      case Lock => LockKeepsLog(h, k);
      case Post => PostKeepsLog(h, k);
      case _ => LogFrame(h, k);
    }
  }

  // ---------- nobody who stayed was skipped ----------

  lemma NextKeepsSettled(h: Hub, a: Action, k: Hub)
    requires SettledInv(h) && LogInv(h) && Next(h, a) == Some(k)
    ensures SettledInv(k)
  {
    forall i, s | 0 <= i < |k.trace.log| && s in k.trace.log[i].snapshot
      ensures Settled(k, i, s)
    {
      if i < |h.trace.log| {
        StepSettles(h, a, k, i, s);
      } else {
        assert a.Snapshot?;
        assert s in Elements(a.visit);
      }
    }
  }

  lemma StepSettles(h: Hub, a: Action, k: Hub, i: nat, s: Sid)
    requires LogInv(h) && Next(h, a) == Some(k)
    requires i < |h.trace.log| && s in h.trace.log[i].snapshot && Settled(h, i, s)
    ensures i < |k.trace.log| && Settled(k, i, s)
  {
    if s in h.sess && !HasRef(h, s) {
      UnownedForever(h, a, k, s);
    } else if a == Lock {
      LockSettles(h, k, i, s);
    }
  }

  lemma LockSettles(h: Hub, k: Hub, i: nat, s: Sid)
    requires LogInv(h) && LockStep(h) == Some(k)
    requires i < |h.trace.log| && s in h.trace.log[i].snapshot && Settled(h, i, s) && (s in h.sess ==> HasRef(h, s))
    ensures i < |k.trace.log| && Settled(k, i, s)
  {
    assert h.pub.pending == [h.pub.pending[0]] + h.pub.pending[1..];
  }
}
