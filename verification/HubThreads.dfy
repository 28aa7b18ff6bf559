/**
 The two long-running loops of the hub on the heap: the subscriber turning events
 into Redis subscriptions, and the publisher fanning a message out.
 */
module HubThreads {
  import opened Wrappers
  import opened SpscQueue
  import opened TopicIndex
  import opened HubSystem
  import opened HubEvents
  import opened SharedStates

  class Subscriber {
    const state: SharedState
    /** The Redis side of the connection. */
    var redis: set<Topic>
    var topicsSubscribedCount: int

    constructor (state: SharedState)
      ensures this.state == state && redis == {} && topicsSubscribedCount == 0
    {
      this.state := state;
      redis, topicsSubscribedCount := {}, 0;
    }

    /** One pass: consume, if anything is counted, then one event. `arrival` is what consume would deliver. */
    method Pass(arrival: Option<(Topic, Payload)>)
      modifies this, state`spscQueue, state`spscQueueSubscriber
      ensures state.spscQueue ==
        if old(topicsSubscribedCount) != 0 && arrival.Some? then Push(old(state.spscQueue), arrival.value) else old(state.spscQueue)
      ensures var events := old(state.spscQueueSubscriber);
        if events == [] then
          state.spscQueueSubscriber == [] && redis == old(redis) && topicsSubscribedCount == old(topicsSubscribedCount)
        else
          && state.spscQueueSubscriber == events[1..]
          && redis == ApplyEvent(old(redis), events[0])
          && topicsSubscribedCount == old(topicsSubscribedCount) + Sign(events[0])
    {
      if topicsSubscribedCount != 0 && arrival.Some? {
        state.spscQueue := Push(state.spscQueue, arrival.value);
      }
      if state.spscQueueSubscriber != [] {
        var e := state.spscQueueSubscriber[0];
        state.spscQueueSubscriber := state.spscQueueSubscriber[1..];
        match e.kind {
          case Subscribe =>
            redis := redis + {e.topic};
            topicsSubscribedCount := topicsSubscribedCount + 1;
          case Unsubscribe =>
            redis := redis - {e.topic};
            topicsSubscribedCount := topicsSubscribedCount - 1;
        }
      }
    }

    /** One pass, after what the other threads did before it. `popped` and `start` are the loop's history. */
    method Turn(arrival: Option<(Topic, Payload)>, pushes: seq<Event>, takes: nat, ghost popped: seq<Event>, ghost start: set<Topic>)
      returns (ghost popped': seq<Event>)
      requires redis == Replay(popped, start)
      modifies this, state`spscQueue, state`spscQueueSubscriber
      ensures (popped', state.spscQueueSubscriber) == Poll(popped, PushAll(old(state.spscQueueSubscriber), pushes))
      ensures redis == Replay(popped', start)
      ensures topicsSubscribedCount - Balance(popped') == old(topicsSubscribedCount) - Balance(popped)
      ensures state.spscQueue ==
        PushSome(After(old(state.spscQueue), takes), if old(topicsSubscribedCount) != 0 then arrival else None)
    {
      state.spscQueueSubscriber := PushAll(state.spscQueueSubscriber, pushes);
      state.spscQueue := After(state.spscQueue, takes);
      ghost var events := state.spscQueueSubscriber;
      popped' := popped;
      if events != [] {
        ExtendByOne(popped, events[0], start);
        popped' := popped + [events[0]];
      }
      Pass(arrival);
    }

    /**
     The loop for as many passes as there are arrivals. Before each pass sessions
     push events and the publisher takes messages. The events popped are those a
     polling consumer reads, the subscription is their replay; `counts` are the
     counter's values before each pass, the balance of the events popped until then.
     A pass hands on its arrival exactly when the counter is not zero; if nothing is
     taken and there is room, those handed on are what the queue has gained.
     */
    method Subscribe(arrivals: seq<Option<(Topic, Payload)>>, pushes: seq<seq<Event>>, takes: seq<nat>)
      returns (ghost popped: seq<Event>, ghost counts: seq<int>, ghost handed: seq<Option<(Topic, Payload)>>)
      requires |pushes| == |takes| == |arrivals|
      modifies this, state`spscQueue, state`spscQueueSubscriber
      ensures (popped, state.spscQueueSubscriber) == Served(old(state.spscQueueSubscriber), pushes, |pushes|)
      ensures redis == Replay(popped, old(redis))
      ensures topicsSubscribedCount == old(topicsSubscribedCount) + Balance(popped)
      ensures |counts| == |handed| == |arrivals|
      ensures forall k :: 0 <= k < |counts| ==>
        counts[k] == old(topicsSubscribedCount) + Balance(Served(old(state.spscQueueSubscriber), pushes, k).0)
      ensures forall k :: 0 <= k < |counts| ==> handed[k] == if counts[k] != 0 then arrivals[k] else None
      ensures state.spscQueue == Relayed(old(state.spscQueue), handed, takes)
      ensures (forall k :: 0 <= k < |takes| ==> takes[k] == 0) && |old(state.spscQueue)| + |arrivals| <= 1024
        ==> state.spscQueue == old(state.spscQueue) + Somes(handed)
    {
      popped, counts, handed := [], [], [];
      ghost var count, events := topicsSubscribedCount, state.spscQueueSubscriber;
      for i := 0 to |arrivals|
        invariant (popped, state.spscQueueSubscriber) == Served(events, pushes, i)
        invariant redis == Replay(popped, old(redis))
        invariant topicsSubscribedCount == count + Balance(popped)
        invariant |counts| == |handed| == i && Counted(count, events, pushes, counts) && Handed(counts, arrivals, handed)
        invariant state.spscQueue == Relayed(old(state.spscQueue), handed, takes)
      {
        ghost var message := if topicsSubscribedCount != 0 then arrivals[i] else None;
        RelayedOneMore(old(state.spscQueue), handed, message, takes);
        OneMorePass(count, events, arrivals, pushes, counts, handed, topicsSubscribedCount, message);
        counts, handed := counts + [topicsSubscribedCount], handed + [message];
        popped := Turn(arrivals[i], pushes[i], takes[i], popped, old(redis));
      }
      RelayedWithRoom(old(state.spscQueue), handed, takes);
    }
  }

  /** The counter's values before each pass. */
  ghost predicate Counted(count: int, events: seq<Event>, pushes: seq<seq<Event>>, counts: seq<int>) {
    |counts| <= |pushes| && forall k :: 0 <= k < |counts| ==> counts[k] == count + Balance(Served(events, pushes, k).0)
  }

  /** Each pass hands on its arrival exactly when the counter is not zero. */
  ghost predicate Handed(counts: seq<int>, arrivals: seq<Option<(Topic, Payload)>>, handed: seq<Option<(Topic, Payload)>>) {
    && |counts| == |handed| <= |arrivals|
    && forall k :: 0 <= k < |counts| ==> handed[k] == if counts[k] != 0 then arrivals[k] else None
  }

  lemma OneMorePass(count: int, events: seq<Event>, arrivals: seq<Option<(Topic, Payload)>>, pushes: seq<seq<Event>>,
                    counts: seq<int>, handed: seq<Option<(Topic, Payload)>>, now: int, message: Option<(Topic, Payload)>)
    requires |arrivals| == |pushes| && |counts| < |arrivals|
    requires Counted(count, events, pushes, counts) && Handed(counts, arrivals, handed)
    requires now == count + Balance(Served(events, pushes, |counts|).0)
    requires message == if now != 0 then arrivals[|counts|] else None
    ensures Counted(count, events, pushes, counts + [now]) && Handed(counts + [now], arrivals, handed + [message])
  {
  }

  class Publisher {
    const state: SharedState

    constructor (state: SharedState)
      ensures this.state == state
    {
      this.state := state;
    }

    /** Under the symbol's mutex: the sessions, each once, in the set's order. */
    method Snapshot(topic: Topic) returns (v: seq<WebsocketSession>)
      requires topic in state.symbols
      ensures forall s :: s in v <==> s in state.symbols[topic].sessions
      ensures NoRepeat(v)
    {
      v := [];
      var todo := state.symbols[topic].sessions;
      while todo != {}
        invariant todo <= state.symbols[topic].sessions
        invariant forall s :: s in v <==> s in state.symbols[topic].sessions && s !in todo
        invariant NoRepeat(v)
        decreases todo
      {
        var p :| p in todo;
        v := v + [p];
        todo := todo - {p};
      }
    }

    /**
     One message: each member is tried once, and has the message posted exactly once
     if its weak pointer locks at that moment; nobody else is touched. `owned`: the
     sessions that have an owner when the i-th pointer is tried, which may change
     from one to the next.
     */
    method Publish(topic: Topic, message: Payload, owned: nat -> set<WebsocketSession>)
      returns (ghost v: seq<WebsocketSession>)
      requires topic in state.symbols
      modifies set s | s in state.symbols[topic].sessions :: s`posted
      ensures NoRepeat(v) && forall s :: s in v <==> s in old(state.symbols[topic].sessions)
      ensures forall i :: 0 <= i < |v| ==>
        v[i] in old(state.symbols[topic].sessions)
        && v[i].posted == old(v[i].posted) + if v[i] in owned(i) then [message] else []
    {
      var w := Snapshot(topic);
      v := w;
      for i := 0 to |w|
        invariant forall j :: 0 <= j < |v| ==>
          v[j] in old(state.symbols[topic].sessions)
          && v[j].posted == old(v[j].posted) + if j < i && v[j] in owned(j) then [message] else []
      {
        assert w[i] in old(state.symbols[topic].sessions);
        if w[i] in owned(i) {
          w[i].Send(message);
        }
      }
    }
  }
}
