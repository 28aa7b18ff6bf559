/**
 A concrete run in which a refused push misleads the subscriber for good: with
 1024 events pending, a SUBSCRIBE is dropped; its later UNSUBSCRIBE is accepted
 and drives the counter to -1, so consume runs with nothing subscribed.
 */
module HubOverflow {
  import opened Wrappers
  import opened SpscQueue
  import opened TopicIndex
  import opened WriteQueue
  import opened HubSystem
  import opened HubEvents
  import opened HubRuns
  import opened HubDelivery

  const QUOTE: Topic := "ETH-USD"

  /** One client of one topic; `listed` in the symbol's set, `mine` in its own record. */
  function Client(phase: Phase, listed: bool, mine: bool, events: seq<Event>, redis: set<Topic>, count: int, tr: Trace): Hub {
    Hub(Index(map[QUOTE := if listed then {0} else {}], map[0 := if mine then {QUOTE} else {}], events),
        {0}, map[0 := Session(phase, [], Fresh())], redis, count, [], Polling, tr)
  }

  /** The client between two requests. */
  function Idle(inside: bool, events: seq<Event>, redis: set<Topic>, count: int, tr: Trace): Hub {
    Client(Reading, inside, inside, events, redis, count, tr)
  }

  const QUIET: Trace := Trace([], 0, {}, false, 0, [], 0, [], [])

  function Ask(kind: MsgType): seq<Action> {
    [Request(0, kind, [QUOTE]), MarkTopic(0), CommitTopic(0), Finish(0)]
  }

  lemma AskMarks(kind: MsgType, events: seq<Event>, redis: set<Topic>, count: int, tr: Trace)
    ensures Next(Client(Serving(Task(kind, false, [QUOTE])), kind == Unsubscribe, kind == Unsubscribe, events, redis, count, tr), MarkTopic(0))
         == Some(Client(Serving(Task(kind, true, [QUOTE])), kind == Unsubscribe, kind == Subscribe, events, redis, count, tr))
  {
    assert {} + {QUOTE} == {QUOTE} && {QUOTE} - {QUOTE} == {};
    var h := Client(Serving(Task(kind, false, [QUOTE])), kind == Unsubscribe, kind == Unsubscribe, events, redis, count, tr);
    var k := Client(Serving(Task(kind, true, [QUOTE])), kind == Unsubscribe, kind == Subscribe, events, redis, count, tr);
    assert h.ix.topics[0 := k.ix.topics[0]] == k.ix.topics;
    assert h.sess[0 := k.sess[0]] == k.sess;
  }

  lemma AskCommits(kind: MsgType, events: seq<Event>, redis: set<Topic>, count: int, tr: Trace)
    ensures var h := Client(Serving(Task(kind, true, [QUOTE])), kind == Unsubscribe, kind == Subscribe, events, redis, count, tr);
      Next(h, CommitTopic(0)) == Some(Client(Serving(Task(kind, false, [])), kind == Subscribe, kind == Subscribe,
                                             Push(events, Event(kind, QUOTE)), redis, count, NoteEvent(tr, h.ix, kind, 0, QUOTE)))
  {
    var h := Client(Serving(Task(kind, true, [QUOTE])), kind == Unsubscribe, kind == Subscribe, events, redis, count, tr);
    var k := Client(Serving(Task(kind, false, [])), kind == Subscribe, kind == Subscribe,
                    Push(events, Event(kind, QUOTE)), redis, count, NoteEvent(tr, h.ix, kind, 0, QUOTE));
    assert {} + {0} == {0} && {0} - {0} == {};
    assert [QUOTE][1..] == [];
    assert h.ix.members[QUOTE := k.ix.members[QUOTE]] == k.ix.members;
    assert h.sess[0 := k.sess[0]] == k.sess;
  }

  lemma AskBeginsAndEnds(kind: MsgType, events: seq<Event>, redis: set<Topic>, count: int, tr: Trace)
    ensures Next(Idle(kind == Unsubscribe, events, redis, count, tr), Request(0, kind, [QUOTE]))
         == Some(Client(Serving(Task(kind, false, [QUOTE])), kind == Unsubscribe, kind == Unsubscribe, events, redis, count, tr))
    ensures Next(Client(Serving(Task(kind, false, [])), kind == Subscribe, kind == Subscribe, events, redis, count, tr), Finish(0))
         == Some(Idle(kind == Subscribe, events, redis, count, tr))
  {
    var h := Idle(kind == Unsubscribe, events, redis, count, tr);
    assert h.sess[0 := Session(Serving(Task(kind, false, [QUOTE])), [], Fresh())] == map[0 := Session(Serving(Task(kind, false, [QUOTE])), [], Fresh())];
    assert map[0 := Session(Serving(Task(kind, false, [])), [], Fresh())][0 := Session(Reading, [], Fresh())]
        == map[0 := Session(Reading, [], Fresh())];
  }

  function Noted(kind: MsgType, events: seq<Event>, tr: Trace): Trace {
    NoteEvent(tr, Idle(kind == Unsubscribe, events, {}, 0, tr).ix, kind, 0, QUOTE)
  }

  /** One request of the client, from outside to inside the topic or back. */
  lemma AskOnce(kind: MsgType, events: seq<Event>, redis: set<Topic>, count: int, tr: Trace)
    ensures ExecFrom(Idle(kind == Unsubscribe, events, redis, count, tr), Ask(kind))
         == Some(Idle(kind == Subscribe, Push(events, Event(kind, QUOTE)), redis, count, Noted(kind, events, tr)))
  {
    var h := Idle(kind == Unsubscribe, events, redis, count, tr);
    var a, b, c, d := Request(0, kind, [QUOTE]), MarkTopic(0), CommitTopic(0), Finish(0);
    AskBeginsAndEnds(kind, events, redis, count, tr);
    AskMarks(kind, events, redis, count, tr);
    AskCommits(kind, events, redis, count, tr);
    AskBeginsAndEnds(kind, Push(events, Event(kind, QUOTE)), redis, count, Noted(kind, events, tr));
    ExecStep(h, [], a);
    ExecStep(h, [a], b);
    ExecStep(h, [a, b], c);
    ExecStep(h, [a, b, c], d);
    assert [] + [a] == [a] && [a] + [b] == [a, b] && [a, b] + [c] == [a, b, c] && [a, b, c] + [d] == Ask(kind);
  }

  // ---------- filling the queue ----------

  /** n rounds of subscribing and unsubscribing. */
  function Rounds(n: nat): seq<Action> {
    if n == 0 then [] else Rounds(n - 1) + Ask(Subscribe) + Ask(Unsubscribe)
  }

  function Toggles(n: nat): (r: seq<Event>)
    ensures |r| == 2 * n
  {
    if n == 0 then [] else Toggles(n - 1) + [Event(Subscribe, QUOTE), Event(Unsubscribe, QUOTE)]
  }

  lemma {:induction false} RoundsFillTheQueue(n: nat)
    requires 2 * n <= CAPACITY
    ensures ExecFrom(Idle(false, [], {}, 0, QUIET), Rounds(n)) == Some(Idle(false, Toggles(n), {}, 0, QUIET))
  {
    if n > 0 {
      var h := Idle(false, [], {}, 0, QUIET);
      RoundsFillTheQueue(n - 1);
      var full := Toggles(n - 1) + [Event(Subscribe, QUOTE)];
      AskOnce(Subscribe, Toggles(n - 1), {}, 0, QUIET);
      assert Noted(Subscribe, Toggles(n - 1), QUIET) == QUIET;
      ExecInTwoParts(h, Rounds(n - 1), Ask(Subscribe), Idle(false, Toggles(n - 1), {}, 0, QUIET));
      AskOnce(Unsubscribe, full, {}, 0, QUIET);
      assert Noted(Unsubscribe, full, QUIET) == QUIET;
      ExecInTwoParts(h, Rounds(n - 1) + Ask(Subscribe), Ask(Unsubscribe), Idle(true, full, {}, 0, QUIET));
      assert full + [Event(Unsubscribe, QUOTE)] == Toggles(n);
    }
  }

  lemma {:induction false} TogglesLeaveNothing(n: nat)
    ensures Replay(Toggles(n), {}) == {} && Balance(Toggles(n)) == 0
  {
    if n > 0 {
      TogglesLeaveNothing(n - 1);
      var half := Toggles(n - 1) + [Event(Subscribe, QUOTE)];
      ExtendByOne(Toggles(n - 1), Event(Subscribe, QUOTE), {});
      ExtendByOne(half, Event(Unsubscribe, QUOTE), {});
      assert half + [Event(Unsubscribe, QUOTE)] == Toggles(n);
    }
  }

  // ---------- draining it ----------

  lemma PopsDrain(inside: bool, events: seq<Event>, tr: Trace)
    ensures ExecFrom(Idle(inside, events, {}, 0, tr), Pops(|events|))
         == Some(Idle(inside, [], Replay(events, {}), Balance(events), tr.(applied := tr.applied + events)))
  {
    EventsDrain(Idle(inside, events, {}, 0, tr), |events|);
    assert events[..|events|] == events && events[|events|..] == [];
  }

  // ---------- the run ----------

  lemma StartsIdle()
    ensures Exec({QUOTE}, [Connect(0), Action.Accepted(0)]) == Some(Idle(false, [], {}, 0, QUIET))
  {
    var h, a, b := Init({QUOTE}), Connect(0), Action.Accepted(0);
    assert h.ix.members == map[QUOTE := {}];
    var accepting := Client(Accepting, false, false, [], {}, 0, QUIET).(conns := {});
    assert Next(h, a) == Some(accepting);
    assert accepting.sess[0 := Session(Reading, [], Fresh())] == Idle(false, [], {}, 0, QUIET).sess;
    assert accepting.conns + {0} == {0};
    assert Next(accepting, b) == Some(Idle(false, [], {}, 0, QUIET));
    ExecStep(h, [], a);
    ExecStep(h, [a], b);
    assert [] + [a] == [a] && [a] + [b] == [a, b];
  }

  /** So many rounds of two events fill the queue. */
  const FILL: nat := CAPACITY / 2

  /** The trace after the first refused SUBSCRIBE. */
  function AfterRefusal(): Trace {
    QUIET.(lost := 1, skew := {QUOTE}, applied := Toggles(FILL))
  }

  function Refusal(): seq<Action> {
    [Connect(0), Action.Accepted(0)] + Rounds(FILL) + Ask(Subscribe) + Pops(2 * FILL)
  }

  lemma AskInVain(events: seq<Event>)
    requires Full(events)
    ensures ExecFrom(Idle(false, events, {}, 0, QUIET), Ask(Subscribe))
         == Some(Idle(true, events, {}, 0, QUIET.(lost := 1, skew := {QUOTE})))
  {
    AskOnce(Subscribe, events, {}, 0, QUIET);
    assert Noted(Subscribe, events, QUIET) == QUIET.(lost := 1, skew := {QUOTE});
  }

  /** From an idle start: a queue full of events and one refused SUBSCRIBE. */
  lemma FillsThenRefuses(start: seq<Action>, n: nat)
    requires 2 * n == CAPACITY && Exec({QUOTE}, start) == Some(Idle(false, [], {}, 0, QUIET))
    ensures Exec({QUOTE}, start + Rounds(n) + Ask(Subscribe))
         == Some(Idle(true, Toggles(n), {}, 0, QUIET.(lost := 1, skew := {QUOTE})))
  {
    var h := Init({QUOTE});
    RoundsFillTheQueue(n);
    ExecInTwoParts(h, start, Rounds(n), Idle(false, [], {}, 0, QUIET));
    AskInVain(Toggles(n));
    ExecInTwoParts(h, start + Rounds(n), Ask(Subscribe), Idle(false, Toggles(n), {}, 0, QUIET));
  }

  /** Then the queue is drained. */
  lemma FillsRefusesDrains(start: seq<Action>, n: nat)
    requires 2 * n == CAPACITY && Exec({QUOTE}, start) == Some(Idle(false, [], {}, 0, QUIET))
    ensures Exec({QUOTE}, start + Rounds(n) + Ask(Subscribe) + Pops(2 * n))
         == Some(Idle(true, [], {}, 0, QUIET.(lost := 1, skew := {QUOTE}, applied := Toggles(n))))
  {
    var noted := QUIET.(lost := 1, skew := {QUOTE});
    FillsThenRefuses(start, n);
    PopsDrain(true, Toggles(n), noted);
    assert [] + Toggles(n) == Toggles(n);
    TogglesLeaveNothing(n);
    ExecInTwoParts(Init({QUOTE}), start + Rounds(n) + Ask(Subscribe), Pops(2 * n), Idle(true, Toggles(n), {}, 0, noted));
  }

  lemma RefusedSubscribe()
    ensures Exec({QUOTE}, Refusal()) == Some(Idle(true, [], {}, 0, AfterRefusal()))
  {
    StartsIdle();
    FillsRefusesDrains([Connect(0), Action.Accepted(0)], FILL);
  }

  /**
   Agreement between the sessions and Redis is false of some run: with a client
   subscribed and no event pending, Redis is subscribed to nothing.
   */
  lemma RefusedPushLosesASubscription()
    ensures Exec({QUOTE}, Refusal()).Some?
    ensures var h := Exec({QUOTE}, Refusal()).value;
      Wanted(h) == {QUOTE} && h.ix.events == [] && Due(h) == {}
  {
    RefusedSubscribe();
  }

  /** The client leaves again: an UNSUBSCRIBE for a subscription Redis never had. */
  lemma LeavingAfterRefusal(tr: Trace)
    ensures ExecFrom(Idle(true, [], {}, 0, tr), Ask(Unsubscribe) + Pops(1))
         == Some(Idle(false, [], {}, -1, Noted(Unsubscribe, [], tr).(applied := tr.applied + [Event(Unsubscribe, QUOTE)])))
  {
    var e := Event(Unsubscribe, QUOTE);
    var noted := Noted(Unsubscribe, [], tr);
    AskOnce(Unsubscribe, [], {}, 0, tr);
    assert Push([], e) == [e];
    ExecInTwoParts(Idle(true, [], {}, 0, tr), Ask(Unsubscribe), Pops(1), Idle(false, [e], {}, 0, noted));
    PopsDrain(false, [e], noted);
    assert [e][..0] == [];
    assert Replay([e], {}) == {} && Balance([e]) == -1;
  }

  /** The counter can go negative, and consume then runs with nothing subscribed. */
  lemma RefusedPushMisleadsTheCounter()
    ensures Exec({QUOTE}, Refusal() + (Ask(Unsubscribe) + Pops(1))).Some?
    ensures var h := Exec({QUOTE}, Refusal() + (Ask(Unsubscribe) + Pops(1))).value;
      h.count == -1 && h.redis == {} && Next(h, Consume(QUOTE, "")).Some?
  {
    RefusedSubscribe();
    var tr := AfterRefusal();
    LeavingAfterRefusal(tr);
    ExecInTwoParts(Init({QUOTE}), Refusal(), Ask(Unsubscribe) + Pops(1), Idle(true, [], {}, 0, tr));
    ConsumesWithNothing(Noted(Unsubscribe, [], tr).(applied := tr.applied + [Event(Unsubscribe, QUOTE)]));
  }

  lemma ConsumesWithNothing(tr: Trace)
    ensures Next(Idle(false, [], {}, -1, tr), Consume(QUOTE, "")).Some?
  {
  }
}
