/**
 What every run of the uploader guarantees, over all interleavings of its three
 threads, all drops in its two queues and all failures of its commands.
 */
module UploaderRuns {
  import opened Wrappers
  import opened SpscQueue
  import opened Decimal
  import opened Sequences
  import opened Uploader

  // ---------- the stale filter ----------

  /** The largest timestamp read so far, and at least zero. */
  function RunningMax(ms: seq<Raw>): int {
    if ms == [] then 0
    else
      var before := RunningMax(ms[..|ms| - 1]);
      var m := ms[|ms| - 1];
      if m.Object? && m.t.Number? && m.t.number > before then m.t.number else before
  }

  /** The i-th message is an object with an integer timestamp, at least zero and not older than any before it. */
  ghost predicate Fresh(ms: seq<Raw>, i: nat)
    requires i < |ms|
  {
    ms[i].Object? && ms[i].t.Number? && ms[i].t.number >= 0
    && forall j :: 0 <= j < i && ms[j].Object? && ms[j].t.Number? ==> ms[j].t.number <= ms[i].t.number
  }

  /** The fresh messages, as points; with `verbose`, only those with both other fields. */
  ghost function Filtered(verbose: bool, ms: seq<Raw>): seq<Point> {
    if ms == [] then []
    else
      var n := |ms| - 1;
      Filtered(verbose, ms[..n])
      + if Fresh(ms, n) && !(verbose && (ms[n].s.Missing? || ms[n].p.Missing?))
        then [Point(ms[n].s, ms[n].p, ms[n].t.number)] else []
  }

  lemma {:induction false} RunningMaxBounds(ms: seq<Raw>, t: int)
    ensures RunningMax(ms) <= t <==> 0 <= t && forall j :: 0 <= j < |ms| && ms[j].Object? && ms[j].t.Number? ==> ms[j].t.number <= t
  {
    if ms != [] {
      var init := ms[..|ms| - 1];
      RunningMaxBounds(init, t);
      assert forall j :: 0 <= j < |init| ==> init[j] == ms[j];
      if forall j :: 0 <= j < |ms| && ms[j].Object? && ms[j].t.Number? ==> ms[j].t.number <= t {
        forall j | 0 <= j < |init| && init[j].Object? && init[j].t.Number?
          ensures init[j].t.number <= t
        {
          assert ms[j].t.number <= t;
        }
      }
    }
  }

  /** One pass of the parse loop forwards exactly the fresh messages, and keeps the running maximum. */
  lemma ParseOneIsTheFilter(verbose: bool, ms: seq<Raw>, m: Raw)
    ensures ParseOne(verbose, RunningMax(ms), m).0 == RunningMax(ms + [m])
    ensures var x := ParseOne(verbose, RunningMax(ms), m).1;
      Filtered(verbose, ms + [m]) == Filtered(verbose, ms) + if x.Some? then [x.value] else []
  {
    var all := ms + [m];
    assert all[..|all| - 1] == ms && all[|ms|] == m;
    if m.Object? && m.t.Number? {
      RunningMaxBounds(ms, m.t.number);
      assert forall j :: 0 <= j < |ms| ==> all[j] == ms[j];
    }
  }

  /**
   What one pass does, in the message's own fields. It is forwarded, as it came,
   exactly when it is an object whose timestamp is an integer, at least zero and not
   below any integer timestamp before it; with `verbose` the other two fields must
   be there as well. The maximum moves with every such timestamp.
   */
  lemma ForwardedExactlyWhenFresh(verbose: bool, ms: seq<Raw>, m: Raw)
    ensures var (last, x) := ParseOne(verbose, RunningMax(ms), m);
      && (x.Some? <==>
           && m.Object? && m.t.Number? && m.t.number >= 0
           && (forall j :: 0 <= j < |ms| && ms[j].Object? && ms[j].t.Number? ==> ms[j].t.number <= m.t.number)
           && !(verbose && (m.s.Missing? || m.p.Missing?)))
      && (x.Some? ==> x.value == Point(m.s, m.p, m.t.number) && last == m.t.number)
      && (m.Object? && m.t.Number? && m.t.number >= RunningMax(ms) ==> last == m.t.number)
      && (m.NotAnObject? || !m.t.Number? || m.t.number < RunningMax(ms) ==> last == RunningMax(ms))
  {
    if m.Object? && m.t.Number? {
      RunningMaxBounds(ms, m.t.number);
    }
  }

  // ---------- arguments ----------

  function Args(xs: seq<Point>): seq<string> {
    if xs == [] then [] else Args(xs[..|xs| - 1]) + Pieces(xs[|xs| - 1])
  }

  function Wholes(xs: seq<Point>): nat {
    if xs == [] then 0 else Wholes(xs[..|xs| - 1]) + if Whole(xs[|xs| - 1]) then 1 else 0
  }

  function Torn(xs: seq<Point>): nat {
    if xs == [] then 0 else Torn(xs[..|xs| - 1]) + if TornPoint(xs[|xs| - 1]) then 1 else 0
  }

  lemma ExtendByOne(xs: seq<Point>, x: Point)
    ensures Args(xs + [x]) == Args(xs) + Pieces(x)
    ensures Wholes(xs + [x]) == Wholes(xs) + if Whole(x) then 1 else 0
    ensures Torn(xs + [x]) == Torn(xs) + if TornPoint(x) then 1 else 0
  {
    assert (xs + [x])[..|xs + [x]| - 1] == xs;
  }

  lemma {:induction false} ArgsLength(xs: seq<Point>)
    ensures |Args(xs)| == 3 * Wholes(xs) + 2 * Torn(xs)
  {
    if xs != [] {
      ArgsLength(xs[..|xs| - 1]);
    }
  }

  datatype Triple = Triple(key: string, time: int, value: string)

  /** The points a reader of the command's arguments takes out, three by three. */
  function ReadArgs(args: seq<string>): Option<seq<Triple>> {
    if args == [] then Some([])
    else if |args| < 3 then None
    else
      var n := |args| - 3;
      match ReadArgs(args[..n])
      case None => None
      case Some(ts) => Some(ts + [Triple(args[n], ReadInt(args[n + 1]), args[n + 2])])
  }

  /** The points of a batch that have all three fields. */
  function Triples(xs: seq<Point>): seq<Triple> {
    if xs == [] then []
    else
      var x := xs[|xs| - 1];
      Triples(xs[..|xs| - 1]) + if Whole(x) then [Triple(x.s.text, x.t, x.p.text)] else []
  }

  lemma {:induction false} TriplesLength(xs: seq<Point>)
    ensures |Triples(xs)| == Wholes(xs)
  {
    if xs != [] {
      TriplesLength(xs[..|xs| - 1]);
    }
  }

  lemma {:induction false} ReadArgsLength(args: seq<string>)
    ensures ReadArgs(args).Some? <==> |args| % 3 == 0
    ensures ReadArgs(args).Some? ==> 3 * |ReadArgs(args).value| == |args|
  {
    if |args| >= 3 {
      ReadArgsLength(args[..|args| - 3]);
    }
  }

  lemma ReadArgsOneMore(args: seq<string>, key: string, time: int, value: string)
    ensures ReadArgs(args + [key, PrintInt(time), value])
         == match ReadArgs(args) case None => None case Some(ts) => Some(ts + [Triple(key, time, value)])
  {
    var longer := args + [key, PrintInt(time), value];
    assert longer[..|longer| - 3] == args;
    ReadIntPrintInt(time);
  }

  lemma {:induction false} UntornArgsReadBack(xs: seq<Point>)
    requires Torn(xs) == 0
    ensures ReadArgs(Args(xs)) == Some(Triples(xs))
  {
    if xs != [] {
      var init, x := xs[..|xs| - 1], xs[|xs| - 1];
      UntornArgsReadBack(init);
      if Whole(x) {
        ReadArgsOneMore(Args(init), x.s.text, x.t, x.p.text);
      } else {
        assert Args(init) + [] == Args(init) && Triples(init) + [] == Triples(init);
      }
    }
  }

  /** The arguments of a batch read back as its points exactly when no point of it was torn. */
  lemma ArgsReadBackExactlyWhenUntorn(xs: seq<Point>)
    ensures ReadArgs(Args(xs)) == Some(Triples(xs)) <==> Torn(xs) == 0
  {
    if Torn(xs) == 0 {
      UntornArgsReadBack(xs);
    }
    ArgsLength(xs);
    ReadArgsLength(Args(xs));
    TriplesLength(xs);
  }

  // ---------- the invariant ----------

  ghost predicate Sorted(xs: seq<Point>) {
    forall i, j :: 0 <= i < j < |xs| ==> xs[i].t <= xs[j].t
  }

  lemma SortedAppend(xs: seq<Point>, x: Point)
    requires Sorted(xs) && forall y :: y in xs ==> y.t <= x.t
    ensures Sorted(xs + [x])
  {
  }

  lemma SortedPrefix(xs: seq<Point>, more: seq<Point>)
    requires Sorted(xs + more)
    ensures Sorted(xs)
  {
    assert forall i :: 0 <= i < |xs| ==> xs[i] == (xs + more)[i];
  }

  /** The points publish has popped or will pop. */
  function Forwarded(h: Pipe): seq<Point> {
    h.popped + h.outbox
  }

  ghost predicate FilterInv(verbose: bool, h: Pipe) {
    && h.last == RunningMax(h.parsed)
    && Sub(h.parsed + h.inbox, h.received)
    && |h.parsed| + |h.inbox| + h.refused == |h.received|
    && |Forwarded(h)| + h.discarded == |Filtered(verbose, h.parsed)|
    && Sub(Forwarded(h), Filtered(verbose, h.parsed))
    && Timely(verbose, Forwarded(h), h.last)
  }

  ghost predicate Timely(verbose: bool, xs: seq<Point>, last: int) {
    Sorted(xs) && forall x :: x in xs ==> 0 <= x.t <= last && SurvivesLog(verbose, x)
  }

  lemma TimelyAppend(verbose: bool, xs: seq<Point>, last: int, x: Point)
    requires Timely(verbose, xs, last) && 0 <= last <= x.t && SurvivesLog(verbose, x)
    ensures Timely(verbose, xs, x.t) && Timely(verbose, xs + [x], x.t)
  {
    SortedAppend(xs, x);
  }

  /** Each command carries the arguments of its points, more than ten whole ones. */
  ghost predicate Framed(commands: seq<seq<string>>, sent: seq<seq<Point>>) {
    && |commands| == |sent|
    && forall i :: 0 <= i < |sent| ==> commands[i] == [COMMAND] + Args(sent[i]) && Wholes(sent[i]) > REDIS_BATCH_SIZE
  }

  /** Every popped point is in a command that succeeded or in the pending result. */
  ghost predicate Accounted(popped: seq<Point>, commands: seq<seq<string>>, sent: seq<seq<Point>>, held: seq<Point>,
                            failures: nat, b: Batch) {
    && Concat(sent) + held == popped
    && b.result == [COMMAND] + Args(held)
    && b.count <= REDIS_BATCH_SIZE && (failures > 0 ==> b.count == REDIS_BATCH_SIZE)
    && Wholes(held) == b.count + failures
    && Framed(commands, sent)
  }

  ghost predicate BatchInv(h: Pipe) {
    Accounted(h.popped, h.commands, h.sent, h.held, h.failures, h.batch)
  }

  lemma ReceiveKeepsFilter(verbose: bool, h: Pipe, m: Raw, k: Pipe)
    requires FilterInv(verbose, h) && Next(verbose, h, Receive(m)) == Some(k)
    ensures FilterInv(verbose, k)
  {
    ArrivalKeepsOrder(h.parsed, h.inbox, h.received, m);
  }

  /** A point passes the filter, or is dropped by the full queue. */
  lemma PushKeepsOrder(verbose: bool, before: seq<Raw>, m: Raw, popped: seq<Point>, outbox: seq<Point>, x: Point)
    requires ParseOne(verbose, RunningMax(before), m).1 == Some(x)
    requires Sub(popped + outbox, Filtered(verbose, before))
    ensures Sub(popped + Push(outbox, x), Filtered(verbose, before + [m]))
  {
    ParseOneIsTheFilter(verbose, before, m);
    ArrivalKeepsOrder(popped, outbox, Filtered(verbose, before), x);
  }

  lemma ParseKeepsFilter(verbose: bool, h: Pipe, k: Pipe)
    requires FilterInv(verbose, h) && Next(verbose, h, Parse) == Some(k)
    ensures FilterInv(verbose, k)
  {
    var m := h.inbox[0];
    var x := ParseOne(verbose, h.last, m).1;
    ParseOneIsTheFilter(verbose, h.parsed, m);
    assert k.parsed + k.inbox == h.parsed + h.inbox;
    if x.None? {
      assert Filtered(verbose, h.parsed) + [] == Filtered(verbose, h.parsed);
      assert Forwarded(k) == Forwarded(h);
    } else {
      PushKeepsOrder(verbose, h.parsed, m, h.popped, h.outbox, x.value);
      RunningMaxBounds(h.parsed, h.last);
      TimelyAppend(verbose, Forwarded(h), h.last, x.value);
      assert Forwarded(k) == if Full(h.outbox) then Forwarded(h) else Forwarded(h) + [x.value];
    }
  }

  lemma PublishKeepsFilter(verbose: bool, h: Pipe, ok: bool, k: Pipe)
    requires FilterInv(verbose, h) && Next(verbose, h, Publish(ok)) == Some(k)
    ensures FilterInv(verbose, k)
  {
    PublishMovesOnePoint(verbose, h, ok, k);
    FilterFrame(verbose, h, k);
  }

  lemma PublishMovesOnePoint(verbose: bool, h: Pipe, ok: bool, k: Pipe)
    requires Next(verbose, h, Publish(ok)) == Some(k)
    ensures Forwarded(k) == Forwarded(h) && k.inbox == h.inbox && k.last == h.last
    ensures k.parsed == h.parsed && k.received == h.received && k.refused == h.refused && k.discarded == h.discarded
  {
  }

  lemma FilterFrame(verbose: bool, h: Pipe, k: Pipe)
    requires FilterInv(verbose, h) && Forwarded(k) == Forwarded(h) && k.inbox == h.inbox && k.last == h.last
    requires k.parsed == h.parsed && k.received == h.received && k.refused == h.refused && k.discarded == h.discarded
    ensures FilterInv(verbose, k)
  {
  }

  /** One more point carried by the pending result. */
  lemma HoldOneMore(result: seq<string>, held: seq<Point>, x: Point)
    requires result == [COMMAND] + Args(held)
    ensures result + Pieces(x) == [COMMAND] + Args(held + [x])
    ensures Wholes(held + [x]) == Wholes(held) + if Whole(x) then 1 else 0
  {
    ExtendByOne(held, x);
    assert [COMMAND] + Args(held) + Pieces(x) == [COMMAND] + (Args(held) + Pieces(x));
  }

  lemma ConcatAppend(sent: seq<seq<Point>>, xs: seq<Point>)
    ensures Concat(sent + [xs]) + [] == Concat(sent) + xs
  {
    assert (sent + [xs])[..|sent + [xs]| - 1] == sent;
  }

  /** A pass of the publish loop, in its three outcomes. */
  lemma PassIsAccounted(popped: seq<Point>, commands: seq<seq<string>>, sent: seq<seq<Point>>, held: seq<Point>,
                        failures: nat, b: Batch, x: Point, ok: bool)
    requires Accounted(popped, commands, sent, held, failures, b)
    ensures var c := PublishOne(b, x, ok);
      if Flushes(b, x) && ok then
        Accounted(popped + [x], commands + [b.result + Pieces(x)], sent + [held + [x]], [], 0, c)
      else
        Accounted(popped + [x], commands, sent, held + [x], if Flushes(b, x) then failures + 1 else failures, c)
  {
    HoldOneMore(b.result, held, x);
    if Flushes(b, x) && ok {
      SendIsAccounted(popped, commands, sent, held + [x], b.result + Pieces(x), x);
    } else {
      assert Concat(sent) + (held + [x]) == popped + [x];
    }
  }

  lemma SendIsAccounted(popped: seq<Point>, commands: seq<seq<string>>, sent: seq<seq<Point>>, held: seq<Point>,
                        result: seq<string>, x: Point)
    requires held != [] && held[|held| - 1] == x && Concat(sent) + held[..|held| - 1] == popped
    requires result == [COMMAND] + Args(held) && Wholes(held) > REDIS_BATCH_SIZE && Framed(commands, sent)
    ensures Accounted(popped + [x], commands + [result], sent + [held], [], 0, Batch(0, result[..1]))
  {
    ConcatAppend(sent, held);
    assert held == held[..|held| - 1] + [x];
    assert Concat(sent) + held == popped + [x];
    assert result[..1] == [COMMAND] + [];
    FramedAppend(commands, sent, held);
  }

  lemma FramedAppend(commands: seq<seq<string>>, sent: seq<seq<Point>>, held: seq<Point>)
    requires Framed(commands, sent) && Wholes(held) > REDIS_BATCH_SIZE
    ensures Framed(commands + [[COMMAND] + Args(held)], sent + [held])
  {
  }

  lemma PublishKeepsBatch(verbose: bool, h: Pipe, ok: bool, k: Pipe)
    requires BatchInv(h) && Next(verbose, h, Publish(ok)) == Some(k)
    ensures BatchInv(k)
  {
    PassIsAccounted(h.popped, h.commands, h.sent, h.held, h.failures, h.batch, h.outbox[0], ok);
  }

  lemma {:induction false} RunKeepsInv(verbose: bool, actions: seq<Action>, h: Pipe)
    requires Exec(verbose, actions) == Some(h)
    ensures FilterInv(verbose, h) && BatchInv(h)
  {
    if actions == [] {
      assert [COMMAND] + [] == [COMMAND];
    } else {
      var before := Exec(verbose, actions[..|actions| - 1]).value;
      RunKeepsInv(verbose, actions[..|actions| - 1], before);
      match actions[|actions| - 1] {
        case Receive(m) => ReceiveKeepsFilter(verbose, before, m, h);
        case Parse => ParseKeepsFilter(verbose, before, h);
        case Publish(ok) =>
          PublishKeepsFilter(verbose, before, ok, h);
          PublishKeepsBatch(verbose, before, ok, h);
      }
    }
  }

  // ---------- order ----------

  function Readings(ms: seq<Raw>): seq<Point> {
    if ms == [] then []
    else
      Readings(ms[..|ms| - 1]) + match Reading(ms[|ms| - 1]) case None => [] case Some(x) => [x]
  }

  lemma {:induction false} ReadingsLast(ms: seq<Raw>)
    requires ms != []
    ensures var init, x := Readings(ms[..|ms| - 1]), Reading(ms[|ms| - 1]);
      Readings(ms) == if x.Some? then init + [x.value] else init
  {
    assert Readings(ms[..|ms| - 1]) + [] == Readings(ms[..|ms| - 1]);
  }

  lemma {:induction false} OneMorePosition(ms: seq<Raw>, before: seq<nat>, x: Point)
    requires ms != [] && CameAs(ms[|ms| - 1], x)
    requires IsOrigin(before, ms[..|ms| - 1], Readings(ms[..|ms| - 1]))
    ensures IsOrigin(before + [|ms| - 1], ms, Readings(ms[..|ms| - 1]) + [x])
  {
    assert forall i :: 0 <= i < |before| ==> ms[before[i]] == ms[..|ms| - 1][before[i]];
  }

  lemma {:induction false} SamePositions(ms: seq<Raw>, before: seq<nat>, xs: seq<Point>)
    requires ms != [] && IsOrigin(before, ms[..|ms| - 1], xs)
    ensures IsOrigin(before, ms, xs)
  {
    assert forall i :: 0 <= i < |before| ==> ms[before[i]] == ms[..|ms| - 1][before[i]];
  }

  /** The message is an object with these fields. */
  predicate CameAs(m: Raw, x: Point) {
    m.Object? && m.s == x.s && m.p == x.p && m.t == Number(x.t)
  }

  /** The points are those of the messages at the strictly increasing positions `at`. */
  ghost predicate IsOrigin(at: seq<nat>, ms: seq<Raw>, xs: seq<Point>) {
    && |at| == |xs|
    && (forall i :: 0 <= i < |at| ==> at[i] < |ms| && CameAs(ms[at[i]], xs[i]))
    && (forall i, j :: 0 <= i < j < |at| ==> at[i] < at[j])
  }

  lemma {:induction false} PositionsStep(ms: seq<Raw>, before: seq<nat>) returns (at: seq<nat>)
    requires ms != [] && IsOrigin(before, ms[..|ms| - 1], Readings(ms[..|ms| - 1]))
    ensures IsOrigin(at, ms, Readings(ms))
  {
    var x, xs := Reading(ms[|ms| - 1]), Readings(ms[..|ms| - 1]);
    ReadingsLast(ms);
    if x.Some? {
      OneMorePosition(ms, before, x.value);
      assert Readings(ms) == xs + [x.value];
      at := before + [|ms| - 1];
    } else {
      SamePositions(ms, before, xs);
      at := before;
    }
  }

  /** The messages the readings come from. */
  lemma {:induction false} ReadingsPositions(ms: seq<Raw>) returns (at: seq<nat>)
    ensures IsOrigin(at, ms, Readings(ms))
  {
    if ms == [] {
      at := [];
    } else {
      var before := ReadingsPositions(ms[..|ms| - 1]);
      at := PositionsStep(ms, before);
    }
  }

  lemma {:induction false} ReadingsOfSub(a: seq<Raw>, b: seq<Raw>)
    requires Sub(a, b)
    ensures Sub(Readings(a), Readings(b))
    decreases |b|
  {
    if a != [] {
      ReadingsLast(a);
      ReadingsLast(b);
      var x := Reading(b[|b| - 1]);
      if a[|a| - 1] == b[|b| - 1] && Sub(a[..|a| - 1], b[..|b| - 1]) {
        ReadingsOfSub(a[..|a| - 1], b[..|b| - 1]);
        if x.Some? {
          SubAppendBoth(Readings(a[..|a| - 1]), Readings(b[..|b| - 1]), x.value);
        }
      } else {
        ReadingsOfSub(a, b[..|b| - 1]);
        if x.Some? {
          SubAppendRight(Readings(a), Readings(b[..|b| - 1]), x.value);
        }
      }
    }
  }

  lemma FilteredLast(verbose: bool, ms: seq<Raw>)
    requires ms != []
    ensures var init, x := Filtered(verbose, ms[..|ms| - 1]), Reading(ms[|ms| - 1]);
      Filtered(verbose, ms) == init || (x.Some? && Filtered(verbose, ms) == init + [x.value])
  {
    assert Filtered(verbose, ms[..|ms| - 1]) + [] == Filtered(verbose, ms[..|ms| - 1]);
  }

  lemma {:induction false} FilteredOfReadings(verbose: bool, ms: seq<Raw>)
    ensures Sub(Filtered(verbose, ms), Readings(ms))
  {
    if ms != [] {
      var init, x := ms[..|ms| - 1], Reading(ms[|ms| - 1]);
      FilteredOfReadings(verbose, init);
      FilteredLast(verbose, ms);
      ReadingsLast(ms);
      if x.Some? {
        SubAppendBoth(Filtered(verbose, init), Readings(init), x.value);
        SubAppendRight(Filtered(verbose, init), Readings(init), x.value);
      }
    }
  }

  lemma SentIsSubOfReceived(verbose: bool, sent: seq<Point>, rest: seq<Point>, parsed: seq<Raw>, inbox: seq<Raw>, received: seq<Raw>)
    requires Sub(sent + rest, Filtered(verbose, parsed)) && Sub(parsed + inbox, received)
    ensures Sub(sent, Readings(received))
  {
    SubPrefix(sent, rest, Filtered(verbose, parsed));
    FilteredOfReadings(verbose, parsed);
    SubTrans(sent, Filtered(verbose, parsed), Readings(parsed));
    SubPrefix(parsed, inbox, received);
    ReadingsOfSub(parsed, received);
    SubTrans(sent, Readings(parsed), Readings(received));
  }

  /**
   Whatever the interleaving, the drops and the failures: the points of all
   successful commands, in order, are those of received messages at strictly
   increasing positions `at`, so each message is uploaded at most once and in order;
   and their timestamps never decrease.
   */
  lemma UploadsInOrder(verbose: bool, actions: seq<Action>, h: Pipe) returns (at: seq<nat>)
    requires Exec(verbose, actions) == Some(h)
    ensures IsOrigin(at, h.received, Concat(h.sent))
    ensures Sorted(Concat(h.sent))
    ensures |h.commands| == |h.sent| && forall i :: 0 <= i < |h.commands| ==> h.commands[i] == [COMMAND] + Args(h.sent[i])
  {
    RunKeepsInv(verbose, actions, h);
    SentInOrder(verbose, h);
    at := PositionsInReceived(Concat(h.sent), h.received);
  }

  lemma PositionsInReceived(sent: seq<Point>, received: seq<Raw>) returns (at: seq<nat>)
    requires Sub(sent, Readings(received))
    ensures IsOrigin(at, received, sent)
  {
    var among := SubPositions(sent, Readings(received));
    var origin := ReadingsPositions(received);
    at := seq(|among|, i requires 0 <= i < |among| => origin[among[i]]);
  }

  lemma SentInOrder(verbose: bool, h: Pipe)
    requires FilterInv(verbose, h) && Concat(h.sent) + h.held == h.popped
    ensures Sub(Concat(h.sent), Readings(h.received)) && Sorted(Concat(h.sent))
  {
    var sent, rest := Concat(h.sent), h.held + h.outbox;
    assert Forwarded(h) == sent + rest;
    SentIsSubOfReceived(verbose, sent, rest, h.parsed, h.inbox, h.received);
    SortedPrefix(sent, rest);
  }

  /**
   Nothing disappears but what a full queue refused: without refusals the messages
   popped and waiting are those received, and the points popped and waiting are
   exactly the fresh ones.
   */
  lemma OnlyFullQueuesDrop(verbose: bool, actions: seq<Action>, h: Pipe)
    requires Exec(verbose, actions) == Some(h)
    ensures |h.parsed| + |h.inbox| + h.refused == |h.received|
    ensures |h.popped| + |h.outbox| + h.discarded == |Filtered(verbose, h.parsed)|
    ensures h.refused == 0 ==> h.parsed + h.inbox == h.received
    ensures h.discarded == 0 ==> h.popped + h.outbox == Filtered(verbose, h.parsed)
  {
    RunKeepsInv(verbose, actions, h);
    SubIsShorter(h.parsed + h.inbox, h.received);
    SubIsShorter(Forwarded(h), Filtered(verbose, h.parsed));
  }

  /**
   The filter's state over a run: the running maximum, so at most t exactly if t is
   at least zero and every integer timestamp parsed; and only fresh messages, whole
   enough for the log statement, on the way out.
   */
  lemma FilterOverRuns(verbose: bool, actions: seq<Action>, h: Pipe, t: int)
    requires Exec(verbose, actions) == Some(h)
    ensures h.last == RunningMax(h.parsed)
    ensures h.last <= t <==>
      0 <= t && forall j :: 0 <= j < |h.parsed| && h.parsed[j].Object? && h.parsed[j].t.Number? ==> h.parsed[j].t.number <= t
    ensures Sub(h.popped + h.outbox, Filtered(verbose, h.parsed))
    ensures forall x :: x in h.outbox ==> !(verbose && (x.s.Missing? || x.p.Missing?))
  {
    RunKeepsInv(verbose, actions, h);
    RunningMaxBounds(h.parsed, t);
    assert forall x :: x in h.outbox ==> x in Forwarded(h);
  }

  // ---------- framing and conservation ----------

  /**
   Nothing popped is lost or sent twice: the successful commands' points followed by
   the pending ones are all popped points. The pending command holds three
   arguments for each counted point and each failure, and two for each torn one.
   */
  lemma BatchesConserve(verbose: bool, actions: seq<Action>, h: Pipe)
    requires Exec(verbose, actions) == Some(h)
    ensures Concat(h.sent) + h.held == h.popped
    ensures h.batch.result == ["TS.MADD"] + Args(h.held)
    ensures |h.batch.result| == 1 + 3 * (h.batch.count + h.failures) + 2 * Torn(h.held)
    ensures h.batch.count <= 10 && (h.failures > 0 ==> h.batch.count == 10)
  {
    RunKeepsInv(verbose, actions, h);
    ArgsLength(h.held);
  }

  /** Every command attempted after n failures carries eleven plus n whole points, whether it succeeds or not. */
  lemma AttemptSize(verbose: bool, actions: seq<Action>, h: Pipe)
    requires Exec(verbose, actions) == Some(h) && h.outbox != [] && Flushes(h.batch, h.outbox[0])
    ensures h.batch.result + Pieces(h.outbox[0]) == ["TS.MADD"] + Args(h.held + [h.outbox[0]])
    ensures Wholes(h.held + [h.outbox[0]]) == 11 + h.failures
  {
    RunKeepsInv(verbose, actions, h);
    HoldOneMore(h.batch.result, h.held, h.outbox[0]);
  }

  /** And a command that succeeds is the one attempted. */
  lemma CommandSize(verbose: bool, actions: seq<Action>, h: Pipe, k: Pipe)
    requires Exec(verbose, actions) == Some(h) && Next(verbose, h, Publish(true)) == Some(k)
    requires |k.commands| > |h.commands|
    ensures |k.sent| == |h.commands| + 1
    ensures k.commands == h.commands + [[COMMAND] + Args(k.sent[|h.commands|])]
    ensures Wholes(k.sent[|h.commands|]) == 11 + h.failures
  {
    RunKeepsInv(verbose, actions, h);
    PublishKeepsBatch(verbose, h, true, k);
    ExtendByOne(h.held, h.outbox[0]);
  }

  /**
   A command is attempted exactly when a point with string fields is popped and ten
   are counted. If it succeeds it is sent and the batch starts anew; if it fails
   nothing is sent and everything is carried on to the next attempt.
   */
  lemma FlushOutcome(verbose: bool, actions: seq<Action>, h: Pipe, ok: bool, k: Pipe)
    requires Exec(verbose, actions) == Some(h) && Next(verbose, h, Publish(ok)) == Some(k)
    ensures h.outbox != [] && k.popped == h.popped + [h.outbox[0]]
    ensures var full := h.batch.count == 10 && h.outbox[0].s.Text? && h.outbox[0].p.Text?;
      && (full && ok ==> |k.commands| == |h.commands| + 1 && k.batch == Batch(0, ["TS.MADD"]) && k.held == [])
      && (full && !ok ==> k.batch.count == 10 && k.failures == h.failures + 1)
      && (!full || !ok ==> k.commands == h.commands && k.held == h.held + [h.outbox[0]])
      && h.commands <= k.commands
  {
    RunKeepsInv(verbose, actions, h);
    assert ["TS.MADD"] + [] == ["TS.MADD"];
    PublishKeepsBatch(verbose, h, ok, k);
  }

  /** Each successful command reads back as its points exactly when none of them was torn. */
  lemma CommandsReadBack(verbose: bool, actions: seq<Action>, h: Pipe, i: nat)
    requires Exec(verbose, actions) == Some(h) && i < |h.commands|
    ensures i < |h.sent| && |h.commands[i]| >= 1
    ensures ReadArgs(h.commands[i][1..]) == Some(Triples(h.sent[i])) <==> Torn(h.sent[i]) == 0
  {
    RunKeepsInv(verbose, actions, h);
    assert h.commands[i][1..] == Args(h.sent[i]);
    ArgsReadBackExactlyWhenUntorn(h.sent[i]);
  }

  // ---------- a torn command ----------

  const PRICE: Raw := Object(Text("ETH-USD"), Text("1"), Number(0))
  const NUMERIC: Raw := Object(Text("ETH-USD"), Number(1), Number(0))

  /** Both queues are empty and the threads have caught up. */
  predicate Calm(h: Pipe, count: nat, torn: nat) {
    && h.inbox == [] && h.outbox == [] && h.last == 0 && h.batch.count == count
    && Torn(h.held) == torn && h.failures == 0 && h.commands == []
  }

  lemma ExecStep(verbose: bool, actions: seq<Action>, a: Action)
    ensures Exec(verbose, actions + [a]) == match Exec(verbose, actions) case None => None case Some(h) => Next(verbose, h, a)
  {
    assert (actions + [a])[..|actions + [a]| - 1] == actions;
  }

  /** The message is an object whose timestamp is at least `last`, with string or other fields in place. */
  predicate Passes(m: Raw, last: int) {
    m.Object? && m.t.Number? && m.t.number >= last && !m.s.Missing? && !m.p.Missing?
  }

  lemma ThreePasses(verbose: bool, h: Pipe, m: Raw) returns (h1: Pipe, h2: Pipe, k: Pipe)
    requires h.inbox == [] && h.outbox == [] && Passes(m, h.last)
    ensures Next(verbose, h, Receive(m)) == Some(h1) && Next(verbose, h1, Parse) == Some(h2)
    ensures Next(verbose, h2, Publish(true)) == Some(k)
    ensures h2.inbox == [] && h2.outbox == [Point(m.s, m.p, m.t.number)] && h2.last == m.t.number
    ensures h2.batch == h.batch && h2.held == h.held && h2.failures == h.failures && h2.commands == h.commands && h2.sent == h.sent
  {
    h1 := Next(verbose, h, Receive(m)).value;
    assert h1.inbox == [m];
    h2 := ParsesFresh(verbose, h1, m);
    k := Next(verbose, h2, Publish(true)).value;
  }

  lemma ParsesFresh(verbose: bool, h: Pipe, m: Raw) returns (k: Pipe)
    requires h.inbox == [m] && h.outbox == [] && Passes(m, h.last)
    ensures Next(verbose, h, Parse) == Some(k)
    ensures k.inbox == [] && k.outbox == [Point(m.s, m.p, m.t.number)] && k.last == m.t.number && k.received == h.received
    ensures k.batch == h.batch && k.held == h.held && k.failures == h.failures && k.commands == h.commands && k.sent == h.sent
  {
    k := Next(verbose, h, Parse).value;
    assert Push([], Point(m.s, m.p, m.t.number)) == [Point(m.s, m.p, m.t.number)];
  }

  /** One message carried through the three threads; the command it may complete succeeds. */
  lemma Carry(verbose: bool, actions: seq<Action>, h: Pipe, m: Raw) returns (longer: seq<Action>, k: Pipe)
    requires Exec(verbose, actions) == Some(h) && h.inbox == [] && h.outbox == [] && Passes(m, h.last)
    ensures Exec(verbose, longer) == Some(k) && k.inbox == [] && k.outbox == [] && k.last == m.t.number
    ensures k.received == h.received + [m]
    ensures var x := Point(m.s, m.p, m.t.number);
      && k.batch == PublishOne(h.batch, x, true)
      && (if Flushes(h.batch, x)
          then k.commands == h.commands + [h.batch.result + Pieces(x)] && k.sent == h.sent + [h.held + [x]]
          else k.commands == h.commands && k.sent == h.sent && k.held == h.held + [x] && k.failures == h.failures)
  {
    var h1, h2;
    h1, h2, k := ThreePasses(verbose, h, m);
    var a := actions + [Receive(m)];
    ExecStep(verbose, actions, Receive(m));
    ExecStep(verbose, a, Parse);
    ExecStep(verbose, a + [Parse], Publish(true));
    longer := a + [Parse] + [Publish(true)];
  }

  lemma {:induction false} CarryMany(verbose: bool, n: nat) returns (actions: seq<Action>, h: Pipe)
    requires n <= REDIS_BATCH_SIZE
    ensures Exec(verbose, actions) == Some(h) && Calm(h, n, 1)
  {
    if n == 0 {
      actions, h := Carry(verbose, [], START, NUMERIC);
      ExtendByOne([], Point(NUMERIC.s, NUMERIC.p, 0));
    } else {
      var before, b := CarryMany(verbose, n - 1);
      actions, h := Carry(verbose, before, b, PRICE);
      ExtendByOne(b.held, Point(PRICE.s, PRICE.p, 0));
    }
  }

  predicate Misframed(command: seq<string>, xs: seq<Point>) {
    command == [] || ReadArgs(command[1..]) != Some(Triples(xs))
  }

  /** One message whose price is a number, then eleven good ones: the command sent is not a list of triples. */
  lemma ANumericPriceMisframes(verbose: bool)
    ensures exists actions, h :: Exec(verbose, actions) == Some(h) && |h.commands| == |h.sent| == 1 && Misframed(h.commands[0], h.sent[0])
  {
    var before, b := CarryMany(verbose, REDIS_BATCH_SIZE);
    var actions, h := Carry(verbose, before, b, PRICE);
    RunKeepsInv(verbose, before, b);
    ExtendByOne(b.held, Point(PRICE.s, PRICE.p, 0));
    CommandsReadBack(verbose, actions, h, 0);
    assert Exec(verbose, actions) == Some(h) && |h.commands| == |h.sent| == 1 && Misframed(h.commands[0], h.sent[0]);
  }

  // ---------- a whole command ----------

  /** Objects with string fields and timestamps that never decrease. */
  ghost predicate Quotes(ms: seq<Raw>) {
    && (forall i :: 0 <= i < |ms| ==> ms[i].Object? && ms[i].s.Text? && ms[i].p.Text? && ms[i].t.Number? && ms[i].t.number >= 0)
    && forall i, j :: 0 <= i < j < |ms| ==> ms[i].t.number <= ms[j].t.number
  }

  /** The three arguments of each quote: key, printed timestamp, value. */
  ghost function Arguments(ms: seq<Raw>): seq<string>
    requires Quotes(ms)
  {
    if ms == [] then []
    else
      var m := ms[|ms| - 1];
      assert Quotes(ms[..|ms| - 1]) by { QuotesInit(ms); }
      Arguments(ms[..|ms| - 1]) + [m.s.text, PrintInt(m.t.number), m.p.text]
  }

  /** One more quote of a command in the making. */
  lemma CarryOneMore(verbose: bool, before: seq<Action>, b: Pipe, ms: seq<Raw>) returns (actions: seq<Action>, h: Pipe)
    requires ms != [] && |ms| <= 10 && Quotes(ms) && Quotes(ms[..|ms| - 1])
    requires Exec(verbose, before) == Some(b) && Carrying(b, ms[..|ms| - 1])
    ensures Exec(verbose, actions) == Some(h) && Carrying(h, ms)
  {
    var m := ms[|ms| - 1];
    assert ms == ms[..|ms| - 1] + [m];
    actions, h := Carry(verbose, before, b, m);
    ArgumentsLast(ms);
  }

  /** The quotes are all that came in, and they are in the pending batch. */
  ghost predicate Carrying(h: Pipe, ms: seq<Raw>)
    requires Quotes(ms)
  {
    && h.received == ms && h.inbox == [] && h.outbox == [] && h.commands == []
    && h.last == (if ms == [] then 0 else ms[|ms| - 1].t.number)
    && h.batch == Batch(|ms|, ["TS.MADD"] + Arguments(ms))
  }

  lemma {:induction false} CarryQuotes(verbose: bool, ms: seq<Raw>) returns (actions: seq<Action>, h: Pipe)
    requires Quotes(ms) && |ms| <= 10
    ensures Exec(verbose, actions) == Some(h) && Carrying(h, ms)
  {
    if ms == [] {
      actions, h := [], START;
      assert ["TS.MADD"] + [] == ["TS.MADD"];
    } else {
      QuotesInit(ms);
      var before, b := CarryQuotes(verbose, ms[..|ms| - 1]);
      actions, h := CarryOneMore(verbose, before, b, ms);
    }
  }

  lemma {:induction false} QuotesInit(ms: seq<Raw>)
    requires Quotes(ms) && ms != []
    ensures Quotes(ms[..|ms| - 1])
  {
    var init := ms[..|ms| - 1];
    assert forall i :: 0 <= i < |init| ==> init[i] == ms[i];
  }

  lemma {:induction false} ArgumentsLast(ms: seq<Raw>)
    requires Quotes(ms) && ms != [] && Quotes(ms[..|ms| - 1])
    ensures var m := ms[|ms| - 1];
      ["TS.MADD"] + Arguments(ms) == ["TS.MADD"] + Arguments(ms[..|ms| - 1]) + [m.s.text, PrintInt(m.t.number), m.p.text]
  {
    var m := ms[|ms| - 1];
    var init := Arguments(ms[..|ms| - 1]);
    assert Arguments(ms) == init + [m.s.text, PrintInt(m.t.number), m.p.text];
  }

  /** Any eleven quotes in order can become one command, which carries each one's key, timestamp and value. */
  lemma ElevenQuotesMakeACommand(verbose: bool, ms: seq<Raw>) returns (actions: seq<Action>, h: Pipe)
    requires Quotes(ms) && |ms| == 11
    ensures Exec(verbose, actions) == Some(h) && h.received == ms
    ensures h.commands == [["TS.MADD"] + Arguments(ms)] && h.batch == Batch(0, ["TS.MADD"])
  {
    assert ms == ms[..10] + [ms[10]];
    QuotesInit(ms);
    var before, b := CarryQuotes(verbose, ms[..10]);
    actions, h := Carry(verbose, before, b, ms[10]);
    ArgumentsLast(ms);
    assert (["TS.MADD"] + Arguments(ms))[..1] == ["TS.MADD"];
  }
}
