/**
 The Redis uploader: three threads joined by two lossy queues. Messages are
 received, filtered by timestamp, and sent to Redis in TS.MADD batches that are
 retried after a failed command.

 A message's fields are modelled as the code meets them: missing, a string, a
 number that fits a long, or anything else.
 */
module Uploader {
  import opened Wrappers
  import opened SpscQueue
  import opened Decimal

  const REDIS_BATCH_SIZE: nat := 10
  const COMMAND: string := "TS.MADD"

  datatype Field = Missing | Text(text: string) | Number(number: int) | Other

  /** NotAnObject: the parse fails or yields something other than an object. */
  datatype Raw = NotAnObject | Object(s: Field, p: Field, t: Field)

  /** An object whose timestamp was read. */
  datatype Point = Point(s: Field, p: Field, t: int)

  // ---------- the parse loop ----------

  /** The point of a message whose timestamp can be read. */
  function Reading(m: Raw): Option<Point> {
    if m.Object? && m.t.Number? then Some(Point(m.s, m.p, m.t.number)) else None
  }

  /** The log statement between the timestamp update and the push reads s and p; it throws on a missing one, if it runs. */
  predicate SurvivesLog(verbose: bool, x: Point) {
    !verbose || (x.s != Missing && x.p != Missing)
  }

  /** One message: the new last_timestamp and the point to push, if any. */
  function ParseOne(verbose: bool, last: int, m: Raw): (int, Option<Point>) {
    match Reading(m)
    case None => (last, None)
    case Some(x) =>
      if last > x.t then (last, None)
      else (x.t, if SurvivesLog(verbose, x) then Some(x) else None)
  }

  // ---------- the publish loop ----------

  /** The arguments a point contributes: the pushes up to the first conversion that throws. */
  function Pieces(x: Point): seq<string> {
    if !x.s.Text? then []
    else if !x.p.Text? then [x.s.text, PrintInt(x.t)]
    else [x.s.text, PrintInt(x.t), x.p.text]
  }

  predicate Whole(x: Point) {
    x.s.Text? && x.p.Text?
  }

  /** Two of its three arguments are pushed before p throws. */
  predicate TornPoint(x: Point) {
    x.s.Text? && !x.p.Text?
  }

  /** The publisher's locals. */
  datatype Batch = Batch(count: nat, result: seq<string>)

  const EMPTY: Batch := Batch(0, [COMMAND])

  predicate Flushes(b: Batch, x: Point) {
    Whole(x) && b.count >= REDIS_BATCH_SIZE
  }

  /** One point; `ok`: whether the command, if one is sent, succeeds. A failed command changes neither count nor result. */
  function PublishOne(b: Batch, x: Point, ok: bool): Batch {
    var result := b.result + Pieces(x);
    if !Whole(x) then b.(result := result)
    else if b.count >= REDIS_BATCH_SIZE then (if ok then Batch(0, result[..1]) else b.(result := result))
    else Batch(b.count + 1, result)
  }

  // ---------- the three threads ----------

  /**
   The two queues, the loops' locals, and the history: messages received, popped by
   parse, points popped by publish, and commands that succeeded. `held` are the
   points popped since the last success, `failures` the failed commands since it.
   `refused` and `discarded` count the pushes the first and second queue refused.
   */
  datatype Pipe = Pipe(inbox: seq<Raw>, last: int, outbox: seq<Point>, batch: Batch,
                       received: seq<Raw>, parsed: seq<Raw>, popped: seq<Point>,
                       commands: seq<seq<string>>, sent: seq<seq<Point>>, held: seq<Point>, failures: nat,
                       refused: nat, discarded: nat)

  const START: Pipe := Pipe([], 0, [], EMPTY, [], [], [], [], [], [], 0, 0, 0)

  datatype Action = Receive(m: Raw) | Parse | Publish(ok: bool)

  function Next(verbose: bool, h: Pipe, a: Action): Option<Pipe> {
    match a
    case Receive(m) => Some(h.(inbox := Push(h.inbox, m), received := h.received + [m],
                                   refused := h.refused + if Full(h.inbox) then 1 else 0))
    case Parse =>
      if h.inbox == [] then None
      else
        var (last, x) := ParseOne(verbose, h.last, h.inbox[0]);
        Some(h.(inbox := h.inbox[1..], parsed := h.parsed + [h.inbox[0]], last := last,
                outbox := if x.Some? then Push(h.outbox, x.value) else h.outbox,
                discarded := h.discarded + if x.Some? && Full(h.outbox) then 1 else 0))
    case Publish(ok) =>
      if h.outbox == [] then None
      else
        var x := h.outbox[0];
        var k := h.(outbox := h.outbox[1..], popped := h.popped + [x], batch := PublishOne(h.batch, x, ok));
        if !Flushes(h.batch, x) then Some(k.(held := h.held + [x]))
        else if !ok then Some(k.(held := h.held + [x], failures := h.failures + 1))
        else Some(k.(commands := h.commands + [h.batch.result + Pieces(x)], sent := h.sent + [h.held + [x]], held := [], failures := 0))
  }

  function Exec(verbose: bool, actions: seq<Action>): Option<Pipe> {
    if actions == [] then Some(START)
    else
      match Exec(verbose, actions[..|actions| - 1])
      case None => None
      case Some(h) => Next(verbose, h, actions[|actions| - 1])
  }
}
