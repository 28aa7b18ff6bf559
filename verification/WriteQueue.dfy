/**
 The outgoing side of one websocket session: queue_ holds the messages that are
 not yet written, and the front one is handed to async_write. Starting a second
 asynchronous write while one is outstanding is an error for the stream, so the
 outstanding writes are kept as a sequence and their number is something to
 prove, not something the model rules out.
 */
module WriteQueue {

  /** `queue` is the session's field; the rest records what the stream was asked to do. */
  datatype Writer<T> = Writer(queue: seq<T>, outstanding: seq<T>, written: seq<T>, failures: nat)

  function Fresh<T>(): Writer<T> {
    Writer([], [], [], 0)
  }

  /** on_send: append, and start a write unless one is believed to be running. */
  function OnSend<T>(w: Writer<T>, m: T): Writer<T> {
    var queue := w.queue + [m];
    if |queue| > 1 then w.(queue := queue) else w.(queue := queue, outstanding := w.outstanding + [queue[0]])
  }

  /** on_write for the oldest outstanding write: a failure returns at once. */
  function OnWrite<T>(w: Writer<T>, ok: bool): Writer<T>
    requires w.outstanding != []
    requires ok ==> w.queue != []
  {
    var rest := w.outstanding[1..];
    if !ok then w.(outstanding := rest, failures := w.failures + 1)
    else
      var queue := w.queue[1..];
      Writer(queue, if queue == [] then rest else rest + [queue[0]], w.written + [w.outstanding[0]], w.failures)
  }

  datatype Callback<T> = Send(message: T) | Written(ok: bool)

  /**
   What a callback sequence leads to. Unreported: the stream reported a write it
   was never given, which it does not do. Undefined: on_write erased the front of
   an empty vector, which would be undefined behaviour in the code.
   */
  datatype Outcome<T> = At(w: Writer<T>) | Unreported | Undefined

  function Call<T>(w: Writer<T>, c: Callback<T>): Outcome<T> {
    match c
    case Send(m) => At(OnSend(w, m))
    case Written(ok) =>
      if w.outstanding == [] then Unreported
      else if ok && w.queue == [] then Undefined
      else At(OnWrite(w, ok))
  }

  function Run<T>(callbacks: seq<Callback<T>>): Outcome<T> {
    if callbacks == [] then At(Fresh())
    else
      match Run(callbacks[..|callbacks| - 1])
      case At(w) => Call(w, callbacks[|callbacks| - 1])
      case other => other
  }

  /** The outstanding write is the one started last, and it writes the queue's front. */
  ghost predicate Sound<T>(w: Writer<T>) {
    && w.failures <= 1
    && (w.failures == 0 ==> w.outstanding == if w.queue == [] then [] else [w.queue[0]])
    && (w.failures == 1 ==> w.outstanding == [] && w.queue != [])
  }

  lemma CallKeepsSound<T>(w: Writer<T>, c: Callback<T>)
    requires Sound(w)
    ensures Call(w, c) != Undefined
    ensures Call(w, c).At? ==> Sound(Call(w, c).w)
    ensures Call(w, c).At? ==>
      Call(w, c).w.written + Call(w, c).w.queue == w.written + w.queue + if c.Send? then [c.message] else []
  {
    match c
    case Send(m) =>
      assert w.written + (w.queue + [m]) == (w.written + w.queue) + [m];
    case Written(ok) =>
      if w.outstanding != [] {
        assert w.outstanding[1..] == [];
        if ok {
          assert [] + w.queue[1..] == w.queue[1..];
          assert w.written + [w.queue[0]] + w.queue[1..] == w.written + w.queue;
        }
      }
  }

  /** Everything on_send was given, in order. */
  function Sent<T>(callbacks: seq<Callback<T>>): seq<T> {
    if callbacks == [] then []
    else
      var last := callbacks[|callbacks| - 1];
      Sent(callbacks[..|callbacks| - 1]) + if last.Send? then [last.message] else []
  }

  /**
   Over every callback sequence: what was written followed by what is queued is
   exactly what was sent; at most one write is outstanding and it writes the
   queue's front; without a failure a write is outstanding iff the queue is not
   empty; after a failure none is outstanding; and no erase meets an empty queue.
   */
  lemma {:induction false} WrittenThenQueuedIsSent<T>(callbacks: seq<Callback<T>>)
    ensures Run(callbacks) != Undefined
    ensures Run(callbacks).At? ==>
      var w := Run(callbacks).w;
      && w.written + w.queue == Sent(callbacks)
      && |w.outstanding| <= 1 && (w.outstanding != [] ==> w.queue != [] && w.outstanding[0] == w.queue[0])
      && (w.failures == 0 ==> (w.outstanding != [] <==> w.queue != []))
      && (w.failures > 0 ==> w.outstanding == [])
      && Sound(w)
  {
    if callbacks != [] {
      var init, last := callbacks[..|callbacks| - 1], callbacks[|callbacks| - 1];
      WrittenThenQueuedIsSent(init);
      if Run(init).At? {
        CallKeepsSound(Run(init).w, last);
      }
    }
  }

  /** Once a write has failed, no continuation of the run ever starts another one. */
  lemma {:induction false} FailureEndsWriting<T>(callbacks: seq<Callback<T>>, more: seq<Callback<T>>)
    requires Run(callbacks).At? && Run(callbacks).w.failures > 0
    ensures Run(callbacks + more).At? ==>
      var w, z := Run(callbacks).w, Run(callbacks + more).w;
      && z.outstanding == [] && z.written == w.written && z.queue == w.queue + Sent(more) && z.failures == w.failures
  {
    if more == [] {
      assert callbacks + more == callbacks;
      WrittenThenQueuedIsSent(callbacks);
      assert Run(callbacks).w.queue + Sent(more) == Run(callbacks).w.queue;
    } else {
      var all := callbacks + more;
      var init, last := more[..|more| - 1], more[|more| - 1];
      assert all[..|all| - 1] == callbacks + init && all[|all| - 1] == last;
      FailureEndsWriting(callbacks, init);
      WrittenThenQueuedIsSent(callbacks + init);
    }
  }
}
