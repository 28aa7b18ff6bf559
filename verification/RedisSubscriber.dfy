/**
 The uploader's object: its two queues are fields, and each thread's loop keeps its
 own locals. A loop is followed for any number of passes, and what the other
 threads do to its queues before each pass is a parameter.
 */
module RedisSubscribers {
  import opened Wrappers
  import opened SpscQueue
  import opened Decimal
  import opened Uploader
  import opened UploaderRuns

  /** The messages `read` after those `seen`: the maximum they leave, and the fresh points among them. */
  ghost predicate Parsed(verbose: bool, seen: seq<Raw>, read: seq<Raw>, pushed: seq<Option<Point>>, last: int) {
    last == RunningMax(seen + read) && Filtered(verbose, seen) + Somes(pushed) == Filtered(verbose, seen + read)
  }

  lemma PassIsParsed(verbose: bool, seen: seq<Raw>, read: seq<Raw>, pushed: seq<Option<Point>>, last: int, msg: Raw)
    requires Parsed(verbose, seen, read, pushed, last)
    ensures var (t, x) := ParseOne(verbose, last, msg); Parsed(verbose, seen, read + [msg], pushed + [x], t)
  {
    var x := ParseOne(verbose, last, msg).1;
    ParseOneIsTheFilter(verbose, seen + read, msg);
    assert seen + read + [msg] == seen + (read + [msg]);
    SomesAfter(Filtered(verbose, seen), pushed, x);
  }

  lemma IdlePassIsParsed(verbose: bool, seen: seq<Raw>, read: seq<Raw>, pushed: seq<Option<Point>>, last: int)
    requires Parsed(verbose, seen, read, pushed, last)
    ensures Parsed(verbose, seen, read, pushed + [None], last)
  {
    SomesAfter(Filtered(verbose, seen), pushed, None);
  }

  class RedisSubscriber {
    var spscQueueParse: seq<Raw>
    var spscQueuePublish: seq<Point>

    constructor ()
      ensures spscQueueParse == [] && spscQueuePublish == []
    {
      spscQueueParse, spscQueuePublish := [], [];
    }

    /** The Redis callback. */
    method OnMessage(msg: Raw)
      modifies this`spscQueueParse
      ensures spscQueueParse == Push(old(spscQueueParse), msg)
    {
      if |spscQueueParse| < CAPACITY {
        spscQueueParse := spscQueueParse + [msg];
      }
    }

    method OnMessages(msgs: seq<Raw>)
      modifies this`spscQueueParse
      ensures spscQueueParse == PushAll(old(spscQueueParse), msgs)
    {
      for i := 0 to |msgs|
        invariant spscQueueParse == PushAll(old(spscQueueParse), msgs[..i])
      {
        assert msgs[..i + 1][..i] == msgs[..i];
        OnMessage(msgs[i]);
      }
      assert msgs[..|msgs|] == msgs;
    }

    /** The body of the parse loop, which is the pass the interleaved uploader uses. */
    method ParsePass(verbose: bool, lastTimestamp: int) returns (last: int)
      requires spscQueueParse != []
      modifies this
      ensures var (t, x) := ParseOne(verbose, lastTimestamp, old(spscQueueParse)[0]);
        && last == t && spscQueueParse == old(spscQueueParse)[1..]
        && spscQueuePublish == PushSome(old(spscQueuePublish), x)
    {
      var msg := spscQueueParse[0];
      spscQueueParse := spscQueueParse[1..];
      if msg.NotAnObject? || !msg.t.Number? || lastTimestamp > msg.t.number {
        return lastTimestamp;
      }
      last := msg.t.number;
      if verbose && (msg.s == Missing || msg.p == Missing) {
        return;
      }
      spscQueuePublish := Push(spscQueuePublish, Point(msg.s, msg.p, msg.t.number));
    }

    /**
     The parse loop, for as many passes as there are `arrivals`, the messages that
     come in before each; `takes` are the points publish has popped meanwhile. `seen`
     are the messages of earlier passes, whose maximum lastTimestamp holds.
     */
    method Parse(verbose: bool, arrivals: seq<seq<Raw>>, takes: seq<nat>, ghost seen: seq<Raw>, lastTimestamp: int)
      returns (last: int, ghost read: seq<Raw>, ghost pushed: seq<Option<Point>>)
      requires lastTimestamp == RunningMax(seen) && |takes| == |arrivals|
      modifies this
      ensures (read, spscQueueParse) == Served(old(spscQueueParse), arrivals, |arrivals|)
      ensures Parsed(verbose, seen, read, pushed, last)
      ensures |pushed| == |takes| && spscQueuePublish == Relayed(old(spscQueuePublish), pushed, takes)
    {
      last, read, pushed := lastTimestamp, [], [];
      assert seen + [] == seen && Filtered(verbose, seen) + [] == Filtered(verbose, seen);
      for pass := 0 to |arrivals|
        invariant (read, spscQueueParse) == Served(old(spscQueueParse), arrivals, pass)
        invariant Parsed(verbose, seen, read, pushed, last)
        invariant |pushed| == pass && spscQueuePublish == Relayed(old(spscQueuePublish), pushed, takes)
      {
        OnMessages(arrivals[pass]);
        spscQueuePublish := After(spscQueuePublish, takes[pass]);
        ghost var x: Option<Point> := None;
        if spscQueueParse == [] {
          IdlePassIsParsed(verbose, seen, read, pushed, last);
        } else {
          ghost var msg := spscQueueParse[0];
          PassIsParsed(verbose, seen, read, pushed, last, msg);
          x := ParseOne(verbose, last, msg).1;
          last := ParsePass(verbose, last);
          read := read + [msg];
        }
        RelayedOneMore(old(spscQueuePublish), pushed, x, takes);
        pushed := pushed + [x];
      }
    }

    /** The body of the publish loop; each conversion that throws ends it. */
    method PublishPass(count: nat, result: seq<string>, obj: Point, ok: bool)
      returns (count': nat, result': seq<string>, commands: seq<seq<string>>)
      ensures Batch(count', result') == PublishOne(Batch(count, result), obj, ok)
      ensures commands == if Flushes(Batch(count, result), obj) && ok then [result + Pieces(obj)] else []
    {
      count', result', commands := count, result, [];
      assert result + [] == result;
      if obj.s.Text? {
        result' := result' + [obj.s.text];
        result' := result' + [PrintInt(obj.t)];
        if obj.p.Text? {
          result' := result' + [obj.p.text];
          assert result' == result + Pieces(obj);
          if count >= REDIS_BATCH_SIZE {
            if ok {
              commands := [result'];
              count' := 0;
              result' := result'[..1];
            }
          } else {
            count' := count' + 1;
          }
        } else {
          assert result' == result + Pieces(obj);
        }
      }
    }

    /** The same pass with the loop's history. */
    method PublishAccounted(count: nat, result: seq<string>, commands: seq<seq<string>>, obj: Point, ok: bool,
                            ghost popped: seq<Point>, ghost sent: seq<seq<Point>>, ghost held: seq<Point>, ghost failures: nat)
      returns (count': nat, result': seq<string>, commands': seq<seq<string>>,
               ghost sent': seq<seq<Point>>, ghost held': seq<Point>, ghost failures': nat)
      requires Accounted(popped, commands, sent, held, failures, Batch(count, result))
      ensures Accounted(popped + [obj], commands', sent', held', failures', Batch(count', result'))
    {
      PassIsAccounted(popped, commands, sent, held, failures, Batch(count, result), obj, ok);
      var more: seq<seq<string>>;
      count', result', more := PublishPass(count, result, obj, ok);
      commands', held' := commands + more, held + [obj];
      if more != [] {
        sent', held', failures' := sent + [held'], [], 0;
      } else {
        assert commands + [] == commands;
        sent' := sent;
        failures' := if Flushes(Batch(count, result), obj) then failures + 1 else failures;
      }
    }

    /** One pass of the publish loop, after what parse pushed before it, with the loop's history. */
    method PublishTurn(count: nat, result: seq<string>, commands: seq<seq<string>>, pushes: seq<Point>, ok: bool, ghost popped: seq<Point>,
                       ghost read: seq<Point>, ghost sent: seq<seq<Point>>, ghost held: seq<Point>, ghost failures: nat)
      returns (count': nat, result': seq<string>, commands': seq<seq<string>>, ghost read': seq<Point>,
               ghost sent': seq<seq<Point>>, ghost held': seq<Point>, ghost failures': nat)
      requires Accounted(popped + read, commands, sent, held, failures, Batch(count, result))
      modifies this`spscQueuePublish
      ensures (read', spscQueuePublish) == Poll(read, PushAll(old(spscQueuePublish), pushes))
      ensures Accounted(popped + read', commands', sent', held', failures', Batch(count', result'))
    {
      spscQueuePublish := PushAll(spscQueuePublish, pushes);
      count', result', commands', read', sent', held', failures' := count, result, commands, read, sent, held, failures;
      if spscQueuePublish != [] {
        var obj := spscQueuePublish[0];
        spscQueuePublish := spscQueuePublish[1..];
        assert popped + read + [obj] == popped + (read + [obj]);
        count', result', commands', sent', held', failures' :=
          PublishAccounted(count, result, commands, obj, ok, popped + read, sent, held, failures);
        read' := read + [obj];
      }
    }

    /**
     The publish loop, for as many passes as there are `arrivals`, the points parse
     has pushed before each; `oks` says for each pass whether a command sent in it
     would succeed. `popped`, `earlier`, `sentEarlier`, `heldEarlier` and
     `failedEarlier` are the history of earlier passes.
     */
    method Publish(b: Batch, arrivals: seq<seq<Point>>, oks: seq<bool>, ghost popped: seq<Point>, earlier: seq<seq<string>>,
                   ghost sentEarlier: seq<seq<Point>>, ghost heldEarlier: seq<Point>, ghost failedEarlier: nat)
      returns (count: nat, result: seq<string>, commands: seq<seq<string>>, ghost read: seq<Point>,
               ghost sent: seq<seq<Point>>, ghost held: seq<Point>, ghost failures: nat)
      requires Accounted(popped, earlier, sentEarlier, heldEarlier, failedEarlier, b) && |oks| == |arrivals|
      modifies this`spscQueuePublish
      ensures (read, spscQueuePublish) == Served(old(spscQueuePublish), arrivals, |arrivals|)
      ensures Accounted(popped + read, commands, sent, held, failures, Batch(count, result))
    {
      count, result, commands := b.count, b.result, earlier;
      read, sent, held, failures := [], sentEarlier, heldEarlier, failedEarlier;
      assert popped + [] == popped;
      for pass := 0 to |arrivals|
        invariant (read, spscQueuePublish) == Served(old(spscQueuePublish), arrivals, pass)
        invariant Accounted(popped + read, commands, sent, held, failures, Batch(count, result))
      {
        count, result, commands, read, sent, held, failures :=
          PublishTurn(count, result, commands, arrivals[pass], oks[pass], popped, read, sent, held, failures);
      }
    }
  }
}
