/**
 * `downloadJSON(stream)` (gcs2postgresql.js:35-42): a promise over a readable
 * stream that pushes every `data` chunk onto an array, rejects on `error`,
 * and on `end` resolves with the concatenation of the chunks.  A promise
 * settles once: whichever of `error` and `end` arrives first decides it, and
 * later events change nothing but the chunk array (the `data` handler stays
 * attached and keeps pushing).
 */
module StreamCollector {
  newtype Byte = b: int | 0 <= b < 256

  /** The events a readable stream delivers to the three handlers. */
  datatype Event = Data(chunk: seq<Byte>) | Error(reason: string) | End

  /** The state of the returned promise. */
  datatype Outcome = Pending | Resolved(payload: seq<Byte>) | Rejected(reason: string)

  /** `Buffer.concat(chunks)`: the chunks' bytes, one chunk after another. */
  function Concat(chunks: seq<seq<Byte>>): seq<Byte>
    decreases |chunks|
  {
    if chunks == [] then [] else chunks[0] + Concat(chunks[1..])
  }

  /** The chunks an event sequence delivers, in arrival order. */
  function Chunks(events: seq<Event>): seq<seq<Byte>>
    decreases |events|
  {
    if events == [] then []
    else
      var last := events[|events| - 1];
      Chunks(events[..|events| - 1]) + (if last.Data? then [last.chunk] else [])
  }

  /** The promise's state after the events, handled one at a time in order. */
  function Settle(events: seq<Event>): Outcome
    decreases |events|
  {
    if events == [] then Pending
    else
      var before := events[..|events| - 1];
      var prior := Settle(before);
      if !prior.Pending? then prior
      else
        match events[|events| - 1]
        case Data(_) => Pending
        case Error(reason) => Rejected(reason)
        case End => Resolved(Concat(Chunks(before)))
  }

  predicate AllData(events: seq<Event>) {
    forall i :: 0 <= i < |events| ==> events[i].Data?
  }

  /** Concatenation distributes over appending chunk lists. */
  lemma {:induction false} ConcatAppend(a: seq<seq<Byte>>, b: seq<seq<Byte>>)
    ensures Concat(a + b) == Concat(a) + Concat(b)
    decreases |a|
  {
    if a == [] {
      assert a + b == b;
    } else {
      assert (a + b)[1..] == a[1..] + b;
      ConcatAppend(a[1..], b);
    }
  }

  /** The sum of the chunk lengths. */
  function TotalLength(chunks: seq<seq<Byte>>): nat
    decreases |chunks|
  {
    if chunks == [] then 0 else |chunks[0]| + TotalLength(chunks[1..])
  }

  /** The collected length is the sum of the chunk lengths: no byte is lost or added. */
  lemma {:induction false} ConcatLength(chunks: seq<seq<Byte>>)
    ensures |Concat(chunks)| == TotalLength(chunks)
    decreases |chunks|
  {
    if chunks != [] {
      ConcatLength(chunks[1..]);
    }
  }

  /**
   * Chunk `i` sits in the collected payload, unchanged, right after the
   * chunks received before it: chunks keep their order and none is dropped.
   */
  lemma ConcatPlacesChunk(chunks: seq<seq<Byte>>, i: nat)
    requires i < |chunks|
    ensures |Concat(chunks[..i])| + |chunks[i]| <= |Concat(chunks)|
    ensures Concat(chunks)[|Concat(chunks[..i])|..|Concat(chunks[..i])| + |chunks[i]|] == chunks[i]
  {
    assert chunks == chunks[..i] + ([chunks[i]] + chunks[i + 1..]);
    ConcatAppend(chunks[..i], [chunks[i]] + chunks[i + 1..]);
    assert Concat([chunks[i]] + chunks[i + 1..]) == chunks[i] + Concat(chunks[i + 1..]);
  }

  /** Data events alone never settle the promise. */
  lemma {:induction false} DataKeepsPending(events: seq<Event>)
    requires AllData(events)
    ensures Settle(events) == Pending
    decreases |events|
  {
    if events != [] {
      DataKeepsPending(events[..|events| - 1]);
    }
  }

  /** A settled promise stays settled the same way, whatever arrives later. */
  lemma {:induction false} SettledIsFinal(events: seq<Event>, later: seq<Event>)
    requires !Settle(events).Pending?
    ensures Settle(events + later) == Settle(events)
    decreases |later|
  {
    if later == [] {
      assert events + later == events;
    } else {
      var shorter := later[..|later| - 1];
      assert (events + later)[..|events + later| - 1] == events + shorter;
      SettledIsFinal(events, shorter);
    }
  }

  /**
   * The first `end` or `error` decides the outcome: after data chunks, `end`
   * resolves with their in-order concatenation and `error` rejects with no
   * payload, and nothing that follows changes it.
   */
  lemma FirstSettlingEventDecides(received: seq<Event>, settling: Event, later: seq<Event>)
    requires AllData(received)
    requires !settling.Data?
    ensures Settle(received + [settling] + later) ==
            if settling.End? then Resolved(Concat(Chunks(received))) else Rejected(settling.reason)
  {
    DataKeepsPending(received);
    var upTo := received + [settling];
    assert upTo[..|upTo| - 1] == received;
    SettledIsFinal(upTo, later);
  }

  /** The promise is still pending exactly when no `end` or `error` has arrived. */
  lemma {:induction false} PendingIffOnlyData(events: seq<Event>)
    ensures Settle(events).Pending? <==> AllData(events)
    decreases |events|
  {
    if events != [] {
      var before := events[..|events| - 1];
      PendingIffOnlyData(before);
      if AllData(before) {
        assert Settle(events).Pending? <==> events[|events| - 1].Data?;
      } else {
        var i :| 0 <= i < |before| && !before[i].Data?;
        assert events[i] == before[i];
      }
    }
  }

  /**
   * The collector behind one `downloadJSON` call: the `chunks` array and the
   * promise's state, updated by one method per stream event.  `history` is
   * the events handled so far; Valid() ties both fields to it.
   */
  class Collector {
    var chunks: seq<seq<Byte>>
    var outcome: Outcome
    ghost var history: seq<Event>

    ghost predicate Valid()
      reads this
    {
      chunks == Chunks(history) && outcome == Settle(history)
    }

    /** `const chunks = []` and a fresh, pending promise. */
    constructor ()
      ensures Valid() && history == []
      ensures chunks == [] && outcome == Pending
    {
      chunks := [];
      outcome := Pending;
      history := [];
    }

    /** The `data` handler: `chunks.push(Buffer.from(chunk))`. */
    method OnData(chunk: seq<Byte>)
      requires Valid()
      modifies this
      ensures Valid() && history == old(history) + [Data(chunk)]
      ensures chunks == old(chunks) + [chunk]
      ensures outcome == old(outcome)
    {
      history := history + [Data(chunk)];
      chunks := chunks + [chunk];
      assert history[..|history| - 1] == old(history);
    }

    /** The `error` handler: `reject(err)`, which only a pending promise obeys. */
    method OnError(reason: string)
      requires Valid()
      modifies this
      ensures Valid() && history == old(history) + [Error(reason)]
      ensures chunks == old(chunks)
      ensures outcome == if old(outcome).Pending? then Rejected(reason) else old(outcome)
    {
      history := history + [Error(reason)];
      assert history[..|history| - 1] == old(history);
      if outcome.Pending? {
        outcome := Rejected(reason);
      }
    }

    /** The `end` handler: `resolve(Buffer.concat(chunks))`, which only a pending promise obeys. */
    method OnEnd()
      requires Valid()
      modifies this
      ensures Valid() && history == old(history) + [End]
      ensures chunks == old(chunks)
      ensures outcome == if old(outcome).Pending? then Resolved(Concat(old(chunks))) else old(outcome)
    {
      history := history + [End];
      assert history[..|history| - 1] == old(history);
      if outcome.Pending? {
        outcome := Resolved(Concat(chunks));
      }
    }
  }

  /** A stream that sends two chunks and ends yields their bytes in order; an error after the end is ignored. */
  method CollectTwoChunks() returns (c: Collector)
    ensures c.Valid() && c.outcome == Resolved([1, 2, 3])
  {
    c := new Collector();
    c.OnData([1, 2]);
    c.OnData([3]);
    c.OnEnd();
    assert Concat([[1, 2], [3]]) == [1, 2] + Concat([[3]]);
    assert Concat([[3]]) == [3] + Concat([]);
    c.OnError("late");
  }
}
