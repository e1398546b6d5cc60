/** Sequences of client calls made one at a time (each locked block of
    `src/telegram.rs` is one atomic step). `Run` gives the batches handed to the
    endpoint and the queue left at the end; the endpoint's answers do not
    enter, because a flush empties the queue whatever the answer is. */
module Sequential {
  import opened Telegram
  import opened Text

  datatype Call = Notify(message: string, buffered: bool) | FlushNow

  datatype Trace = Trace(batches: seq<seq<string>>, pending: seq<string>)

  /** One call: `batch` is what it sends, `rest` the queue it leaves. */
  function Apply(pending: seq<string>, call: Call): (s: Step)
    ensures s.batch + s.rest == pending + (if call.Notify? then [call.message] else [])
    ensures call.FlushNow? ==> s.batch == pending && s.rest == []
    ensures call.Notify? ==> (s.batch != [] <==> ShouldFlush(call.buffered, |pending| + 1))
    ensures s.batch == [] || s.rest == []
    ensures |s.rest| < Threshold
  {
    match call
    case Notify(message, buffered) => NotifyStep(pending, message, buffered)
    case FlushNow => Step(pending, [])
  }

  /** Messages the calls enqueue, in call order. */
  function Enqueued(calls: seq<Call>): seq<string>
    decreases |calls|
  {
    if calls == [] then []
    else (if calls[0].Notify? then [calls[0].message] else []) + Enqueued(calls[1..])
  }

  function Concat(batches: seq<seq<string>>): seq<string>
    decreases |batches|
  {
    if batches == [] then [] else batches[0] + Concat(batches[1..])
  }

  /** Batches sent to the endpoint (only non-empty ones: an empty flush sends nothing). */
  function Run(pending: seq<string>, calls: seq<Call>): (t: Trace)
    ensures forall i :: 0 <= i < |t.batches| ==> t.batches[i] != []
    decreases |calls|
  {
    if calls == [] then Trace([], pending)
    else
      var s := Apply(pending, calls[0]);
      var t := Run(s.rest, calls[1..]);
      Trace((if s.batch == [] then [] else [s.batch]) + t.batches, t.pending)
  }

  /** No loss and no duplication: every queued or enqueued message is sent in
      exactly one batch or is still pending, and all in their original order. */
  lemma {:induction false} RunConserves(pending: seq<string>, calls: seq<Call>)
    ensures Concat(Run(pending, calls).batches) + Run(pending, calls).pending
            == pending + Enqueued(calls)
    decreases |calls|
  {
    if calls != [] {
      var s := Apply(pending, calls[0]);
      var t := Run(s.rest, calls[1..]);
      RunConserves(s.rest, calls[1..]);
      var head := if s.batch == [] then [] else [s.batch];
      ConcatAppend(head, t.batches);
      assert Concat(head) == s.batch by {
        if head != [] { assert head[1..] == []; }
      }
      var added := if calls[0].Notify? then [calls[0].message] else [];
      assert Run(pending, calls) == Trace(head + t.batches, t.pending);
      assert Enqueued(calls) == added + Enqueued(calls[1..]);
      assert s.batch + s.rest == pending + added;
      calc {
        Concat(Run(pending, calls).batches) + Run(pending, calls).pending;
        Concat(head + t.batches) + t.pending;
        (s.batch + Concat(t.batches)) + t.pending;
        s.batch + (Concat(t.batches) + t.pending);
        s.batch + (s.rest + Enqueued(calls[1..]));
        { AppendAssoc(s.batch, s.rest, Enqueued(calls[1..])); }
        (s.batch + s.rest) + Enqueued(calls[1..]);
        (pending + added) + Enqueued(calls[1..]);
        { AppendAssoc(pending, added, Enqueued(calls[1..])); }
        pending + (added + Enqueued(calls[1..]));
      }
    } else {
      assert [] + pending == pending + [];
    }
  }

  lemma AppendAssoc(a: seq<string>, b: seq<string>, c: seq<string>)
    ensures (a + b) + c == a + (b + c)
  {
  }

  lemma {:induction false} ConcatAppend(a: seq<seq<string>>, b: seq<seq<string>>)
    ensures Concat(a + b) == Concat(a) + Concat(b)
    decreases |a|
  {
    if a != [] {
      assert a + b != [] && (a + b)[0] == a[0] && (a + b)[1..] == a[1..] + b;
      ConcatAppend(a[1..], b);
      calc {
        Concat(a + b);
        a[0] + Concat(a[1..] + b);
        a[0] + (Concat(a[1..]) + Concat(b));
        (a[0] + Concat(a[1..])) + Concat(b);
      }
    } else {
      assert a + b == b;
    }
  }

  /** After any call the queue is shorter than the threshold. */
  lemma {:induction false} RunStaysBelowThreshold(pending: seq<string>, calls: seq<Call>)
    requires calls != [] || |pending| < Threshold
    ensures |Run(pending, calls).pending| < Threshold
    decreases |calls|
  {
    if calls != [] {
      var s := Apply(pending, calls[0]);
      RunStaysBelowThreshold(s.rest, calls[1..]);
    }
  }

  predicate AllBuffered(calls: seq<Call>) {
    forall i :: 0 <= i < |calls| ==> calls[i].Notify? && calls[i].buffered
  }

  /** Buffered notifies that keep the queue below the threshold send nothing. */
  lemma {:induction false} BufferedBelowThreshold(pending: seq<string>, calls: seq<Call>)
    requires AllBuffered(calls) && |pending| + |calls| < Threshold
    ensures Run(pending, calls) == Trace([], pending + Enqueued(calls))
    decreases |calls|
  {
    if calls != [] {
      var m := calls[0].message;
      var s := Apply(pending, calls[0]);
      assert s == Step([], pending + [m]);
      TailBuffered(calls);
      BufferedBelowThreshold(s.rest, calls[1..]);
      assert Enqueued(calls) == [m] + Enqueued(calls[1..]);
      AppendAssoc(pending, [m], Enqueued(calls[1..]));
    } else {
      assert pending + [] == pending;
    }
  }

  lemma TailBuffered(calls: seq<Call>)
    requires AllBuffered(calls) && calls != []
    ensures AllBuffered(calls[1..])
  {
    forall i | 0 <= i < |calls[1..]| ensures calls[1..][i].Notify? && calls[1..][i].buffered {
      assert calls[1..][i] == calls[i + 1];
    }
  }

  /** Buffered notifies that bring the queue exactly to the threshold send one
      batch holding the whole queue, in order, and leave it empty. */
  lemma {:induction false} BufferedReachThreshold(pending: seq<string>, calls: seq<Call>)
    requires AllBuffered(calls) && calls != [] && |pending| + |calls| == Threshold
    ensures Run(pending, calls) == Trace([pending + Enqueued(calls)], [])
    decreases |calls|
  {
    var m := calls[0].message;
    var s := Apply(pending, calls[0]);
    assert Enqueued(calls) == [m] + Enqueued(calls[1..]);
    if |calls| == 1 {
      assert s == Step(pending + [m], []);
      assert Enqueued(calls[1..]) == [];
      assert Run(pending, calls) == Trace([s.batch] + [], []);
      assert [s.batch] + [] == [s.batch] && [m] + [] == [m];
    } else {
      assert s == Step([], pending + [m]);
      TailBuffered(calls);
      BufferedReachThreshold(s.rest, calls[1..]);
      AppendAssoc(pending, [m], Enqueued(calls[1..]));
      assert Run(pending, calls) == Trace([] + Run(s.rest, calls[1..]).batches, []);
    }
  }

  /** From a new client, twenty buffered notifies give one batch of all twenty,
      nineteen give none. */
  lemma BurstOfTwenty(calls: seq<Call>)
    requires AllBuffered(calls) && |calls| <= Threshold
    ensures |calls| < Threshold ==> Run([], calls).batches == []
    ensures |calls| == Threshold ==> Run([], calls).batches == [Enqueued(calls)]
  {
    if |calls| < Threshold {
      BufferedBelowThreshold([], calls);
    } else {
      BufferedReachThreshold([], calls);
      assert [] + Enqueued(calls) == Enqueued(calls);
    }
  }

  /** An unbuffered notify always sends, even when it is the only message. */
  lemma UnbufferedSends(pending: seq<string>, message: string, rest: seq<Call>)
    ensures Run(pending, [Notify(message, false)] + rest).batches[0] == pending + [message]
  {
    var calls := [Notify(message, false)] + rest;
    assert calls[1..] == rest;
  }

  /** Drives a client through `calls`, one at a time; `responses[i]` is what the
      endpoint answers if call `i` sends a batch. The requests the client sends
      are the batches of `Run`, in order, each joined with newlines, and the
      client's queue ends as `Run` says. */
  method Drive(client: TelegramClient, calls: seq<Call>, responses: seq<SinkResponse>)
    returns (requests: seq<SinkRequest>)
    requires |responses| == |calls|
    modifies client
    ensures client.pending == Run(old(client.pending), calls).pending
    ensures |requests| == |Run(old(client.pending), calls).batches|
    ensures forall k :: 0 <= k < |requests| ==>
      requests[k] == SinkRequest(client.token, client.chatId, Join(Run(old(client.pending), calls).batches[k]))
  {
    ghost var start := client.pending;
    ghost var batches: seq<seq<string>> := [];
    requests := [];
    var i := 0;
    while i < |calls|
      invariant 0 <= i <= |calls|
      invariant Run(start, calls)
                == Trace(batches + Run(client.pending, calls[i..]).batches, Run(client.pending, calls[i..]).pending)
      invariant |requests| == |batches|
      invariant forall k :: 0 <= k < |requests| ==>
        requests[k] == SinkRequest(client.token, client.chatId, Join(batches[k]))
    {
      ghost var s := Apply(client.pending, calls[i]);
      ghost var later := Run(s.rest, calls[i + 1..]);
      assert calls[i..][0] == calls[i] && calls[i..][1..] == calls[i + 1..];
      ghost var head := if s.batch == [] then [] else [s.batch];
      assert Run(client.pending, calls[i..]) == Trace(head + later.batches, later.pending);
      var sinkCall;
      match calls[i] {
        case Notify(message, buffered) =>
          var notified;
          notified, sinkCall := client.SendNotify(message, buffered, responses[i]);
        case FlushNow =>
          var reply;
          reply, sinkCall := client.Flush(responses[i]);
      }
      assert client.pending == s.rest;
      assert sinkCall.Some? <==> s.batch != [];
      if sinkCall.Some? {
        requests := requests + [sinkCall.value];
      }
      assert (batches + head) + later.batches == batches + (head + later.batches);
      batches := batches + head;
      i := i + 1;
    }
    assert calls[i..] == [];
    assert batches + [] == batches;
  }
}
