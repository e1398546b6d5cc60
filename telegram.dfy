/** The batching policy of the Telegram notification client: a queue of
    pending messages, appended to by `SendNotify`, drained by `Flush`, which
    hands the newline-joined batch to the Bot API in a single request.

    The HTTP exchange is not modelled: `Flush` receives the response the
    endpoint would give (`SinkResponse`) and returns the request it would
    have sent (`SinkRequest`), or `None` when it sends nothing. */
module Telegram {
  import opened Text

  /** Queue length at which a buffered `SendNotify` flushes. */
  const Threshold: nat := 20

  const NoMessageSent: string := "no message sent"
  const SentSuffix: string := " messages sent"

  datatype Option<T> = None | Some(value: T)

  datatype Result<T, E> = Ok(value: T) | Err(error: E)

  /** One `sendMessage` request: bot token (part of the URL), chat id and text. */
  datatype SinkRequest = SinkRequest(token: string, chatId: string, text: string)

  /** What the endpoint does with a request: the call fails to complete
      (`error` is the transport error's text), or it answers with an HTTP
      status; `diagnostic` stands for the "status: …, text: …" rendering of a
      non-success answer. */
  datatype SinkResponse =
    | TransportError(error: string)
    | HttpResponse(status: nat, diagnostic: string)

  /** What `SendNotify` reports (the Rust code logs it): only queued, or the flush's reply. */
  datatype Notified = Pushed | Flushed(reply: Result<string, string>)

  /** HTTP success class, 200 to 299. */
  predicate IsSuccess(status: nat) {
    200 <= status < 300
  }

  predicate Delivered(response: SinkResponse) {
    response.HttpResponse? && IsSuccess(response.status)
  }

  /** The success text for a batch of `count` messages. */
  function SentMessage(count: nat): (r: string)
    ensures ParseSentCount(r) == Some(count)
    ensures r != NoMessageSent
  {
    DecimalRoundTrip(count);
    var r := NatToString(count) + SentSuffix;
    assert r[..|r| - |SentSuffix|] == NatToString(count);
    assert r[|r| - |SentSuffix|..] == SentSuffix;
    assert r[0] != NoMessageSent[0];
    r
  }

  /** Reads the count back out of a success text; `None` for any other text. */
  function ParseSentCount(s: string): Option<nat> {
    if |s| > |SentSuffix| && s[|s| - |SentSuffix|..] == SentSuffix
       && AllDigits(s[..|s| - |SentSuffix|])
    then Some(ParseDecimal(s[..|s| - |SentSuffix|]))
    else None
  }

  /** The reply of a flush that sent a batch of `count` messages and got `response`. */
  function Reply(count: nat, response: SinkResponse): (r: Result<string, string>)
    ensures r.Ok? <==> Delivered(response)
    ensures r.Ok? ==> ParseSentCount(r.value) == Some(count)
    ensures response.TransportError? ==> r == Err(response.error)
    ensures response.HttpResponse? && !r.Ok? ==> r == Err(response.diagnostic)
  {
    match response
    case TransportError(e) => Err(e)
    case HttpResponse(status, diagnostic) =>
      if IsSuccess(status) then Ok(SentMessage(count)) else Err(diagnostic)
  }

  /** Threshold rule of `send_notify`, on the queue length right after the append. */
  predicate ShouldFlush(buffered: bool, len: nat) {
    !buffered || len >= Threshold
  }

  /** One operation on the queue: `batch` is the snapshot taken off it for
      the endpoint (empty when nothing is sent), `rest` the queue afterwards. */
  datatype Step = Step(batch: seq<string>, rest: seq<string>)

  /** `send_notify`: append, then flush when the threshold rule says so. */
  function NotifyStep(pending: seq<string>, message: string, buffered: bool): (s: Step)
    ensures s.batch + s.rest == pending + [message]
    ensures s.batch != [] <==> ShouldFlush(buffered, |pending| + 1)
    ensures s.batch == [] || s.rest == []
    ensures |s.rest| < Threshold
  {
    var q := pending + [message];
    if ShouldFlush(buffered, |q|) then Step(q, []) else Step([], q)
  }

  class TelegramClient {
    const token: string
    const chatId: string
    /** Messages appended since the last flush, oldest first. */
    var pending: seq<string>

    constructor (token: string, chatId: string)
      ensures this.token == token && this.chatId == chatId
      ensures pending == []
    {
      this.token := token;
      this.chatId := chatId;
      pending := [];
    }

    /** Snapshot and clear the queue; send the joined batch unless it is empty. */
    method Flush(response: SinkResponse) returns (reply: Result<string, string>, sinkCall: Option<SinkRequest>)
      modifies this
      ensures pending == []
      ensures old(pending) == [] ==> reply == Ok(NoMessageSent) && sinkCall == None
      ensures old(pending) != [] ==> sinkCall == Some(SinkRequest(token, chatId, Join(old(pending))))
      ensures old(pending) != [] ==> reply == Reply(|old(pending)|, response)
    {
      var messagesLen := |pending|;
      var messagesAll := Join(pending);
      pending := [];
      if messagesLen == 0 {
        return Ok(NoMessageSent), None;
      }
      sinkCall := Some(SinkRequest(token, chatId, messagesAll));
      reply := Reply(messagesLen, response);
    }

    /** Queue `message`; flush when unbuffered or when the queue reached the threshold.
        `response` is what the endpoint answers if a flush sends a batch. */
    method SendNotify(message: string, buffered: bool, response: SinkResponse)
      returns (notified: Notified, sinkCall: Option<SinkRequest>)
      modifies this
      ensures var s := NotifyStep(old(pending), message, buffered);
        && pending == s.rest
        && (s.batch == [] ==> notified == Pushed && sinkCall == None)
        && (s.batch != [] ==> notified == Flushed(Reply(|s.batch|, response))
                              && sinkCall == Some(SinkRequest(token, chatId, Join(s.batch))))
      ensures notified.Flushed? <==> ShouldFlush(buffered, |old(pending)| + 1)
      ensures notified.Pushed? ==> pending == old(pending) + [message]
      ensures notified.Flushed? ==> pending == []
      ensures |pending| < Threshold
    {
      pending := pending + [message];
      var messagesLen := |pending|;
      if !buffered || messagesLen >= Threshold {
        var reply;
        reply, sinkCall := Flush(response);
        notified := Flushed(reply);
      } else {
        notified := Pushed;
        sinkCall := None;
      }
    }
  }

  /** A new client holds no message, so flushing it right away sends nothing. */
  method FlushNewClient(token: string, chatId: string, response: SinkResponse)
    returns (reply: Result<string, string>, sinkCall: Option<SinkRequest>)
    ensures reply == Ok(NoMessageSent) && sinkCall == None
  {
    var client := new TelegramClient(token, chatId);
    reply, sinkCall := client.Flush(response);
  }

  /** A batch that fails is dropped, not requeued: the next flush sends only
      what was queued after it. */
  method FailedBatchIsDropped(token: string, chatId: string, first: string, second: string,
                              failing: SinkResponse, working: SinkResponse)
    returns (failedReply: Result<string, string>, nextCall: Option<SinkRequest>,
             nextReply: Result<string, string>)
    requires !Delivered(failing) && Delivered(working)
    ensures failedReply.Err?
    ensures nextCall == Some(SinkRequest(token, chatId, second))
    ensures nextReply == Ok(SentMessage(1))
  {
    var client := new TelegramClient(token, chatId);
    var notified, call := client.SendNotify(first, true, failing);
    failedReply, call := client.Flush(failing);
    notified, call := client.SendNotify(second, true, working);
    nextReply, nextCall := client.Flush(working);
  }
}
