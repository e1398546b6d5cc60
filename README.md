# Telegram notification batching (ckb-indexer `TelegramClient`)

This project models the batching policy of `TelegramClient` in
`src/telegram.rs`. The client keeps an ordered queue of pending notification
strings. `send_notify` appends a message and flushes when the caller asked
for an unbuffered send, or when the queue has reached 20 messages. `flush`
snapshots and clears the queue. It then sends the newline-joined batch to the
Telegram Bot API in one `sendMessage` request, unless the batch is empty. It
reports `"N messages sent"`, `"no message sent"`, or an error text.

Files:

- `text.dfy` (module `Text`): `Join`, the newline join used for the payload;
  `Split`, its inverse for messages without line breaks; and the decimal
  rendering of the count in the success text, with its parser.
- `telegram.dfy` (module `Telegram`): the class `TelegramClient` with its
  `pending` queue, `Flush` and `SendNotify`. It also holds the threshold rule,
  the reply texts, the pure step function `NotifyStep` that specifies
  `SendNotify`, and two client methods. One shows that a new client's flush
  sends nothing. The other shows that a failed batch is not sent again.
- `sequential.dfy` (module `Sequential`): any sequence of calls made one at a
  time, as a pure function `Run`. Lemmas about it cover conservation (no
  message lost or duplicated, order kept), the queue bound, and the
  20-message threshold. The method `Drive` runs a `TelegramClient` through
  such a sequence and is proved to send exactly `Run`'s batches.

The HTTP exchange is a parameter. `Flush` and `SendNotify` receive the
`SinkResponse` the endpoint would give: a transport error, or an HTTP status
with a diagnostic text. They return the `SinkRequest` (token, chat id, text)
they would send, or `None` when they send nothing. The Rust `send_notify`
returns nothing and logs the outcome. The model returns that outcome as a
`Notified` value instead: `Pushed`, or `Flushed(reply)`.

`flush` clears the queue while it holds the lock, before the request is
made. A failed batch is therefore dropped and never requeued.

## Model

| member | source | states |
|---|---|---|
| `Telegram.TelegramClient.constructor` | src/telegram.rs:12-19 | a new client keeps token and chat id and starts with an empty queue |
| `Telegram.TelegramClient.Flush` | src/telegram.rs:21-53 | the queue is empty afterwards whatever the endpoint answers; an empty snapshot gives `Ok("no message sent")` and no request; otherwise exactly one request carries the chat id and the join of the old queue, and the reply is `Reply(old queue length, response)` |
| `Telegram.TelegramClient.SendNotify` | src/telegram.rs:55-73 | a flush happens iff `!buffered` or the length after the append is at least 20; without a flush the queue is the old queue plus the message and no request is made; with a flush the request carries the old queue plus the message, and the queue ends empty; the queue is always shorter than 20 afterwards |
| `Telegram.NotifyStep` | src/telegram.rs:56-61 | what `send_notify` sends, followed by what it leaves queued, is exactly the old queue plus the message; it sends iff the threshold rule holds; it either sends everything or nothing; what stays queued is shorter than 20 |
| `Telegram.Reply` | src/telegram.rs:41-51 | the reply is `Ok` iff the endpoint answered with a 2xx status; an `Ok` reply's count reads back as the snapshot length; a transport error is passed through as the error text |
| `Telegram.SentMessage` | src/telegram.rs:44 | `"{len} messages sent"` determines `len` (it parses back to it) and never equals `"no message sent"` |
| `Telegram.FlushNewClient` | src/telegram.rs:12-31 | flushing a client just constructed returns `Ok("no message sent")` and sends no request |
| `Telegram.FailedBatchIsDropped` | src/telegram.rs:22-28 | after a buffered message whose flush fails, the flush reply is an error; the next message's flush sends only that message and reports 1 sent |
| `Text.Join` | src/telegram.rs:25 | the payload `pending_messages.join("\n")`; its meaning is stated by `Text.SplitJoin` and `Text.JoinSnoc` |
| `Telegram.ShouldFlush` | src/telegram.rs:61 | the threshold test: flush when not buffered, or when the length after the append is at least 20; its effect is stated by `Telegram.NotifyStep`, `Sequential.BurstOfTwenty` and `Sequential.UnbufferedSends` |
| `Telegram.IsSuccess` | src/telegram.rs:43 | `is_success()`, a status from 200 to 299; its effect is stated by `Telegram.Reply` |
| `Text.NatToString` | src/telegram.rs:44 | the decimal rendering of the count is non-empty, all digits, with no leading zero |
| `Text.DecimalRoundTrip` | src/telegram.rs:44 | parsing the rendered count gives the count back |
| `Text.SplitJoin` | src/telegram.rs:25 | for a non-empty batch whose messages hold no line break, the payload splits back into exactly the batch, in insertion order |
| `Text.JoinSnoc` | src/telegram.rs:25 | appending a message to a non-empty queue appends `"\n"` and that message to the payload |
| `Sequential.Apply` | src/telegram.rs:22-28 | one call splits the old queue plus any new message into the sent batch and the remaining queue, losing nothing; a flush takes the whole queue and leaves it empty; a notify sends iff the threshold rule holds; a call sends all or nothing; the queue left is shorter than 20 |
| `Sequential.Drive` | src/telegram.rs:21-73 | driving a `TelegramClient` through any call sequence sends exactly `Run`'s batches, in order, each newline-joined, with the client's token and chat id, and leaves the client's queue equal to `Run`'s final queue |
| `Sequential.Run` | src/telegram.rs:29-31 | no batch handed to the endpoint is empty |
| `Sequential.RunConserves` | src/telegram.rs:22-28 | over any call sequence, the concatenated sent batches plus the final queue equal the initial queue plus every enqueued message, in order, whatever the endpoint answered |
| `Sequential.RunStaysBelowThreshold` | src/telegram.rs:58-61 | after at least one call the queue holds fewer than 20 messages |
| `Sequential.BufferedBelowThreshold` | src/telegram.rs:61 | buffered notifies that keep the queue under 20 send nothing and queue every message in order |
| `Sequential.BufferedReachThreshold` | src/telegram.rs:61 | buffered notifies that bring the queue to exactly 20 send one batch of the whole queue in order and leave it empty |
| `Sequential.BurstOfTwenty` | src/telegram.rs:61 | from an empty queue, 19 or fewer buffered notifies (including none) send nothing; 20 send exactly one batch of all 20 |
| `Sequential.UnbufferedSends` | src/telegram.rs:61 | an unbuffered notify always sends the old queue plus its message, even when the queue was empty |

## Left out

- HTTP transport (src/telegram.rs:32-52): the reqwest client, the URL, the query encoding and `resp.text()` are a foreign network library. The endpoint's answer is a `SinkResponse` parameter. The request is returned as a `SinkRequest` value.
- Telegram.Reply: for a non-success status, the error text `"status: …, text: …"` is the opaque `diagnostic` of the response. Neither the status's display form nor the body's debug form is modelled. A transport error's text is the opaque `error` string.
- Concurrency: `Arc<Mutex<…>>`, locking and the panic on a poisoned lock are not modelled. Each locked block (src/telegram.rs:22-28, 56-60) is one atomic step, and calls are made one at a time. Interleavings, where the queue can grow past 20 between the append and the flush, are not modelled.
- Logging (src/telegram.rs:64, 67, 71) is replaced by the returned `Notified` value.
- `Vec::with_capacity(20)` (src/telegram.rs:13) is an allocation hint with no effect on behaviour.
- Text.SplitJoin: messages that contain a line break make the payload ambiguous. Only line-free messages are shown to split back. For every batch, `Sequential.RunConserves` states that no message is lost or duplicated.
