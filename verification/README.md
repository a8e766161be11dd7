# Socket.IO channel loops, modelled in Dafny

This project models the connection handler of a Go Socket.IO/Engine.IO
server (`loop.go`). A `Channel` wraps one transport connection. It has an
`alive` flag that only ever goes from true to false, a buffered outbound
queue `out` of capacity 500 (`queueBufferSize`), the engine.io handshake
`Header` and a table of calls waiting for an acknowledgement. Three loops
run against each channel:

- `inLoop` reads frames, answers pings with pongs, drops pongs, stores the
  header of the open frame (firing the connect event) and hands close and
  custom messages to the dispatcher.
- `outLoop` applies the overflow rule to the queue length, then takes the
  head of the queue and writes it to the transport.
- `pinger` puts a ping on the queue while the channel is alive.

`CloseChannel` is the close protocol. It does nothing on a closed channel.
On a live one it closes the transport, clears `alive`, drains the queue,
leaves the close sentinel as the only queued message and fires
`OnDisconnection`. A process-wide registry records which channels are
"overflooded", meaning their queue is more than half full.

Files:

- `protocol.dfy` (module `Protocol`): message kinds and the close, ping and
  pong frames.
- `channel_model.dfy` (module `ChannelModel`): the channel state as a value.
  It has one function per atomic step (`Close`, `Send`, `OverflowCheck`,
  `Receive`, `InStep`, `PingStep`), the invariant `ChannelInv`, and lemmas
  about single steps.
- `loop.dfy` (module `Loop`): the classes `Channel` and `Registry`. Each
  method updates fields in place, as the Go code does. Each is proved to
  perform its `ChannelModel` step on `State()`, so `State() == Close(old(State()))`
  and so on.
- `pumps.dfy` (module `Pumps`): the loops, producers and outside closes
  interleaved as traces of those steps (`Apply`, `Run`). It holds the
  invariant `Inv` and the lemmas about whole traces: FIFO delivery, a
  single close, no writes after close, and the backpressure scenario.

Each loop iteration is one atomic step. The results of the foreign calls
are parameters of the step: the transport read (`readOk`), the decoder
(`decodeOk` and the decoded `msg`), `json.Unmarshal` of the header
(`headerOk` and the header it leaves behind) and the transport write
(`writeOk`).

An outLoop iteration is two steps, `OutLoopCheck` and `OutLoopReceive`, so
that producers and closes can run while the receive waits for a message. The
dequeue and the transport write stay one step, and so do the pinger's
liveness check and its send (see "## Left out"). A send on the queue blocks when
the queue is full, so every send requires `|out| < 500`. Likewise a receive
requires `|out| > 0`. In a trace, a step that would block makes no progress.

The model follows the code as written:

- After a decode failure, `inLoop` closes the channel and still switches on
  the message the decoder returned (loop.go:110-126).
- After a bad header, it closes the channel, keeps whatever the parser left
  in `header`, and then fires `OnConnection` (loop.go:117-120).
  `ChannelModel.OpenHandshake` shows the resulting event order: disconnect,
  then connect.
- The overflow-fatal path of `outLoop` returns without removing the channel
  from the registry (loop.go:147-148). A channel that was registered when its
  queue filled up therefore stays registered after it is closed, and
  `AmountOfOverflooded` keeps counting it. `Pumps.OverflowClosedStaysRegistered`
  proves this. The intended lifecycle says a closed channel's registry entry
  is removed; the code does not do that.
- `CloseChannel` ignores its reason arguments and always returns nil. So the
  model's `CloseChannel` takes no reason, and every loop ends with a nil
  error. The steps report only whether their loop returns (`stop`).
- Pending acknowledgement waiters are not released on close, because the
  code does not do that. `ackWaiters` is empty after `InitChannel` and no
  step changes it.

`Channel.Id` reads `header.sid`. `Channel.InLoopStep` and the lemma
`OpenHandshake` say where that value comes from.

The trace lemmas of `Pumps` cover the call sequences that `Pumps.Apply`
admits: no loop's method is called again after it returned `stop`, and
`OutLoopCheck` and `OutLoopReceive` alternate. The `Channel` class does not
record which loops have returned.

## Model

| member | source | states |
|---|---|---|
| Loop.Channel.InitChannel | loop.go:57-62 | initChannel gives an empty queue, an empty ack-waiter table, `alive` true, no transport close and no events; the state is `Init()` |
| Loop.Channel.IsAlive | loop.go:74-76 | the flag agrees with the transport and the dispatcher: alive iff the transport was never closed and no disconnect fired; once dead, each happened exactly once |
| Loop.Channel.Enqueue | loop.go:122 | a send appends the message at the tail of the queue; it needs room, because the buffered send blocks on a full queue |
| Loop.Channel.CloseChannel | loop.go:81-101 | on a closed channel nothing changes; on a live one the transport is closed once more, `alive` becomes false, the queue is exactly `[CloseMessage]`, `OnDisconnection` is appended once, and nothing is written |
| Loop.Channel.OutLoopCheck | loop.go:146-157 | a full queue (500) closes the channel, ends the loop and leaves the registry alone; otherwise the state is unchanged and the channel is registered iff more than 250 messages are queued; no other channel's registration changes |
| Loop.Channel.OutLoopReceive | loop.go:159-167 | the head leaves the queue; the sentinel ends the loop with nothing written; any other message is appended to the written frames; a failed write closes the channel and ends the loop |
| Loop.Channel.InLoopStep | loop.go:105-126 | the iteration is the `InStep` of the state: a read error closes the channel and ends the loop; every other frame continues the loop; a decode failure leaves the channel closed; an open frame leaves the parsed header in `header`, so `Id()` is its sid |
| Loop.Channel.Id | loop.go:67-69 | the session id is the sid of the header; by `InLoopStep`'s ensures, after an open frame it is the sid of the header parsed from that frame, whether or not the parse succeeded |
| Loop.Channel.PingerStep | loop.go:179-183 | a dead channel ends the loop with the state untouched; a live one gets exactly one ping at the tail of its queue |
| Loop.Registry.constructor | loop.go:131 | the registry starts empty |
| Loop.Registry.AmountOfOverflooded | loop.go:134-139 | the result is the number of registered channels |
| ChannelModel.InitIsValid | loop.go:57-62 | the initial channel satisfies the channel invariant, is alive and has an empty queue and ack table |
| ChannelModel.CloseIdempotent | loop.go:85-88 | closing twice is closing once; a close adds at most one transport close and one disconnect event |
| ChannelModel.CloseLeavesOnlySentinel | loop.go:93-97 | closing a live channel moves every queued message to the received history and leaves the queue holding the sentinel and nothing else |
| ChannelModel.CloseKeepsInv | loop.go:90-99 | the close keeps the queue bounded and FIFO, and it keeps the transport and dispatcher consistent with `alive` |
| ChannelModel.SendKeepsInv | loop.go:122 | a send within capacity keeps the channel invariant |
| ChannelModel.OutStepsKeepInv | loop.go:146-167 | both halves of an outLoop iteration keep the channel invariant |
| ChannelModel.InStepKeepsInv | loop.go:105-126 | an inLoop iteration keeps the channel invariant, including the bad-header path that closes and then connects |
| ChannelModel.PingStepKeepsInv | loop.go:179-183 | a pinger iteration keeps the channel invariant |
| ChannelModel.OverflowRule | loop.go:146-157 | the loop stops iff the queue holds 500; if it stops, the channel is closed and the registration is kept; otherwise the state is unchanged and the registration holds iff the length is over 250 |
| ChannelModel.ReceiveRule | loop.go:159-167 | the head is removed; a sentinel stops with nothing written, a good write appends exactly the head to the written frames, a failed write stops with the channel closed and nothing written |
| ChannelModel.PingAndPong | loop.go:121-123 | a decoded ping on a queue with room appends exactly one pong and fires no event; a pong changes nothing, whatever the queue length |
| ChannelModel.OpenHandshake | loop.go:116-120 | an open frame stores the parsed header in every case; with a good header it fires `OnConnection`; with a bad one on a live channel it closes it, and the events end with disconnect and then connect; with a bad one on a channel already closed, the channel stays closed and only the connect event is added |
| Pumps.ApplyKeepsInv | loop.go:81-183 | every step of any loop, of a producer or of an outside close keeps the system invariant |
| Pumps.RunKeepsInv | loop.go:81-183 | every trace of steps keeps the system invariant |
| Pumps.WrittenIsPrefixOfSent | loop.go:159-167 | from initChannel on, the frames the transport accepted are always a prefix of the frames put on the queue, in enqueue order |
| Pumps.CloseRunsOnce | loop.go:82-99 | in any interleaving, the transport is closed at most once and the disconnect event fires at most once; each happened exactly when the channel is dead |
| Pumps.QueueStaysBounded | loop.go:146-148 | in any interleaving the queue never holds more than 500 messages |
| Pumps.AliveNeverRevives | loop.go:91 | once `alive` is false, no trace makes it true again |
| Pumps.NoWriteAfterClose | loop.go:159-167 | once the channel is closed, no further frame reaches the transport |
| Pumps.FlagFrozenAfterOutLoopReturns | loop.go:146-157 | after outLoop has returned, nothing changes the channel's registration |
| Pumps.OverflowClosedStaysRegistered | loop.go:146-157 | a registered channel whose queue fills up is closed, and it stays registered whatever happens afterwards |
| Pumps.OverflowScenario | loop.go:146-157 | filling a fresh queue with n messages and running the overflow rule: not registered for n <= 250, registered for 251..499, and closed at 500 with the messages discarded, only the sentinel queued and nothing written |

## Left out

- Goroutines, `aliveLock`, `overfloodedLock` and the unlocked read in
  `IsAlive`. Every step is atomic, and interleavings are the traces of `Pumps`.
- The blocking of channel sends and receives is not modelled as waiting. A
  send requires room and a receive requires a message. In a trace, a
  blocked step makes no progress.
- `time.Sleep` and `PingParams` in `pinger`. These are timer I/O; only the
  check after the sleep and the ping send are modelled.
- `transport.Connection` (`GetMessage`, `WriteMessage`, `Close`),
  `protocol.Decode` and `json.Unmarshal`. These are foreign calls; their
  results are step parameters, and the channel records the calls made to
  the transport.
- What `Decode` returns alongside an error. The model switches on whatever
  message is passed in. If the real decoder returns a nil message, the Go
  switch would dereference it; the protocol package is not part of this model.
- Slicing `msg.Source[1:]` in the header parse. An open frame is assumed to
  have a non-empty source, because the decoder is not part of this model.
- `m.callLoopEvent`, `m.processIncomingMessage` and the ack processor's
  internals. This is the external dispatch layer; the model records only
  which event fired or which message was handed off, in `events`.
- The reply channels held in the ack-waiter table. Only the ids are kept
  (`ackWaiters`), because the ack processor is not part of this model.
- The `server` and `ip` fields of the Go struct. No modelled operation uses
  them.
- The zero-valued `Channel` before `initChannel`. Allocation and
  `initChannel` are one constructor.
- Whole loops. Only their iterations and the traces in `Pumps` are modelled.
- Loop.Channel.OutLoopReceive: the dequeue (loop.go:159) and `WriteMessage`
  (loop.go:164) are one atomic step, and so are `Pumps.Apply`'s
  `OutReceive` and `ChannelModel.Receive`. In Go, a `CloseChannel` from
  inLoop or from an outside caller can run between them, so `WriteMessage`
  is then called on a closed transport. The model does not capture that
  interleaving, and `Pumps.NoWriteAfterClose` relies on it being absent.
- Loop.Channel.PingerStep: the `IsAlive` check (loop.go:179) and the ping
  send (loop.go:183) are one atomic step, and so are `Pumps.Apply`'s
  `PingIteration` and `ChannelModel.PingStep`. In Go, a close can run
  between them, and the ping then lands behind the close sentinel (or the
  send blocks on a full queue). The model does not capture that
  interleaving, and "a dead channel's queue is untouched" relies on it
  being absent.
- The values of the close, ping and pong frames. They are the Engine.IO
  packet codes "1", "2" and "3", and only their being distinct matters here.
