/**
 * The state of one Socket.IO channel as a value, and one function per atomic
 * step of its close protocol and of its three loops (loop.go). The class
 * `Loop.Channel` performs these steps in place and is proved to agree with
 * them; the lemmas here and in `Pumps` state what the steps promise.
 */
module ChannelModel {
  import opened Protocol

  /** Capacity of the outbound queue (queueBufferSize). */
  const QueueBufferSize: nat := 500

  /** A queue holding strictly more than this many messages is overflooded. */
  const FloodThreshold: nat := QueueBufferSize / 2

  /** The engine.io handshake header received with the open frame. */
  datatype Header = Header(sid: string, upgrades: seq<string>, pingInterval: int, pingTimeout: int)

  /** The header of a channel whose open frame has not arrived yet. */
  const NoHeader: Header := Header("", [], 0, 0)

  /** What the channel hands to the event dispatcher, in order. */
  datatype Event = OnConnection | OnDisconnection | Dispatched(msg: Message)

  /**
   * One channel. `transportCloses` counts the calls of the transport's Close,
   * `written` lists the frames the transport accepted, `events` the calls
   * into the dispatcher. `sent` and `received` are the histories of the
   * outbound queue: everything ever put on it and everything ever taken off
   * it, in order.
   */
  datatype ChannelState = ChannelState(
    alive: bool,
    transportCloses: nat,
    out: seq<string>,
    header: Header,
    ackWaiters: set<int>,
    events: seq<Event>,
    written: seq<string>,
    sent: seq<string>,
    received: seq<string>)

  /** How many disconnect events have been fired. */
  function Disconnections(s: ChannelState): nat {
    multiset(s.events)[OnDisconnection]
  }

  /**
   * What every reachable channel satisfies: the queue stays within its
   * capacity and behaves as a FIFO, and the liveness flag agrees with the
   * transport and the dispatcher (closed once, disconnected once).
   */
  ghost predicate ChannelInv(s: ChannelState) {
    && |s.out| <= QueueBufferSize
    && s.received + s.out == s.sent
    && s.transportCloses == (if s.alive then 0 else 1)
    && Disconnections(s) == (if s.alive then 0 else 1)
  }

  /** The channel right after initChannel. */
  function Init(): (s: ChannelState) {
    ChannelState(true, 0, [], NoHeader, {}, [], [], [], [])
  }

  /** A send on the outbound queue; it would block on a full queue. */
  function Send(s: ChannelState, msg: string): (s': ChannelState)
    requires |s.out| < QueueBufferSize
  {
    s.(out := s.out + [msg], sent := s.sent + [msg])
  }

  /**
   * CloseChannel: nothing if already closed; otherwise close the transport,
   * clear the flag, drain the queue, enqueue the close sentinel and fire the
   * disconnect event.
   */
  function Close(s: ChannelState): (s': ChannelState) {
    if !s.alive then s
    else s.(alive := false,
            transportCloses := s.transportCloses + 1,
            out := [CloseMessage],
            received := s.received + s.out,
            sent := s.sent + [CloseMessage],
            events := s.events + [OnDisconnection])
  }

  /** The result of a loop iteration: the new state and whether the loop returns. */
  datatype Stepped = Stepped(ch: ChannelState, stop: bool)

  /** The result of the overflow rule, with the channel's new registry membership. */
  datatype Checked = Checked(ch: ChannelState, flagged: bool, stop: bool)

  /**
   * The first half of an outLoop iteration: a full queue is fatal; a queue
   * more than half full registers the channel as overflooded, any other
   * unregisters it. `flagged` is the channel's registry membership before.
   */
  function OverflowCheck(s: ChannelState, flagged: bool): (r: Checked) {
    var n := |s.out|;
    if n == QueueBufferSize then Checked(Close(s), flagged, true)
    else if n > FloodThreshold then Checked(s, true, false)
    else Checked(s, false, false)
  }

  /**
   * The second half of an outLoop iteration: take the head of the queue; the
   * close sentinel ends the loop, anything else is written, and a failed
   * write closes the channel and ends the loop. The receive blocks on an
   * empty queue.
   */
  function Receive(s: ChannelState, writeOk: bool): (r: Stepped)
    requires |s.out| > 0
  {
    var msg := s.out[0];
    var s1 := s.(out := s.out[1..], received := s.received + [msg]);
    if msg == CloseMessage then Stepped(s1, true)
    else if writeOk then Stepped(s1.(written := s1.written + [msg]), false)
    else Stepped(Close(s1), true)
  }

  /** An inLoop iteration would block sending the pong on a full queue. */
  predicate InStepBlocks(s: ChannelState, readOk: bool, decodeOk: bool, msg: Message) {
    && readOk
    && msg.kind == PingType
    && |(if decodeOk then s else Close(s)).out| >= QueueBufferSize
  }

  /**
   * One inLoop iteration, given what the transport read, whether the frame
   * decoded, the decoded message, whether the open frame's header parsed and
   * the header the parser left behind. A decode failure closes the channel
   * and the message is still dispatched on; a bad header closes the channel
   * and the connect event still fires.
   */
  function InStep(s: ChannelState, readOk: bool, decodeOk: bool, msg: Message,
                  headerOk: bool, parsed: Header): (r: Stepped)
    requires !InStepBlocks(s, readOk, decodeOk, msg)
  {
    if !readOk then Stepped(Close(s), true)
    else
      var s1 := if decodeOk then s else Close(s);
      var s2 :=
        match msg.kind
        case OpenType =>
          var h := s1.(header := parsed);
          var h1 := if headerOk then h else Close(h);
          h1.(events := h1.events + [OnConnection])
        case PingType => Send(s1, PongMessage)
        case PongType => s1
        case _ => s1.(events := s1.events + [Dispatched(msg)]);
      Stepped(s2, false)
  }

  /** One pinger iteration after its sleep: stop on a dead channel, else send a ping. */
  function PingStep(s: ChannelState): (r: Stepped)
    requires s.alive ==> |s.out| < QueueBufferSize
  {
    if !s.alive then Stepped(s, true) else Stepped(Send(s, PingMessage), false)
  }

  // ---------------------------------------------------------------------
  // Properties of single steps

  lemma InitIsValid()
    ensures ChannelInv(Init())
    ensures Init().alive && Init().out == [] && Init().ackWaiters == {}
  {
  }

  /** Closing twice is closing once: one transport close, one disconnect event. */
  lemma CloseIdempotent(s: ChannelState)
    ensures Close(Close(s)) == Close(s)
    ensures Close(s).transportCloses <= s.transportCloses + 1
    ensures Disconnections(Close(s)) <= Disconnections(s) + 1
  {
  }

  /** After a close the queue holds the sentinel and nothing else. */
  lemma CloseLeavesOnlySentinel(s: ChannelState)
    requires s.alive
    ensures Close(s).out == [CloseMessage]
    ensures Close(s).received == s.received + s.out
  {
  }

  /** Closing keeps the channel invariant. */
  lemma CloseKeepsInv(s: ChannelState)
    requires ChannelInv(s)
    ensures ChannelInv(Close(s))
  {
  }

  /** A send within capacity keeps the channel invariant. */
  lemma SendKeepsInv(s: ChannelState, msg: string)
    requires ChannelInv(s) && |s.out| < QueueBufferSize
    ensures ChannelInv(Send(s, msg))
  {
  }

  /** Both halves of an outLoop iteration keep the channel invariant. */
  lemma OutStepsKeepInv(s: ChannelState, flagged: bool, writeOk: bool)
    requires ChannelInv(s)
    ensures ChannelInv(OverflowCheck(s, flagged).ch)
    ensures |s.out| > 0 ==> ChannelInv(Receive(s, writeOk).ch)
  {
    CloseKeepsInv(s);
    if |s.out| > 0 {
      assert s.out == [s.out[0]] + s.out[1..];
      var s1 := s.(out := s.out[1..], received := s.received + [s.out[0]]);
      assert ChannelInv(s1);
      CloseKeepsInv(s1);
    }
  }

  /** An inLoop iteration keeps the channel invariant. */
  lemma InStepKeepsInv(s: ChannelState, readOk: bool, decodeOk: bool, m: Message,
                       headerOk: bool, parsed: Header)
    requires ChannelInv(s) && !InStepBlocks(s, readOk, decodeOk, m)
    ensures ChannelInv(InStep(s, readOk, decodeOk, m, headerOk, parsed).ch)
  {
    CloseKeepsInv(s);
    if readOk {
      var s1 := if decodeOk then s else Close(s);
      assert ChannelInv(s1);
      match m.kind
      case OpenType =>
        var h := s1.(header := parsed);
        CloseKeepsInv(h);
        var h1 := if headerOk then h else Close(h);
        assert ChannelInv(h1);
        assert Disconnections(h1.(events := h1.events + [OnConnection])) == Disconnections(h1);
      case PingType =>
        SendKeepsInv(s1, PongMessage);
      case PongType =>
      case CloseType =>
        assert Disconnections(s1.(events := s1.events + [Dispatched(m)])) == Disconnections(s1);
      case CustomType =>
        assert Disconnections(s1.(events := s1.events + [Dispatched(m)])) == Disconnections(s1);
    }
  }

  /** A pinger iteration keeps the channel invariant. */
  lemma PingStepKeepsInv(s: ChannelState)
    requires ChannelInv(s) && (s.alive ==> |s.out| < QueueBufferSize)
    ensures ChannelInv(PingStep(s).ch)
  {
    if s.alive {
      SendKeepsInv(s, PingMessage);
    }
  }

  /**
   * The overflow rule: a full queue closes the channel and leaves the
   * registry alone; otherwise the channel is registered exactly when the
   * queue is more than half full, and the state is untouched.
   */
  lemma OverflowRule(s: ChannelState, flagged: bool)
    ensures var r := OverflowCheck(s, flagged);
      && (r.stop <==> |s.out| == QueueBufferSize)
      && (r.stop ==> r.ch == Close(s) && r.flagged == flagged)
      && (!r.stop ==> r.ch == s && (r.flagged <==> |s.out| > 250))
  {
  }

  /** A receive removes the head; only a non-sentinel with a good write reaches the transport. */
  lemma ReceiveRule(s: ChannelState, writeOk: bool)
    requires |s.out| > 0
    ensures var r := Receive(s, writeOk);
      && (s.out[0] == CloseMessage ==> r.stop && r.ch.out == s.out[1..] && r.ch.written == s.written)
      && (s.out[0] != CloseMessage && writeOk ==>
            !r.stop && r.ch.out == s.out[1..] && r.ch.written == s.written + [s.out[0]])
      && (s.out[0] != CloseMessage && !writeOk ==>
            r.stop && !r.ch.alive && r.ch.written == s.written)
  {
  }

  /** A decoded ping puts exactly one pong on the queue; a pong changes nothing. */
  lemma PingAndPong(s: ChannelState, m: Message, headerOk: bool, parsed: Header)
    ensures m.kind == PingType && |s.out| < QueueBufferSize ==>
              var r := InStep(s, true, true, m, headerOk, parsed);
              !r.stop && r.ch.out == s.out + [PongMessage] && r.ch.events == s.events
    ensures m.kind == PongType ==> InStep(s, true, true, m, headerOk, parsed) == Stepped(s, false)
  {
  }

  /**
   * An open frame stores the parsed header (which Id reads) whatever the
   * parse outcome; a bad header closes the channel and the connect event
   * still fires, after the disconnect event when the channel was live and
   * on its own when an earlier failure had already closed it.
   */
  lemma OpenHandshake(s: ChannelState, m: Message, headerOk: bool, parsed: Header)
    requires m.kind == OpenType
    ensures var r := InStep(s, true, true, m, headerOk, parsed);
      && !r.stop && r.ch.header == parsed
      && (headerOk ==> r.ch.alive == s.alive && r.ch.events == s.events + [OnConnection])
      && (!headerOk && s.alive ==>
            !r.ch.alive && r.ch.events == s.events + [OnDisconnection, OnConnection])
      && (!headerOk && !s.alive ==> !r.ch.alive && r.ch.events == s.events + [OnConnection])
  {
  }
}
