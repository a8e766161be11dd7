/**
 * The socket.io connection handler of loop.go as objects updated in place:
 * a `Channel` whose close protocol and loop iterations are atomic methods,
 * and the process-wide `Registry` of overflooded channels. Every method is
 * proved to perform the corresponding step of `ChannelModel` on `State()`,
 * so the trace lemmas of `Pumps` hold of the call sequences that `Pumps.Apply`
 * admits: no loop's method is called again after it returned `stop`, and
 * `OutLoopCheck` and `OutLoopReceive` alternate. The class itself does not
 * track which loops have returned, so other call sequences (a receive after
 * the sentinel was taken, say) are outside what those lemmas cover.
 *
 * The transport and the event dispatcher are not objects here: the channel
 * records what they are asked to do (`transportCloses`, `written`,
 * `events`), and their answers (read, decode, header parse and write
 * results) are parameters of the iterations.
 */
module Loop {
  import opened Protocol
  import opened ChannelModel

  class Channel {
    var alive: bool
    /** Calls of the transport's Close. */
    var transportCloses: nat
    /** The buffered outbound queue, head first. */
    var out: seq<string>
    var header: Header
    /** Ids of the calls waiting for an acknowledgement. */
    var ackWaiters: set<int>
    /** Calls into the event dispatcher, in order. */
    var events: seq<Event>
    /** Frames the transport accepted, in order. */
    var written: seq<string>
    /** Everything ever put on `out`, and everything ever taken off it. */
    ghost var sent: seq<string>
    ghost var received: seq<string>

    ghost function State(): ChannelState
      reads this
    {
      ChannelState(alive, transportCloses, out, header, ackWaiters, events, written, sent, received)
    }

    ghost predicate Valid()
      reads this
    {
      ChannelInv(State())
    }

    /** initChannel: an empty queue, an empty ack table, alive. */
    constructor InitChannel()
      ensures Valid() && State() == Init()
      ensures alive && out == [] && ackWaiters == {} && transportCloses == 0 && events == []
    {
      alive := true;
      transportCloses := 0;
      out := [];
      header := NoHeader;
      ackWaiters := {};
      events := [];
      written := [];
      sent := [];
      received := [];
    }

    /**
     * The session id the peer assigned in its handshake header: `InLoopStep`
     * stores the parsed header of every open frame, so this is the sid of the
     * last one (empty before any).
     */
    function Id(): string
      reads this
    {
      header.sid
    }

    /**
     * Whether the channel still works. A live channel has neither closed its
     * transport nor fired a disconnect event; a dead one has done each once.
     */
    function IsAlive(): (r: bool)
      reads this
      requires Valid()
      ensures r <==> transportCloses == 0
      ensures r <==> Disconnections(State()) == 0
      ensures !r ==> transportCloses == 1 && Disconnections(State()) == 1
    {
      alive
    }

    /** A send on the buffered queue; Go's send would block on a full queue. */
    method Enqueue(msg: string)
      requires Valid() && |out| < QueueBufferSize
      modifies this
      ensures Valid() && State() == Send(old(State()), msg)
      ensures out == old(out) + [msg]
    {
      out := out + [msg];
      sent := sent + [msg];
    }

    /**
     * CloseChannel. On a closed channel it does nothing. Otherwise it closes
     * the transport, clears `alive`, drains the queue, leaves the close
     * sentinel as the only queued message and fires the disconnect event.
     */
    method CloseChannel()
      requires Valid()
      modifies this
      ensures Valid() && State() == Close(old(State()))
      ensures !alive
      ensures !old(alive) ==> State() == old(State())
      ensures old(alive) ==>
                && transportCloses == old(transportCloses) + 1
                && out == [CloseMessage]
                && events == old(events) + [OnDisconnection]
                && written == old(written)
    {
      if !alive {
        return;
      }
      transportCloses := transportCloses + 1;
      alive := false;
      while |out| > 0
        invariant received + out == old(received) + old(out)
        invariant !alive && transportCloses == old(transportCloses) + 1
        invariant header == old(header) && ackWaiters == old(ackWaiters)
        invariant events == old(events) && written == old(written) && sent == old(sent)
      {
        received := received + [out[0]];
        out := out[1..];
      }
      out := out + [CloseMessage];
      sent := sent + [CloseMessage];
      events := events + [OnDisconnection];
    }

    /**
     * The overflow rule of an outLoop iteration. A full queue closes the
     * channel and the loop returns, leaving the registry as it was; otherwise
     * the channel is registered exactly when more than half the queue is in
     * use. No other channel's registration changes.
     */
    method OutLoopCheck(reg: Registry) returns (stop: bool)
      requires Valid()
      modifies this, reg
      ensures Valid()
      ensures var r := OverflowCheck(old(State()), old(this in reg.members));
                State() == r.ch && stop == r.stop && (this in reg.members <==> r.flagged)
      ensures stop <==> old(|out|) == QueueBufferSize
      ensures stop ==> !alive && reg.members == old(reg.members)
      ensures stop && old(alive) ==> out == [CloseMessage]
      ensures !stop ==> State() == old(State()) && (this in reg.members <==> old(|out|) > FloodThreshold)
      ensures reg.members - {this} == old(reg.members) - {this}
    {
      var n := |out|;
      if n == QueueBufferSize {
        CloseChannel();
        return true;
      } else if n > FloodThreshold {
        reg.members := reg.members + {this};
      } else {
        reg.members := reg.members - {this};
      }
      return false;
    }

    /**
     * The receive of an outLoop iteration: the head leaves the queue. The
     * close sentinel ends the loop with nothing written; anything else is
     * written, and a failed write closes the channel and ends the loop.
     */
    method OutLoopReceive(writeOk: bool) returns (stop: bool)
      requires Valid() && |out| > 0
      modifies this
      ensures Valid()
      ensures var r := Receive(old(State()), writeOk); State() == r.ch && stop == r.stop
      ensures old(out[0]) == CloseMessage ==> stop && out == old(out[1..]) && written == old(written)
      ensures old(out[0]) != CloseMessage && writeOk ==>
                !stop && out == old(out[1..]) && written == old(written) + [old(out[0])]
      ensures old(out[0]) != CloseMessage && !writeOk ==> stop && !alive && written == old(written)
    {
      var msg := out[0];
      out := out[1..];
      received := received + [msg];
      if msg == CloseMessage {
        return true;
      }
      if writeOk {
        written := written + [msg];
        return false;
      }
      CloseChannel();
      return true;
    }

    /**
     * An inLoop iteration, given the transport's read result, the decoder's
     * result and message, and the header parser's result and output. A read
     * error closes the channel and ends the loop; every other iteration goes
     * on, even after a decode failure or a bad header has closed the channel.
     */
    method InLoopStep(readOk: bool, decodeOk: bool, msg: Message, headerOk: bool, parsed: Header)
      returns (stop: bool)
      requires Valid() && !InStepBlocks(State(), readOk, decodeOk, msg)
      modifies this
      ensures Valid()
      ensures var r := InStep(old(State()), readOk, decodeOk, msg, headerOk, parsed);
                State() == r.ch && stop == r.stop
      ensures stop <==> !readOk
      ensures !readOk || !decodeOk ==> !alive
      ensures readOk && msg.kind == OpenType ==> header == parsed && Id() == parsed.sid
    {
      if !readOk {
        CloseChannel();
        return true;
      }
      if !decodeOk {
        CloseChannel();
      }
      match msg.kind {
        case OpenType =>
          header := parsed;
          if !headerOk {
            CloseChannel();
          }
          events := events + [OnConnection];
        case PingType =>
          Enqueue(PongMessage);
        case PongType =>
        case _ =>
          events := events + [Dispatched(msg)];
      }
      return false;
    }

    /**
     * A pinger iteration after its sleep: a dead channel ends the loop with
     * the queue untouched; a live one gets a ping.
     */
    method PingerStep() returns (stop: bool)
      requires Valid() && (alive ==> |out| < QueueBufferSize)
      modifies this
      ensures Valid()
      ensures var r := PingStep(old(State())); State() == r.ch && stop == r.stop
      ensures stop <==> !old(alive)
      ensures stop ==> State() == old(State())
      ensures !stop ==> out == old(out) + [PingMessage]
    {
      if !IsAlive() {
        return true;
      }
      Enqueue(PingMessage);
      return false;
    }
  }

  /** The process-wide set of overflooded channels. */
  class Registry {
    var members: set<Channel>

    constructor ()
      ensures members == {}
    {
      members := {};
    }

    /** AmountOfOverflooded: how many channels are registered. */
    method AmountOfOverflooded() returns (n: int)
      ensures n == |members|
    {
      n := |members|;
    }
  }
}
