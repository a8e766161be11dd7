/**
 * The three loops of a channel (inLoop, outLoop, pinger) interleaved with
 * producers and explicit closes, as traces of atomic steps. Each step is one
 * of the functions of `ChannelModel`. A step of a loop that has returned, or
 * a send that would block on a full queue, makes no progress.
 */
module Pumps {
  import opened Protocol
  import opened ChannelModel

  /** Where outLoop is: before the overflow rule, before the receive, or returned. */
  datatype OutPhase = AtCheck | AtReceive | OutReturned

  /**
   * A channel, its membership in the overflooded registry, and which of its
   * loops are still running.
   */
  datatype System = System(ch: ChannelState, flagged: bool,
                           inLoop: bool, outLoop: OutPhase, pinger: bool)

  /** One atomic step of the system. */
  datatype Op =
    | Produce(frame: string)      // a send on the queue by code outside the loops
    | ExternalClose               // CloseChannel called from outside the loops
    | InIteration(readOk: bool, decodeOk: bool, decoded: Message, headerOk: bool, parsed: Header)
    | OutCheck
    | OutReceive(writeOk: bool)
    | PingIteration

  /** A freshly initialised channel with its three loops started and no registry entry. */
  function Start(): (w: System) {
    System(Init(), false, true, AtCheck, true)
  }

  function Apply(w: System, op: Op): (w': System) {
    match op
    case Produce(msg) =>
      if |w.ch.out| < QueueBufferSize then w.(ch := Send(w.ch, msg)) else w
    case ExternalClose =>
      w.(ch := Close(w.ch))
    case InIteration(readOk, decodeOk, msg, headerOk, parsed) =>
      if w.inLoop && !InStepBlocks(w.ch, readOk, decodeOk, msg) then
        var r := InStep(w.ch, readOk, decodeOk, msg, headerOk, parsed);
        w.(ch := r.ch, inLoop := !r.stop)
      else w
    case OutCheck =>
      if w.outLoop == AtCheck then
        var r := OverflowCheck(w.ch, w.flagged);
        w.(ch := r.ch, flagged := r.flagged, outLoop := if r.stop then OutReturned else AtReceive)
      else w
    case OutReceive(writeOk) =>
      if w.outLoop == AtReceive && |w.ch.out| > 0 then
        var r := Receive(w.ch, writeOk);
        w.(ch := r.ch, outLoop := if r.stop then OutReturned else AtCheck)
      else w
    case PingIteration =>
      if w.pinger && (w.ch.alive ==> |w.ch.out| < QueueBufferSize) then
        var r := PingStep(w.ch);
        w.(ch := r.ch, pinger := !r.stop)
      else w
  }

  /** The system after a trace of steps, first step first. */
  function Run(w: System, ops: seq<Op>): (w': System)
    decreases |ops|
  {
    if ops == [] then w else Run(Apply(w, ops[0]), ops[1..])
  }

  /**
   * The invariant of a running system. Besides the channel invariant: the
   * transport has been given a prefix of what was taken off the queue; while
   * the channel is alive and outLoop runs, all of it; and once the channel is
   * closed, a running outLoop still has the close sentinel at the head of the
   * queue.
   */
  ghost predicate Inv(w: System) {
    && ChannelInv(w.ch)
    && w.ch.written <= w.ch.received
    && (w.outLoop != OutReturned && w.ch.alive ==> w.ch.written == w.ch.received)
    && (w.outLoop != OutReturned && !w.ch.alive ==> |w.ch.out| > 0 && w.ch.out[0] == CloseMessage)
  }

  lemma StartIsValid()
    ensures Inv(Start())
  {
  }

  lemma PrefixGrows<T>(a: seq<T>, b: seq<T>, c: seq<T>)
    requires a <= b
    ensures a <= b + c
  {
    assert (b + c)[..|a|] == b[..|a|];
  }

  lemma CloseKeepsInvariant(w: System)
    requires Inv(w)
    ensures Inv(w.(ch := Close(w.ch)))
  {
    CloseKeepsInv(w.ch);
    if w.ch.alive {
      PrefixGrows(w.ch.written, w.ch.received, w.ch.out);
    }
  }

  lemma ReceiveKeepsInvariant(w: System, writeOk: bool)
    requires Inv(w) && w.outLoop == AtReceive && |w.ch.out| > 0
    ensures Inv(Apply(w, OutReceive(writeOk)))
  {
    OutStepsKeepInv(w.ch, false, writeOk);
    var s := w.ch;
    var msg := s.out[0];
    var s1 := s.(out := s.out[1..], received := s.received + [msg]);
    PrefixGrows(s.written, s.received, [msg]);
    if msg != CloseMessage && !writeOk {
      assert s.out == [s.out[0]] + s.out[1..];
      assert ChannelInv(s1);
      CloseKeepsInvariant(w.(ch := s1, outLoop := OutReturned));
    }
  }

  lemma InIterationKeepsInvariant(w: System, readOk: bool, decodeOk: bool, m: Message,
                                  headerOk: bool, parsed: Header)
    requires Inv(w) && w.inLoop && !InStepBlocks(w.ch, readOk, decodeOk, m)
    ensures Inv(Apply(w, InIteration(readOk, decodeOk, m, headerOk, parsed)))
  {
    InStepKeepsInv(w.ch, readOk, decodeOk, m, headerOk, parsed);
    var r := InStep(w.ch, readOk, decodeOk, m, headerOk, parsed);
    assert Apply(w, InIteration(readOk, decodeOk, m, headerOk, parsed)) == w.(ch := r.ch, inLoop := !r.stop);
    if !readOk {
      CloseKeepsInvariant(w);
    } else {
      var s1 := if decodeOk then w.ch else Close(w.ch);
      CloseKeepsInvariant(w);
      var w1 := w.(ch := s1);
      assert Inv(w1);
      if m.kind == OpenType {
        var w2 := w1.(ch := s1.(header := parsed));
        assert Inv(w2);
        CloseKeepsInvariant(w2);
        var h1 := if headerOk then w2.ch else Close(w2.ch);
        assert Inv(w2.(ch := h1));
        assert r.ch == h1.(events := h1.events + [OnConnection]);
      } else if m.kind == PingType {
        assert r.ch == Send(s1, PongMessage);
        PrefixGrows(s1.written, s1.received, []);
      } else if m.kind == PongType {
        assert r.ch == s1;
      } else {
        assert r.ch == s1.(events := s1.events + [Dispatched(m)]);
      }
    }
  }

  /** Every step keeps the invariant. */
  lemma ApplyKeepsInv(w: System, op: Op)
    requires Inv(w)
    ensures Inv(Apply(w, op))
  {
    match op
    case Produce(msg) =>
      if |w.ch.out| < QueueBufferSize {
        SendKeepsInv(w.ch, msg);
      }
    case ExternalClose =>
      CloseKeepsInvariant(w);
    case InIteration(readOk, decodeOk, m, headerOk, parsed) =>
      if w.inLoop && !InStepBlocks(w.ch, readOk, decodeOk, m) {
        InIterationKeepsInvariant(w, readOk, decodeOk, m, headerOk, parsed);
      }
    case OutCheck =>
      if w.outLoop == AtCheck && |w.ch.out| == QueueBufferSize {
        CloseKeepsInvariant(w);
      }
    case OutReceive(writeOk) =>
      if w.outLoop == AtReceive && |w.ch.out| > 0 {
        ReceiveKeepsInvariant(w, writeOk);
      }
    case PingIteration =>
      if w.pinger && (w.ch.alive ==> |w.ch.out| < QueueBufferSize) {
        PingStepKeepsInv(w.ch);
      }
  }

  /** Every trace keeps the invariant. */
  lemma {:induction false} RunKeepsInv(w: System, ops: seq<Op>)
    requires Inv(w)
    ensures Inv(Run(w, ops))
    decreases |ops|
  {
    if ops != [] {
      ApplyKeepsInv(w, ops[0]);
      RunKeepsInv(Apply(w, ops[0]), ops[1..]);
    }
  }

  /** Running two traces one after the other is running their concatenation. */
  lemma {:induction false} RunAppend(w: System, a: seq<Op>, b: seq<Op>)
    ensures Run(w, a + b) == Run(Run(w, a), b)
    decreases |a|
  {
    if a == [] {
      assert a + b == b;
    } else {
      assert (a + b)[0] == a[0];
      assert (a + b)[1..] == a[1..] + b;
      RunAppend(Apply(w, a[0]), a[1..], b);
    }
  }

  /**
   * FIFO delivery: whatever happens, the frames the transport accepted are a
   * prefix of the frames put on the queue, in the order they were put there.
   */
  lemma WrittenIsPrefixOfSent(ops: seq<Op>)
    ensures var w := Run(Start(), ops); w.ch.written <= w.ch.sent
  {
    StartIsValid();
    RunKeepsInv(Start(), ops);
    var w := Run(Start(), ops);
    PrefixGrows(w.ch.written, w.ch.received, w.ch.out);
  }

  /**
   * The close protocol runs at most once: however the loops and outside
   * callers interleave, the transport is closed at most once and the
   * disconnect event fires at most once, and exactly once when the channel
   * is no longer alive.
   */
  lemma CloseRunsOnce(ops: seq<Op>)
    ensures var w := Run(Start(), ops);
      && w.ch.transportCloses <= 1 && Disconnections(w.ch) <= 1
      && (!w.ch.alive <==> w.ch.transportCloses == 1)
      && (!w.ch.alive <==> Disconnections(w.ch) == 1)
  {
    StartIsValid();
    RunKeepsInv(Start(), ops);
  }

  /** The queue never holds more than its capacity. */
  lemma QueueStaysBounded(ops: seq<Op>)
    ensures |Run(Start(), ops).ch.out| <= QueueBufferSize
  {
    StartIsValid();
    RunKeepsInv(Start(), ops);
  }

  /** The liveness flag never returns to true. */
  lemma {:induction false} AliveNeverRevives(w: System, ops: seq<Op>)
    requires !w.ch.alive
    ensures !Run(w, ops).ch.alive
    decreases |ops|
  {
    if ops != [] {
      AliveNeverRevives(Apply(w, ops[0]), ops[1..]);
    }
  }

  /** Once the channel is closed, nothing more reaches the transport. */
  lemma {:induction false} NoWriteAfterClose(w: System, ops: seq<Op>)
    requires Inv(w) && !w.ch.alive
    ensures Run(w, ops).ch.written == w.ch.written
    decreases |ops|
  {
    if ops != [] {
      var w1 := Apply(w, ops[0]);
      ApplyKeepsInv(w, ops[0]);
      assert !w1.ch.alive;
      assert w1.ch.written == w.ch.written;
      NoWriteAfterClose(w1, ops[1..]);
    }
  }

  /**
   * Once outLoop has returned, nothing touches the channel's registry entry:
   * a channel closed by the overflow rule while registered stays registered.
   */
  lemma {:induction false} FlagFrozenAfterOutLoopReturns(w: System, ops: seq<Op>)
    requires w.outLoop == OutReturned
    ensures Run(w, ops).flagged == w.flagged
    ensures Run(w, ops).outLoop == OutReturned
    decreases |ops|
  {
    if ops != [] {
      FlagFrozenAfterOutLoopReturns(Apply(w, ops[0]), ops[1..]);
    }
  }

  /**
   * A registered channel whose queue fills up is closed by the overflow rule
   * and stays registered for good: outLoop returns without unregistering it.
   */
  lemma OverflowClosedStaysRegistered(w: System, ops: seq<Op>)
    requires w.outLoop == AtCheck && w.flagged && |w.ch.out| == QueueBufferSize
    ensures var w1 := Run(w, [OutCheck] + ops);
      w1.flagged && !w1.ch.alive && w1.outLoop == OutReturned
  {
    OutCheckStep(w);
    var w0 := Apply(w, OutCheck);
    assert !w0.ch.alive && w0.flagged && w0.outLoop == OutReturned;
    assert Run(w, [OutCheck] + ops) == Run(w0, ops) by {
      RunAppend(w, [OutCheck], ops);
      RunOne(w, OutCheck);
    }
    FlagFrozenAfterOutLoopReturns(w0, ops);
    AliveNeverRevives(w0, ops);
  }

  lemma RunOne(w: System, op: Op)
    ensures Run(w, [op]) == Apply(w, op)
  {
    assert [op][1..] == [];
  }

  /** The sends of a list of messages, in order. */
  function Produces(msgs: seq<string>): (ops: seq<Op>)
    ensures |ops| == |msgs|
    ensures forall i :: 0 <= i < |msgs| ==> ops[i] == Produce(msgs[i])
  {
    if msgs == [] then [] else [Produce(msgs[0])] + Produces(msgs[1..])
  }

  /** The system after the sends of `msgs`, when they all fit in the queue. */
  function Appended(w: System, msgs: seq<string>): (w': System) {
    w.(ch := w.ch.(out := w.ch.out + msgs, sent := w.ch.sent + msgs))
  }

  lemma ProduceOne(w: System, msg: string)
    requires |w.ch.out| < QueueBufferSize
    ensures Apply(w, Produce(msg)) == Appended(w, [msg])
  {
  }

  lemma AppendedTwice(w: System, msg: string, msgs: seq<string>)
    ensures Appended(Appended(w, [msg]), msgs) == Appended(w, [msg] + msgs)
  {
    assert w.ch.out + [msg] + msgs == w.ch.out + ([msg] + msgs);
    assert w.ch.sent + [msg] + msgs == w.ch.sent + ([msg] + msgs);
  }

  /** Sends that fit in the queue are appended to it in order. */
  lemma {:induction false} ProducesAppend(w: System, msgs: seq<string>)
    requires |w.ch.out| + |msgs| <= QueueBufferSize
    ensures Run(w, Produces(msgs)) == Appended(w, msgs)
    decreases |msgs|
  {
    if msgs == [] {
      assert Appended(w, msgs) == w;
    } else {
      var ops := Produces(msgs);
      var w1 := Appended(w, [msgs[0]]);
      ProduceOne(w, msgs[0]);
      assert ops[1..] == Produces(msgs[1..]);
      assert Run(w, ops) == Run(w1, Produces(msgs[1..]));
      ProducesAppend(w1, msgs[1..]);
      AppendedTwice(w, msgs[0], msgs[1..]);
      assert [msgs[0]] + msgs[1..] == msgs;
    }
  }

  /**
   * The backpressure scenario: fill a fresh channel's queue with n messages
   * and let outLoop apply its overflow rule. Up to 250 the channel is not
   * registered, from 251 to 499 it is, and at 500 it is closed: the messages
   * are discarded, the sentinel is all that is left, nothing was written and
   * outLoop has returned.
   */
  lemma OverflowScenario(msgs: seq<string>)
    requires |msgs| <= QueueBufferSize
    ensures var w := Run(Start(), Produces(msgs) + [OutCheck]);
      && (|msgs| <= 250 ==> w.ch.alive && !w.flagged && w.ch.out == msgs)
      && (250 < |msgs| < QueueBufferSize ==> w.ch.alive && w.flagged && w.ch.out == msgs)
      && (|msgs| == QueueBufferSize ==>
            && !w.ch.alive && w.ch.out == [CloseMessage] && w.ch.received == msgs
            && w.ch.written == [] && w.ch.transportCloses == 1 && w.outLoop == OutReturned)
  {
    var w0 := Appended(Start(), msgs);
    assert Run(Start(), Produces(msgs) + [OutCheck]) == Apply(w0, OutCheck) by {
      RunAppend(Start(), Produces(msgs), [OutCheck]);
      ProducesAppend(Start(), msgs);
      RunOne(w0, OutCheck);
    }
    OutCheckStep(w0);
    assert w0.ch.out == msgs && w0.ch.received == [] && w0.ch.alive && !w0.flagged;
  }

  lemma OutCheckStep(w: System)
    requires w.outLoop == AtCheck
    ensures var r := OverflowCheck(w.ch, w.flagged);
      Apply(w, OutCheck) == w.(ch := r.ch, flagged := r.flagged,
                              outLoop := if r.stop then OutReturned else AtReceive)
  {
  }
}
