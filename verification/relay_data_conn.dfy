/** One relay-data endpoint as its goroutines update it: flags, outbound queue and the writer that
    alone touches the socket. Each method is one or more of the endpoint's machine steps. */
module RelayDataConns {
  import opened RelayDataPumps
  import opened RelayDataDelivery

  /** The close frames of a sequence, in order: all a terminal endpoint may still write. */
  function Closes(s: seq<Frame>): seq<Frame> {
    if s == [] then [] else Closes(s[..|s| - 1]) + if s[|s| - 1].CloseFrame? then [s[|s| - 1]] else []
  }

  lemma ClosesOfPrefix(s: seq<Frame>, k: nat)
    requires k < |s|
    ensures Closes(s[..k + 1]) == Closes(s[..k]) + if s[k].CloseFrame? then [s[k]] else []
  {
    assert s[..k + 1][..k] == s[..k];
  }

  /** What writing one frame that the writer holds amounts to. */
  function Written(p: Pump, ok: bool): Pump
    requires p.writer.Holding?
  {
    var begun := PumpStep(p, BeginWrite);
    if ok then PumpStep(PumpStep(begun, EndWrite(true)), NoteSent) else PumpStep(begun, EndWrite(false))
  }

  /** The endpoint as another goroutine may have left it: turned terminal, its flags cleared. */
  function Marked(p: Pump, marked: bool): Pump {
    if marked && !p.terminal then PumpStep(PumpStep(p, MarkTerminal), ClearFlags) else p
  }

  class RelayDataConn {
    var terminal: bool
    var done: bool
    var ready: bool
    var sent: bool
    var queue: seq<Frame>
    var writer: Writer
    var wire: seq<Frame>
    ghost var accepted: seq<Frame>
    const capacity: nat

    ghost function State(): Pump
      reads this
    {
      Pump(terminal, done, ready, sent, queue, writer, wire, accepted)
    }

    constructor (capacity: nat)
      ensures State() == FRESH_PUMP && this.capacity == capacity
    {
      terminal, done, ready, sent, queue, writer, wire, accepted := false, false, false, false, [], Idle, [], [];
      this.capacity := capacity;
    }

    /** Non-blocking handoff; `budget` says whether the backlog budget still has room. */
    method Enqueue(f: Frame, budget: bool) returns (ok: bool)
      modifies this`queue, this`accepted
      ensures ok == (Enqueueable(old(State()), f) && budget && |old(queue)| < capacity)
      ensures State() == if ok then RelayDataPumps.Enqueue(old(State()), f) else old(State())
    {
      if done || (terminal && !f.CloseFrame?) || !budget || |queue| >= capacity {
        return false;
      }
      queue := queue + [f];
      accepted := accepted + [f];
      ok := true;
    }

    method MarkTerminal()
      modifies this`terminal, this`ready, this`sent
      ensures State() == PumpStep(PumpStep(old(State()), RelayDataPumps.MarkTerminal), ClearFlags)
    {
      terminal := true;
      ready := false;
      sent := false;
    }

    method Close()
      modifies this`terminal, this`ready, this`sent, this`done
      ensures State() == PumpStep(PumpStep(PumpStep(old(State()), RelayDataPumps.MarkTerminal), ClearFlags), CloseDone)
    {
      MarkTerminal();
      done := true;
    }

    /** Writes or discards the frame the writer holds; false stops the writer. The endpoint may
        turn terminal while the writer waits for a decision or for the write gate (`marked`): the
        flag is read again behind the gate, so such a frame is still discarded. */
    method WriteOutbound(decisions: Decisions, marked: bool, ok: bool) returns (go: bool)
      requires writer.Holding?
      requires writer.frame.PairReady? ==>
        Decided(decisions, writer.frame, Committed) || Decided(decisions, writer.frame, Aborted)
      modifies this`terminal, this`ready, this`writer, this`wire, this`sent
      ensures var p := Marked(old(State()), marked);
        && State() == (if CanPump(p, decisions, BeginWrite) then Written(p, ok) else PumpStep(p, Discard))
        && (!CanPump(p, decisions, BeginWrite) ==> CanPump(p, decisions, Discard))
      ensures go == (writer != Stopped)
    {
      var f := writer.frame;
      if terminal && !f.CloseFrame? {
        writer := Idle;
        return true;
      }
      if marked && !terminal {
        MarkTerminal();
      }
      if f.PairReady? && decisions[f.decision].verdict != Committed {
        writer := Idle;
        return true;
      }
      if terminal && !f.CloseFrame? {
        writer := Idle;
        return true;
      }
      if !ok {
        writer := Stopped;
        return false;
      }
      wire := wire + [f];
      if f.PairReady? {
        sent := true;
      }
      writer := Idle;
      go := true;
    }

    /** After done: flush what is queued. Only close frames reach the socket, in queue order. The
        drain stops before the queue is empty only by losing one frame to a failed write or to the
        deadline; `oks` says which writes succeed before the deadline. */
    method DrainOutbound(decisions: Decisions, oks: seq<bool>) returns (taken: nat, flushed: nat)
      requires writer.Idle? && terminal
      requires forall f | f in queue && f.PairReady? :: Decided(decisions, f, Committed) || Decided(decisions, f, Aborted)
      modifies this`terminal, this`ready, this`writer, this`wire, this`sent, this`queue
      ensures terminal
      ensures flushed <= taken <= |old(queue)| && taken <= flushed + 1
      ensures queue == old(queue)[taken..] && wire == old(wire) + Closes(old(queue)[..flushed])
      ensures queue != [] ==> taken == flushed + 1
    {
      taken, flushed := 0, 0;
      var left := oks;
      while queue != []
        invariant flushed == taken <= |old(queue)| && queue == old(queue)[taken..]
        invariant writer.Idle? && terminal && wire == old(wire) + Closes(old(queue)[..taken])
        invariant forall f | f in queue && f.PairReady? :: Decided(decisions, f, Committed) || Decided(decisions, f, Aborted)
        decreases |queue|
      {
        ClosesOfPrefix(old(queue), taken);
        assert queue[0] == old(queue)[taken] && queue[0] in queue;
        writer := Holding(queue[0]);
        queue := queue[1..];
        taken := taken + 1;
        if left == [] {
          return;
        }
        var go := WriteOutbound(decisions, false, left[0]);
        left := left[1..];
        if !go {
          return;
        }
        flushed := taken;
      }
    }
  }
}
