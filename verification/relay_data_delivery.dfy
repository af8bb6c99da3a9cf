/** What a relay-data socket can see: PairReady only after a committed pairing, business frames
    only after it, in order, and only from the single counterpart. */
module RelayDataDelivery {
  import opened Options
  import opened RelayDataTable
  import opened RelayDataInvariants
  import opened RelayDataPumps

  // ---------- frame sequences ----------

  function Biz(s: seq<Frame>): seq<Frame> {
    if s == [] then [] else (if s[0].Business? then [s[0]] else []) + Biz(s[1..])
  }

  lemma {:induction false} BizConcat(a: seq<Frame>, b: seq<Frame>)
    ensures Biz(a + b) == Biz(a) + Biz(b)
  {
    if a == [] {
      assert a + b == b;
    } else {
      assert (a + b)[1..] == a[1..] + b;
      BizConcat(a[1..], b);
    }
  }

  predicate HasReady(s: seq<Frame>) { exists f :: f in s && f.PairReady? }

  /** No business frame before a PairReady. */
  predicate ReadyFirst(s: seq<Frame>) {
    forall k | 0 <= k < |s| && s[k].Business? :: HasReady(s[..k])
  }

  lemma ReadyFirstPrefix(a: seq<Frame>, b: seq<Frame>)
    requires ReadyFirst(a + b)
    ensures ReadyFirst(a)
  {
    forall k | 0 <= k < |a| && a[k].Business?
      ensures HasReady(a[..k])
    {
      assert (a + b)[k] == a[k] && (a + b)[..k] == a[..k];
    }
  }

  lemma ReadyFirstAppend(a: seq<Frame>, f: Frame)
    requires ReadyFirst(a) && (f.Business? ==> HasReady(a))
    ensures ReadyFirst(a + [f])
  {
    forall k | 0 <= k < |a + [f]| && (a + [f])[k].Business?
      ensures HasReady((a + [f])[..k])
    {
      assert (a + [f])[..k] == a[..k];
      assert k == |a| ==> a[..k] == a;
    }
  }

  // ---------- one pump ----------

  function Current(w: Writer): seq<Frame> { if w.Holding? || w.Writing? then [w.frame] else [] }
  function InFlight(w: Writer): seq<Frame> { if w.Writing? then [w.frame] else [] }
  /** Frames written and the frame whose write has begun. */
  function Out(p: Pump): seq<Frame> { p.wire + InFlight(p.writer) }

  /** A living writer has lost nothing: its socket, hand and queue are what the queue accepted. */
  predicate Lossless(p: Pump) {
    !p.terminal && !p.writer.Stopped? ==> p.accepted == p.wire + Current(p.writer) + p.queue
  }

  predicate InOrder(p: Pump) { Biz(Out(p)) <= Biz(p.accepted) && ReadyFirst(p.accepted) && ReadyFirst(Out(p)) }

  predicate Noted(p: Pump) {
    && (p.done ==> p.terminal) && (p.sent ==> HasReady(p.wire))
    && (p.writer.Wrote? && p.writer.frame.PairReady? ==> HasReady(p.wire))
  }

  predicate Known(p: Pump) {
    forall f | f in p.wire + Current(p.writer) + p.queue :: f in p.accepted
  }

  predicate PumpOk(p: Pump) { Lossless(p) && InOrder(p) && Noted(p) && Known(p) }

  /** Histories only grow and terminal endpoints stay terminal. */
  predicate Evolves(p: Pump, p': Pump) { p.accepted <= p'.accepted && p.wire <= p'.wire && (p.terminal ==> p'.terminal) }

  lemma BeginOrder(p: Pump)
    requires PumpOk(p) && p.writer.Holding? && (!p.terminal || p.writer.frame.CloseFrame?)
    ensures InOrder(p.(writer := Writing(p.writer.frame)))
  {
    hide Known;
    var f := p.writer.frame;
    assert Out(p) == p.wire;
    BizConcat(p.wire, [f]);
    if p.terminal {
      ReadyFirstAppend(p.wire, f);
    } else {
      BizConcat(p.wire + [f], p.queue);
      ReadyFirstPrefix(p.wire + [f], p.queue);
    }
  }

  lemma EndOrder(p: Pump, ok: bool)
    requires PumpOk(p) && p.writer.Writing?
    ensures PumpOk(PumpStep(p, EndWrite(ok)))
  {
    hide Biz, ReadyFirst;
    var p' := PumpStep(p, EndWrite(ok));
    if ok {
      assert Out(p') == Out(p);
      assert p.writer.frame in p'.wire;
    } else {
      assert Out(p') == p.wire;
      BizConcat(p.wire, [p.writer.frame]);
      ReadyFirstPrefix(p.wire, [p.writer.frame]);
    }
  }

  lemma EnqueueOk(p: Pump, f: Frame)
    requires PumpOk(p) && Enqueueable(p, f) && (f.Business? ==> HasReady(p.accepted))
    ensures PumpOk(Enqueue(p, f)) && Evolves(p, Enqueue(p, f))
  {
    hide Biz, ReadyFirst;
    BizConcat(p.accepted, [f]);
    ReadyFirstAppend(p.accepted, f);
  }

  lemma DequeueOk(p: Pump)
    requires PumpOk(p) && p.writer.Idle? && p.queue != []
    ensures PumpOk(PumpStep(p, Dequeue))
  {
    hide Biz, ReadyFirst;
    assert p.wire + Current(p.writer) + p.queue == p.wire + [p.queue[0]] + p.queue[1..];
    assert p.queue == [p.queue[0]] + p.queue[1..];
  }

  /** A frame is dropped only by a terminal endpoint. */
  lemma PumpStepOk(p: Pump, decisions: Decisions, l: PumpLabel)
    requires PumpOk(p) && CanPump(p, decisions, l) && (l.Discard? ==> p.terminal)
    ensures PumpOk(PumpStep(p, l)) && Evolves(p, PumpStep(p, l))
  {
    hide Biz, ReadyFirst;
    match l
    case Dequeue => DequeueOk(p);
    case BeginWrite => BeginOrder(p);
    case EndWrite(ok) => EndOrder(p, ok);
    case Put(f) => EnqueueOk(p, f);
    case _ =>
  }
}
