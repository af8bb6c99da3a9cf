/** What every run of registry and pumps guarantees to the sockets. */
module RelayDataGuarantees {
  import opened Options
  import opened RelayDataTable
  import opened RelayDataAccounting
  import opened RelayDataInvariants
  import RelayDataRuns
  import opened RelayDataPumps
  import opened RelayDataDelivery
  import opened RelayDataPairing

  // ---------- PairReady ----------

  predicate IsCommitted(s: Sys, d: DecisionId) { d in s.pact.decisions && s.pact.decisions[d].verdict.Committed? }

  /** A decision turns committed only when the registry has activated its pair. */
  lemma CommitNeedsActivation(s: Sys, l: SysLabel, d: DecisionId)
    requires Can(s, l) && IsCommitted(Do(s, l), d) && !IsCommitted(s, d)
    ensures s.pact.phase == Activated(d)
  {
    hide Step, Admit, Enabled, PumpStep, CanPump, ForwardTo, Commit, AbortCore, Enqueue, Terminate;
  }

  /** In this state the pair of the decision is active and both parties have queued PairReady. */
  predicate ActiveWithBothQueued(s: Sys, d: DecisionId) {
    && d in s.pact.decisions
    && var x := s.pact.decisions[d];
    && x.rid in s.t.core.pairs && s.t.core.pairs[x.rid].active && Members(s.t.core.pairs[x.rid]) == {x.current, x.other}
    && x.current in s.pumps && PairReady(d) in s.pumps[x.current].accepted
    && x.other in s.pumps && PairReady(d) in s.pumps[x.other].accepted
  }

  lemma ActivatedState(s: Sys, d: DecisionId)
    requires SysInv(s) && s.pact.phase == Activated(d)
    ensures ActiveWithBothQueued(s, d)
  {
  }

  lemma {:induction false} CommittedWasActive(max: nat, states: seq<Sys>, labels: seq<SysLabel>, n: nat, d: DecisionId) returns (m: nat)
    requires IsRun(max, states, labels) && n <= |labels| && IsCommitted(states[n], d)
    ensures m < n && states[m].pact.phase == Activated(d)
  {
    hide Can, Do;
    if n > 0 && !IsCommitted(states[n - 1], d) {
      CommitNeedsActivation(states[n - 1], labels[n - 1], d);
      m := n - 1;
    } else {
      m := CommittedWasActive(max, states, labels, n - 1, d);
    }
  }

  /** PairReady reaches a socket, or a write of it begins, only after a state in which its pair was
      active with both PairReady frames queued; the socket belongs to one of the two parties. */
  lemma PairReadyOnlyAfterCommit(max: nat, states: seq<Sys>, labels: seq<SysLabel>, n: nat, e: EndpointId, d: DecisionId) returns (m: nat)
    requires IsRun(max, states, labels) && n <= |labels| && e in states[n].pumps && PairReady(d) in Out(states[n].pumps[e])
    ensures m < n && ActiveWithBothQueued(states[m], d)
    ensures IsCommitted(states[n], d) && Party(states[n].pact.decisions[d], e)
  {
    hide Can, Do, SysInv;
    ReachableSystems(max, states, labels, n);
    OutIsCommitted(states[n], e, d);
    m := CommittedWasActive(max, states, labels, n, d);
    ReachableSystems(max, states, labels, m);
    ActivatedState(states[m], d);
  }

  lemma OutIsCommitted(s: Sys, e: EndpointId, d: DecisionId)
    requires SysInv(s) && e in s.pumps && PairReady(d) in Out(s.pumps[e])
    ensures IsCommitted(s, d) && Party(s.pact.decisions[d], e)
  {
    hide Lossless, InOrder, Noted;
    var p := s.pumps[e];
    assert PumpOk(p) && ReadyAt(p, e, s.pact.decisions);
    assert PairReady(d) in p.wire + Current(p.writer) + p.queue;
  }

  /** No business frame is written, nor its write begun, before the endpoint's own PairReady. */
  lemma BusinessFollowsPairReady(max: nat, states: seq<Sys>, labels: seq<SysLabel>, n: nat, e: EndpointId, k: nat) returns (j: nat)
    requires IsRun(max, states, labels) && n <= |labels| && e in states[n].pumps
    requires k < |Out(states[n].pumps[e])| && Out(states[n].pumps[e])[k].Business?
    ensures j < k && Out(states[n].pumps[e])[j].PairReady?
  {
    hide Can, Do, Biz, SysInv, Lossless, Known, Noted;
    ReachableSystems(max, states, labels, n);
    var p := states[n].pumps[e];
    PumpFacts(states[n], e);
    assert HasReady(Out(p)[..k]);
    var f :| f in Out(p)[..k] && f.PairReady?;
    j :| 0 <= j < k && Out(p)[..k][j] == f;
  }

  /** An accepted forward comes from an endpoint whose PairReady, of a decision that committed this
      very pair, has been written to its socket. */
  lemma ForwardFollowsOwnPairReady(max: nat, states: seq<Sys>, labels: seq<SysLabel>, n: nat) returns (d: DecisionId)
    requires IsRun(max, states, labels) && n < |labels| && labels[n].Forward?
    ensures ForwardTo(states[n], labels[n].e).Some?
    ensures labels[n].e in states[n].pumps && PairReady(d) in states[n].pumps[labels[n].e].wire
    ensures IsCommitted(states[n], d)
    ensures {states[n].pact.decisions[d].current, states[n].pact.decisions[d].other} == {labels[n].e, ForwardTo(states[n], labels[n].e).value}
  {
    hide Do, SysInv, ForwardTo;
    var s, e := states[n], labels[n].e;
    ReachableSystems(max, states, labels, n);
    ForwardToMate(s, e);
    var f :| f in s.pumps[e].wire && f.PairReady?;
    d := f.decision;
    OutIsCommitted(s, e, d);
    PartiesAreMates(s, d, e, ForwardTo(s, e).value);
  }

  lemma PartiesAreMates(s: Sys, d: DecisionId, e: EndpointId, other: EndpointId)
    requires SysInv(s) && IsCommitted(s, d) && Party(s.pact.decisions[d], e)
    requires other in s.pact.mates && s.pact.mates[other] == e
    requires ForwardTo(s, e) == Some(other)
    ensures {s.pact.decisions[d].current, s.pact.decisions[d].other} == {e, other}
  {
    hide RelayDataRuns.TableInv, PumpsInv, PhaseInv, MatedReady;
    assert DecisionAt(s.pact.decisions[d], d, s.pumps, s.pact.phase, s.pact.mates);
    assert MatedPair(s.t.core.pairs[s.t.staging.info[e].rid], s.pact.mates);
  }

  // ---------- what is delivered ----------

  /** The frame a step hands to endpoint `e`. */
  function HandedBy(s: Sys, l: SysLabel, e: EndpointId): seq<Frame> {
    if l.Forward? && ForwardTo(s, l.e) == Some(e) then [Business(l.e, l.payload)] else []
  }

  /** The frames forwarding has accepted for `e` in the first `n` steps, in order. */
  function Handed(states: seq<Sys>, labels: seq<SysLabel>, n: nat, e: EndpointId): seq<Frame>
    requires n <= |labels| <= |states|
  {
    if n == 0 then [] else Handed(states, labels, n - 1, e) + HandedBy(states[n - 1], labels[n - 1], e)
  }

  function AcceptedBy(s: Sys, e: EndpointId): seq<Frame> { if e in s.pumps then Biz(s.pumps[e].accepted) else [] }

  lemma QueueAccepts(s: Sys, x: EndpointId, f: Frame, e: EndpointId)
    requires x in s.pumps
    ensures AcceptedBy(s.(pumps := s.pumps[x := Enqueue(s.pumps[x], f)]), e) == AcceptedBy(s, e) + if x == e then Biz([f]) else []
  {
    BizConcat(s.pumps[x].accepted, [f]);
  }

  lemma RegistryAccepts(s: Sys, k: TableLabel, id: DecisionId, e: EndpointId)
    requires SysInv(s) && Can(s, Registry(k, id))
    ensures AcceptedBy(RegistryStep(s, k, id), e) == AcceptedBy(s, e)
  {
    hide Step, Admit, RelayDataRuns.TableInv, PumpsInv, PactInv, MatesInv, Biz;
    NothingAccepted(0, e);
  }

  lemma LocalAccepts(s: Sys, x: EndpointId, k: PumpLabel, e: EndpointId)
    requires Can(s, Local(x, k))
    ensures AcceptedBy(Do(s, Local(x, k)), e) == AcceptedBy(s, e)
  {
    if k.Put? {
      QueueAccepts(s, x, k.frame, e);
    }
  }

  lemma ForwardTarget(s: Sys, e: EndpointId)
    requires ForwardTo(s, e).Some?
    ensures e in s.pumps && ForwardTo(s, e).value in s.pumps
  {
  }

  lemma StepAccepts(s: Sys, l: SysLabel, e: EndpointId)
    requires SysInv(s) && Can(s, l)
    ensures AcceptedBy(Do(s, l), e) == AcceptedBy(s, e) + HandedBy(s, l, e)
  {
    hide SysInv, ForwardTo, Commit, AbortCore, PumpStep, RegistryStep, Enabled, CanPump;
    match l
    case Registry(k, id) => RegistryAccepts(s, k, id, e);
    case Local(x, k) => LocalAccepts(s, x, k, e);
    case QueueCurrent(ok) =>
      if ok {
        QueueAccepts(s, s.pact.decisions[s.pact.phase.d].current, PairReady(s.pact.phase.d), e);
      }
    case QueuePeer(ok) =>
      if ok {
        QueueAccepts(s, s.pact.decisions[s.pact.phase.d].other, PairReady(s.pact.phase.d), e);
      }
    case Forward(x, payload) =>
      ForwardTarget(s, x);
      QueueAccepts(s, ForwardTo(s, x).value, Business(x, payload), e);
    case _ =>
  }

  lemma {:induction false} AcceptedIsHanded(max: nat, states: seq<Sys>, labels: seq<SysLabel>, n: nat, e: EndpointId)
    requires IsRun(max, states, labels) && n <= |labels|
    ensures AcceptedBy(states[n], e) == Handed(states, labels, n, e)
  {
    hide Can, Do, SysInv, HandedBy, AcceptedBy;
    if n > 0 {
      AcceptedIsHanded(max, states, labels, n - 1, e);
      ReachableSystems(max, states, labels, n - 1);
      StepAccepts(states[n - 1], labels[n - 1], e);
    } else {
      NothingAccepted(max, e);
    }
  }

  lemma NothingAccepted(max: nat, e: EndpointId)
    ensures AcceptedBy(Start(max), e) == [] && Biz([]) == []
  {
  }

  lemma {:induction false} BizMembers(s: seq<Frame>, f: Frame)
    ensures f in Biz(s) <==> f in s && f.Business?
  {
    if s != [] {
      assert s == [s[0]] + s[1..];
      BizMembers(s[1..], f);
    }
  }

  /** The business frames on a socket, counting one whose write is in progress, are a prefix, in
      order, of what forwarding accepted for it; all of that comes from one single counterpart of
      the same reservation. */
  lemma DeliveryIsPrefix(max: nat, states: seq<Sys>, labels: seq<SysLabel>, n: nat, e: EndpointId)
    requires IsRun(max, states, labels) && n <= |labels| && e in states[n].pumps
    ensures Biz(Out(states[n].pumps[e])) <= Handed(states, labels, n, e)
    ensures Handed(states, labels, n, e) != [] ==> e in states[n].pact.mates
    ensures forall f | f in Handed(states, labels, n, e) :: f.Business? && f.from == states[n].pact.mates[e]
    ensures forall f | f in Handed(states, labels, n, e) ::
      && e in states[n].t.staging.info && f.from in states[n].t.staging.info
      && states[n].t.staging.info[f.from].rid == states[n].t.staging.info[e].rid
  {
    hide Can, Do, SysInv, Biz;
    var s := states[n];
    AcceptedIsHanded(max, states, labels, n, e);
    ReachableSystems(max, states, labels, n);
    assert Biz(Out(s.pumps[e])) <= Biz(s.pumps[e].accepted) by {
      PumpFacts(s, e);
    }
    forall f | f in Handed(states, labels, n, e)
      ensures e in s.pact.mates && f.Business? && f.from == s.pact.mates[e] && e in s.t.staging.info && f.from in s.t.staging.info
      ensures s.t.staging.info[f.from].rid == s.t.staging.info[e].rid
    {
      BizMembers(s.pumps[e].accepted, f);
      SourceIsMate(s, e, f);
    }
    if Handed(states, labels, n, e) != [] {
      assert Handed(states, labels, n, e)[0] in Handed(states, labels, n, e);
    }
  }

  lemma PumpFacts(s: Sys, e: EndpointId)
    requires SysInv(s) && e in s.pumps
    ensures PumpOk(s.pumps[e])
  {
  }

  lemma SourceIsMate(s: Sys, e: EndpointId, f: Frame)
    requires SysInv(s) && e in s.pumps && f in s.pumps[e].accepted && f.Business?
    ensures e in s.pact.mates && s.pact.mates[e] == f.from && e in s.t.staging.info && f.from in s.t.staging.info
    ensures s.t.staging.info[f.from].rid == s.t.staging.info[e].rid
  {
    hide RelayDataRuns.TableInv, PactInv, PumpOk, ReadyAt;
    assert BizAt(s.pumps[e], e, s.pact.mates, s.pumps);
  }

  // ---------- after closeDevice ----------

  /** Terminal, and the only write that may be in progress is that of a close frame. */
  predicate Silent(p: Pump) { p.terminal && (p.writer.Writing? ==> p.writer.frame.CloseFrame?) }

  predicate SilentAt(s: Sys, e: EndpointId) { e in s.pumps && Silent(s.pumps[e]) }

  lemma SilentPump(p: Pump, decisions: Decisions, k: PumpLabel)
    requires Silent(p) && CanPump(p, decisions, k)
    ensures Silent(PumpStep(p, k)) && Biz(Out(PumpStep(p, k))) == Biz(Out(p))
  {
    hide Biz;
    var p' := PumpStep(p, k);
    if p.writer.Writing? {
      BizConcat(p.wire, [p.writer.frame]);
    }
    if k.BeginWrite? {
      BizConcat(p.wire, [CloseFrame]);
    }
    assert Biz([CloseFrame]) == [] by {
      BizMembersEmpty(CloseFrame);
    }
    assert p.wire + [] == p.wire && p'.wire + [] == p'.wire;
  }

  lemma BizMembersEmpty(f: Frame)
    requires !f.Business?
    ensures Biz([f]) == []
  {
    assert [f][1..] == [];
  }

  lemma SilentStep(s: Sys, l: SysLabel, e: EndpointId)
    requires SysInv(s) && Can(s, l) && SilentAt(s, e)
    ensures SilentAt(Do(s, l), e) && Biz(Out(Do(s, l).pumps[e])) == Biz(Out(s.pumps[e]))
  {
    hide Biz, Step, Admit, RelayDataRuns.TableInv, PumpsInv, PactInv, MatesInv, Commit, AbortCore, ForwardTo;
    if l.Local? && l.e == e {
      SilentPump(s.pumps[e], s.pact.decisions, l.move);
    }
  }

  lemma {:induction false} StaysSilent(max: nat, states: seq<Sys>, labels: seq<SysLabel>, m: nat, n: nat, e: EndpointId)
    requires IsRun(max, states, labels) && m <= n <= |labels| && SilentAt(states[m], e)
    ensures SilentAt(states[n], e) && Biz(Out(states[n].pumps[e])) == Biz(Out(states[m].pumps[e]))
  {
    hide Can, Do, SysInv, Biz, Out, Silent;
    if m < n {
      StaysSilent(max, states, labels, m, n - 1, e);
      ReachableSystems(max, states, labels, n - 1);
      SilentStep(states[n - 1], labels[n - 1], e);
    }
  }

  lemma TerminalStep(s: Sys, l: SysLabel, e: EndpointId)
    requires SysInv(s) && Can(s, l) && e in s.pumps && s.pumps[e].terminal
    ensures e in Do(s, l).pumps && Do(s, l).pumps[e].terminal
  {
    hide Biz, Step, Admit, RelayDataRuns.TableInv, PumpsInv, PactInv, MatesInv, Commit, AbortCore, ForwardTo;
  }

  lemma {:induction false} StaysTerminal(max: nat, states: seq<Sys>, labels: seq<SysLabel>, m: nat, n: nat, e: EndpointId)
    requires IsRun(max, states, labels) && m <= n <= |labels| && e in states[m].pumps && states[m].pumps[e].terminal
    ensures e in states[n].pumps && states[n].pumps[e].terminal
  {
    hide Can, Do, SysInv;
    if m < n {
      StaysTerminal(max, states, labels, m, n - 1, e);
      ReachableSystems(max, states, labels, n - 1);
      TerminalStep(states[n - 1], labels[n - 1], e);
    }
  }

  /** closeDevice entered its mutex region at step `i` and has returned by state `m`: since then
      every target's write gate has been free at least once. */
  ghost predicate CloseReturned(states: seq<Sys>, labels: seq<SysLabel>, i: nat, m: nat, device: DeviceId, cutoff: int) {
    && i < m < |states| && i < |labels|
    && labels[i].Registry? && labels[i].step.DoCloseDevice? && labels[i].step.device == device && labels[i].step.cutoff == cutoff
    && forall e | e in Targets(states[i].t, device, cutoff) ::
         exists k :: i < k <= m && e in states[k].pumps && Quiescent(states[k].pumps[e])
  }

  /** After closeDevice has returned, no business write starts on any endpoint of the device in
      reach of the cutoff nor on its counterpart, and its business frames never change again. */
  lemma NoBusinessAfterCloseDevice(max: nat, states: seq<Sys>, labels: seq<SysLabel>, i: nat, m: nat, n: nat,
                                   device: DeviceId, cutoff: int, e: EndpointId)
    requires IsRun(max, states, labels) && CloseReturned(states, labels, i, m, device, cutoff) && m <= n <= |labels|
    requires e in Targets(states[i].t, device, cutoff)
    ensures SilentAt(states[m], e) && SilentAt(states[n], e)
    ensures Biz(Out(states[n].pumps[e])) == Biz(Out(states[m].pumps[e]))
  {
    hide Can, Do, SysInv, Biz, Out, Targets;
    var k :| i < k <= m && e in states[k].pumps && Quiescent(states[k].pumps[e]);
    ReachableSystems(max, states, labels, i);
    ClosedIsTerminal(states[i], labels[i], e);
    StaysTerminal(max, states, labels, i + 1, k, e);
    StaysSilent(max, states, labels, k, m, e);
    StaysSilent(max, states, labels, m, n, e);
  }

  lemma ClosedIsTerminal(s: Sys, l: SysLabel, e: EndpointId)
    requires SysInv(s) && Can(s, l) && l.Registry? && l.step.DoCloseDevice? && e in Targets(s.t, l.step.device, l.step.cutoff)
    ensures e in Do(s, l).pumps && Do(s, l).pumps[e].terminal
  {
    hide Step, RelayDataRuns.TableInv, PumpsInv, PactInv, MatesInv, Targets;
    assert e in l.step.order;
  }
}
