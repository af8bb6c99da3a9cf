/** The relay-data registry together with the writer pumps of its endpoints. Every mutex region is
    one step, except pairing: queueing the two PairReady frames, activating the pair and resolving
    the decision are separate steps that the writers interleave with. */
module RelayDataPumps {
  import opened Options
  import opened RelayDataTable
  import opened RelayDataInvariants

  type DecisionId = nat

  // ---------- one endpoint ----------

  /** Control stands for Pong and keepalive Ping frames; only CloseFrame may pass a terminal endpoint. */
  datatype Frame = PairReady(decision: DecisionId) | Business(from: EndpointId, payload: nat) | Control | CloseFrame

  /** Writing is the time the write gate is held for a frame; Wrote follows a successful write. */
  datatype Writer = Idle | Holding(frame: Frame) | Writing(frame: Frame) | Wrote(frame: Frame) | Stopped

  /** wire: frames written to the socket. accepted: every frame the queue ever took. */
  datatype Pump = Pump(
    terminal: bool,
    done: bool,
    ready: bool,
    sent: bool,
    queue: seq<Frame>,
    writer: Writer,
    wire: seq<Frame>,
    accepted: seq<Frame>)

  const FRESH_PUMP := Pump(false, false, false, false, [], Idle, [], [])

  predicate Enqueueable(p: Pump, f: Frame) { !p.done && (!p.terminal || f.CloseFrame?) }

  function Enqueue(p: Pump, f: Frame): Pump { p.(queue := p.queue + [f], accepted := p.accepted + [f]) }

  /** The write gate is free: no socket write is in progress. */
  predicate Quiescent(p: Pump) { !p.writer.Writing? && !p.writer.Wrote? }

  datatype Verdict = Undecided | Committed | Aborted
  datatype Decision = Decision(rid: ReservationId, current: EndpointId, other: EndpointId, verdict: Verdict)
  type Decisions = map<DecisionId, Decision>

  predicate Decided(decisions: Decisions, f: Frame, verdict: Verdict) {
    f.PairReady? && f.decision in decisions && decisions[f.decision].verdict == verdict
  }

  datatype PumpLabel =
    | Dequeue
    | Discard
    | BeginWrite
    | EndWrite(ok: bool)
    | NoteSent
    | StopWriter
    | MarkTerminal
    | ClearFlags
    | CloseDone
    | Put(frame: Frame)

  /** What a writer, reader or timer of one endpoint may do on its own. A writer holding PairReady
      waits for the decision; it rechecks the terminal flag once it holds the write gate. */
  predicate CanPump(p: Pump, decisions: Decisions, l: PumpLabel) {
    match l
    case Dequeue => p.writer.Idle? && p.queue != []
    case Discard => p.writer.Holding? && ((p.terminal && !p.writer.frame.CloseFrame?) || Decided(decisions, p.writer.frame, Aborted))
    case BeginWrite =>
      && p.writer.Holding? && (!p.terminal || p.writer.frame.CloseFrame?)
      && (p.writer.frame.PairReady? ==> Decided(decisions, p.writer.frame, Committed))
    case EndWrite(_) => p.writer.Writing?
    case NoteSent => p.writer.Wrote?
    case StopWriter => p.writer.Idle? && p.done
    case MarkTerminal => true
    case ClearFlags => p.terminal
    case CloseDone => p.terminal
    case Put(f) => Enqueueable(p, f) && (f.Control? || f.CloseFrame?)
  }

  function PumpStep(p: Pump, l: PumpLabel): Pump
    requires l.Dequeue? ==> p.queue != []
    requires l.BeginWrite? ==> p.writer.Holding?
    requires l.EndWrite? ==> p.writer.Writing?
    requires l.NoteSent? ==> p.writer.Wrote?
  {
    match l
    case Dequeue => p.(queue := p.queue[1..], writer := Holding(p.queue[0]))
    case Discard => p.(writer := Idle)
    case BeginWrite => p.(writer := Writing(p.writer.frame))
    case EndWrite(ok) =>
      if ok then p.(writer := Wrote(p.writer.frame), wire := p.wire + [p.writer.frame]) else p.(writer := Stopped)
    case NoteSent => p.(writer := Idle, sent := p.sent || p.writer.frame.PairReady?)
    case StopWriter => p.(writer := Stopped)
    case MarkTerminal => p.(terminal := true)
    case ClearFlags => p.(ready := false, sent := false)
    case CloseDone => p.(done := true)
    case Put(f) => Enqueue(p, f)
  }

  // ---------- the whole ----------

  type Pumps = map<EndpointId, Pump>

  /** How far the mutex holder has come with a pairing. */
  datatype Phase =
    | Free
    | Linking(d: DecisionId)
    | HalfQueued(d: DecisionId)
    | BothQueued(d: DecisionId)
    | Activated(d: DecisionId)
    | Refused(d: DecisionId)
    | Undone(d: DecisionId)

  /** Decisions ever made, and whom each endpoint was paired with. */
  datatype Pact = Pact(phase: Phase, decisions: Decisions, mates: map<EndpointId, EndpointId>)

  datatype Sys = Sys(t: Table, pumps: Pumps, pact: Pact)

  function Start(max: nat): Sys { Sys(Initial(max), map[], Pact(Free, map[], map[])) }

  function Terminate(pumps: Pumps, gone: set<EndpointId>): Pumps {
    map e | e in pumps :: if e in gone then pumps[e].(terminal := true) else pumps[e]
  }

  /** The endpoints and the counterparts their release takes along. */
  function WithPeers(c: Core, es: set<EndpointId>): set<EndpointId> {
    es + (set e | e in es && e in c.peer :: c.peer[e])
  }

  datatype SysLabel =
    | Registry(step: TableLabel, id: DecisionId)
    | Local(e: EndpointId, move: PumpLabel)
    | QueueCurrent(ok: bool)
    | QueuePeer(ok: bool)
    | Activate
    | ResolveCommit
    | RollBack
    | ResolveAbort
    | Forward(e: EndpointId, payload: nat)

  /** The counterpart a frame of `e` may be handed to: both alive and ready, in one active pair,
      linked, and the sender's own PairReady already written. */
  function ForwardTo(s: Sys, e: EndpointId): Option<EndpointId> {
    if s.t.staging.closed || e !in s.pumps || s.pumps[e].terminal || !s.pumps[e].ready || !s.pumps[e].sent then None
    else if e !in s.t.staging.info || s.t.staging.info[e].rid !in s.t.core.pairs then None
    else
      var p := s.t.core.pairs[s.t.staging.info[e].rid];
      if !p.active then None
      else
        var other := if p.initiator == Some(e) then p.responder else if p.responder == Some(e) then p.initiator else None;
        if other.None? || other.value !in s.pumps || s.pumps[other.value].terminal || !s.pumps[other.value].ready then None
        else if LinkOf(s.t.core.peer, e) != other then None
        else other
  }

  /** The parties of the pairing in progress are the ones its decision names. */
  predicate InProgress(s: Sys, d: DecisionId) {
    && d in s.pact.decisions && s.pact.decisions[d].current in s.pumps && s.pact.decisions[d].other in s.pumps
    && s.t.core.pairing.Some? && s.t.core.pairing.value.rid in s.t.core.pairs
  }

  ghost predicate Can(s: Sys, l: SysLabel) {
    match l
    case Registry(k, id) =>
      && s.pact.phase.Free? && !k.DoCommit? && !k.DoAbort? && Enabled(s.t, k) && id !in s.pact.decisions
      && (k.DoAdmit? ==> k.e in s.pumps && k.terminal == s.pumps[k.e].terminal)
      && (k.DoPumpDone? ==> k.e in s.pumps && s.pumps[k.e].writer.Stopped?)
    case Local(e, k) => e in s.pumps && CanPump(s.pumps[e], s.pact.decisions, k)
    case QueueCurrent(ok) =>
      && s.pact.phase.Linking? && InProgress(s, s.pact.phase.d)
      && (ok ==> Enqueueable(s.pumps[s.pact.decisions[s.pact.phase.d].current], PairReady(s.pact.phase.d)))
    case QueuePeer(ok) =>
      && s.pact.phase.HalfQueued? && InProgress(s, s.pact.phase.d)
      && (ok ==> Enqueueable(s.pumps[s.pact.decisions[s.pact.phase.d].other], PairReady(s.pact.phase.d)))
    case Activate => s.pact.phase.BothQueued? && InProgress(s, s.pact.phase.d)
    case ResolveCommit => s.pact.phase.Activated? && s.pact.phase.d in s.pact.decisions
    case RollBack => s.pact.phase.Refused? && InProgress(s, s.pact.phase.d)
    case ResolveAbort => s.pact.phase.Undone? && s.pact.phase.d in s.pact.decisions
    case Forward(e, payload) =>
      s.pact.phase.Free? && ForwardTo(s, e).Some? && Enqueueable(s.pumps[ForwardTo(s, e).value], Business(e, payload))
  }

  /** Admission: a displaced endpoint turns terminal; two filled slots start a pairing. */
  function AdmitStep(s: Sys, e: EndpointId, now: int, id: DecisionId): Sys
    requires e in s.pumps && e in s.t.staging.info
  {
    var (t', outcome) := Admit(s.t, e, s.pumps[e].terminal, now);
    match outcome
    case Rejected => s.(t := t')
    case Waiting(displaced) => s.(t := t', pumps := Terminate(s.pumps, displaced))
    case Paired(other) =>
      s.(t := t',
         pumps := map x | x in s.pumps :: if x == e || x == other then s.pumps[x].(sent := false) else s.pumps[x],
         pact := s.pact.(phase := Linking(id),
                         decisions := s.pact.decisions[id := Decision(s.t.staging.info[e].rid, e, other, Undecided)]))
  }

  ghost function RegistryStep(s: Sys, k: TableLabel, id: DecisionId): Sys
    requires Enabled(s.t, k) && (k.DoAdmit? ==> k.e in s.pumps)
  {
    match k
    case DoAdmit(e, _, now) => AdmitStep(s, e, now, id)
    case DoStage(_, e, _) => s.(t := Step(s.t, k), pumps := if e in Step(s.t, k).staging.info then s.pumps[e := FRESH_PUMP] else s.pumps)
    case DoRelease(e) => s.(t := Step(s.t, k), pumps := Terminate(s.pumps, WithPeers(s.t.core, {e})))
    case DoCloseDevice(_, _, _, order) => s.(t := Step(s.t, k), pumps := Terminate(s.pumps, WithPeers(s.t.core, set e | e in order)))
    case DoCloseAll(_, order) => s.(t := Step(s.t, k), pumps := Terminate(s.pumps, WithPeers(s.t.core, set e | e in order)))
    case _ => s.(t := Step(s.t, k))
  }

  function QueueStep(s: Sys, e: EndpointId, d: DecisionId, ok: bool, next: Phase): Sys
    requires e in s.pumps
  {
    if ok then s.(pumps := s.pumps[e := Enqueue(s.pumps[e], PairReady(d))], pact := s.pact.(phase := next))
    else s.(pact := s.pact.(phase := Refused(d)))
  }

  function ActivateStep(s: Sys, d: DecisionId): Sys
    requires InProgress(s, d)
  {
    var (a, b) := (s.pact.decisions[d].current, s.pact.decisions[d].other);
    s.(t := Commit(s.t),
       pumps := map x | x in s.pumps :: if x == a || x == b then s.pumps[x].(ready := true) else s.pumps[x],
       pact := s.pact.(phase := Activated(d), mates := s.pact.mates[a := b][b := a]))
  }

  function Resolve(s: Sys, d: DecisionId, verdict: Verdict): Sys
    requires d in s.pact.decisions
  {
    s.(pact := s.pact.(phase := Free, decisions := s.pact.decisions[d := s.pact.decisions[d].(verdict := verdict)]))
  }

  function RollBackStep(s: Sys, d: DecisionId): Sys
    requires InProgress(s, d)
  {
    s.(t := s.t.(core := AbortCore(s.t.core)),
       pumps := Terminate(s.pumps, {s.pact.decisions[d].current, s.pact.decisions[d].other}),
       pact := s.pact.(phase := Undone(d)))
  }

  ghost function Do(s: Sys, l: SysLabel): Sys
    requires Can(s, l)
  {
    match l
    case Registry(k, id) => RegistryStep(s, k, id)
    case Local(e, k) => s.(pumps := s.pumps[e := PumpStep(s.pumps[e], k)])
    case QueueCurrent(ok) => QueueStep(s, s.pact.decisions[s.pact.phase.d].current, s.pact.phase.d, ok, HalfQueued(s.pact.phase.d))
    case QueuePeer(ok) => QueueStep(s, s.pact.decisions[s.pact.phase.d].other, s.pact.phase.d, ok, BothQueued(s.pact.phase.d))
    case Activate => ActivateStep(s, s.pact.phase.d)
    case ResolveCommit => Resolve(s, s.pact.phase.d, Committed)
    case RollBack => RollBackStep(s, s.pact.phase.d)
    case ResolveAbort => Resolve(s, s.pact.phase.d, Aborted)
    case Forward(e, payload) =>
      var other := ForwardTo(s, e).value;
      s.(pumps := s.pumps[other := Enqueue(s.pumps[other], Business(e, payload))])
  }
}
