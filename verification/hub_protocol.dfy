/** The hub's control handshake Resolve -> Offer -> Answer / Reserve as a state machine. Every
    region of hub code under the hub mutex is one step; what a handler carries from one region
    to the next (a consumed ticket, a consumed gate) is kept per connection, so any other step
    may fall in between. */
module HubProtocol {
  import opened Options
  import opened Cutoffs
  import opened CorrelationRegistries

  type AttemptId = nat

  const ATTEMPT_LIFETIME: int := 30_000_000_000

  datatype GateKey = GateKey(conn: ConnId, attempt: AttemptId)
  datatype Peer = Peer(device: DeviceId, conn: ConnId, generation: int)
  datatype Ticket = Ticket(target: DeviceId, expiresAt: int)

  /** A ticket consumed by an Offer that has not been forwarded yet. */
  datatype Offering = Offering(target: DeviceId, takenAt: int)
  /** A gate consumed by a Reserve request whose reservation is not created yet. */
  datatype Reserving = Reserving(attempt: AttemptId, gate: Correlation, takenAt: int)

  datatype Caps = Caps(maxConnections: nat, attempts: nat, attemptsPerConn: nat, gates: nat, gatesPerConn: nat)

  datatype HubState = HubState(
    peers: map<DeviceId, Peer>,
    pending: map<DeviceId, Peer>,
    tickets: map<ConnId, Ticket>,
    attempts: map<AttemptId, Correlation>,
    gates: map<GateKey, Correlation>,
    active: set<ConnId>,
    done: set<ConnId>,
    closed: bool,
    used: set<ConnId>,
    offering: map<Peer, Offering>,
    reserving: map<Peer, Reserving>)

  datatype Event =
    | Resolved(conn: ConnId, target: DeviceId, at: int)
    | Forwarded(conn: ConnId, attempt: AttemptId, target: DeviceId, targetConn: ConnId, takenAt: int, at: int)
    | Returned(attempt: AttemptId, from: ConnId, to: ConnId, at: int)
    | Reserved(conn: ConnId, attempt: AttemptId, target: DeviceId, targetConn: ConnId, takenAt: int)

  /** Steps on the peer table: admission in two phases, disconnects and shutdown. */
  datatype SocketLabel =
    | StageBegin(p: Peer)
    | StageCommit(p: Peer, previous: Option<Peer>, leased: bool)
    | Activate(p: Peer)
    | CloseSocket(conn: ConnId)
    | DisconnectConnection(device: DeviceId, conn: ConnId)
    | DisconnectBefore(device: DeviceId, cutoff: int)
    | Remove(p: Peer)
    | CloseHub

  /** Steps of the handshake handlers and the periodic pruner. */
  datatype ControlLabel =
    | ResolveReady(p: Peer, target: DeviceId, now: int)
    | TakeTicket(p: Peer, now: int)
    | AbandonOffer(p: Peer)
    | CommitOffer(p: Peer, attempt: AttemptId, now: int, initiatorOwner: ConnId, targetOwner: ConnId, queued: bool)
    | Answer(p: Peer, attempt: AttemptId, now: int)
    | AttemptError(p: Peer, attempt: AttemptId, now: int)
    | TakeGate(p: Peer, attempt: AttemptId, target: DeviceId, now: int)
    | FinishReserve(p: Peer, created: bool)
    | Prune(now: int)

  datatype Label = Socket(socket: SocketLabel) | Control(control: ControlLabel)

  const INITIAL := HubState(map[], map[], map[], map[], map[], {}, {}, false, {}, map[], map[])

  function Get<K, V>(m: map<K, V>, k: K): Option<V> { if k in m then Some(m[k]) else None }

  ghost predicate Submap<K, V>(m': map<K, V>, m: map<K, V>) {
    forall k | k in m' :: k in m && m'[k] == m[k]
  }

  /** Steps on sockets only ever forget control state; handlers in progress keep theirs. */
  ghost predicate OnlyForgets(s: HubState, s': HubState) {
    && Submap(s'.tickets, s.tickets) && Submap(s'.attempts, s.attempts) && Submap(s'.gates, s.gates)
    && s'.offering == s.offering && s'.reserving == s.reserving
  }

  /** Handlers other than a forwarded Offer leave the sockets alone and add no correlation. */
  ghost predicate OnlyConsumes(s: HubState, s': HubState) {
    && s'.peers == s.peers && s'.pending == s.pending && s'.used == s.used
    && Submap(s'.attempts, s.attempts) && Submap(s'.gates, s.gates)
  }

  predicate Routable(s: HubState, p: Peer) { p.conn in s.active }

  predicate Open(s: HubState, p: Peer) { Routable(s, p) && p.conn !in s.done }

  function ForgetConnection(s: HubState, conn: ConnId): (s': HubState)
    ensures OnlyForgets(s, s')
  {
    s.(attempts := s.attempts - Bucket(s.attempts, conn), gates := s.gates - Bucket(s.gates, conn))
  }

  function StageBeginStep(s: HubState, caps: Caps, p: Peer): (s': HubState)
    ensures OnlyForgets(s, s')
  {
    var s1 := s.(used := s.used + {p.conn});
    if s.closed || (p.device !in s.peers && |s.peers| + |s.pending| >= caps.maxConnections) then s1
    else s1.(pending := s.pending[p.device := p])
  }

  function StageCommitStep(s: HubState, caps: Caps, p: Peer, previous: Option<Peer>, leased: bool): (s': HubState)
    ensures OnlyForgets(s, s')
  {
    var owns := Get(s.pending, p.device) == Some(p);
    var s1 := if owns then s.(pending := s.pending - {p.device}) else s;
    if leased && !s.closed && owns && Get(s.peers, p.device) == previous
       && (previous.None? ==> |s.peers| < caps.maxConnections) then
      var s2 := s1.(peers := s.peers[p.device := p]);
      if previous.Some? then ForgetConnection(s2, previous.value.conn) else s2
    else s1
  }

  function ActivateStep(s: HubState, p: Peer): (s': HubState)
    ensures OnlyForgets(s, s')
  {
    if !s.closed && Get(s.peers, p.device) == Some(p) then s.(active := s.active + {p.conn}) else s
  }

  function DropPeer(s: HubState, p: Peer): (s': HubState)
    ensures OnlyForgets(s, s')
  {
    ForgetConnection(s.(peers := s.peers - {p.device}, tickets := s.tickets - {p.conn}), p.conn)
  }

  function DisconnectConnectionStep(s: HubState, device: DeviceId, conn: ConnId): (s': HubState)
    ensures OnlyForgets(s, s')
  {
    if conn == 0 || device !in s.peers || s.peers[device].conn != conn then s
    else DropPeer(s, s.peers[device])
  }

  function DisconnectBeforeStep(s: HubState, device: DeviceId, cutoff: int): (s': HubState)
    ensures OnlyForgets(s, s')
  {
    var s1 := if device in s.peers && Older(s.peers[device].generation, cutoff) then DropPeer(s, s.peers[device]) else s;
    if device in s.pending && Older(s.pending[device].generation, cutoff) then s1.(pending := s.pending - {device}) else s1
  }

  function RemoveStep(s: HubState, p: Peer): (s': HubState)
    ensures OnlyForgets(s, s')
  {
    var s1 := ForgetConnection(s.(tickets := s.tickets - {p.conn}), p.conn);
    if Get(s.peers, p.device) == Some(p) then s1.(peers := s.peers - {p.device}) else s1
  }

  function CloseHubStep(s: HubState): (s': HubState)
    ensures OnlyForgets(s, s')
  {
    s.(peers := map[], pending := map[], tickets := map[], attempts := map[], gates := map[], closed := true)
  }

  function ResolveReadyStep(s: HubState, p: Peer, target: DeviceId, now: int): (s': HubState)
    ensures OnlyConsumes(s, s')
  {
    s.(tickets := s.tickets[p.conn := Ticket(target, now + ATTEMPT_LIFETIME)])
  }

  /** The ticket is gone after the first Offer whatever the outcome. */
  function TakeTicketStep(s: HubState, p: Peer, now: int): (s': HubState)
    ensures OnlyConsumes(s, s')
  {
    var s1 := s.(tickets := s.tickets - {p.conn});
    if p.conn in s.tickets && now < s.tickets[p.conn].expiresAt
       && s.tickets[p.conn].target != 0 && s.tickets[p.conn].target != p.device then
      s1.(offering := s.offering[p := Offering(s.tickets[p.conn].target, now)])
    else s1
  }

  function OfferCorrelation(s: HubState, p: Peer, now: int): Correlation
    requires p in s.offering && s.offering[p].target in s.peers
  {
    var target := s.offering[p].target;
    Correlation(p.device, p.conn, target, s.peers[target].conn, now + ATTEMPT_LIFETIME)
  }

  /** The exact condition under which an Offer is handed to the resolved target connection. */
  ghost predicate Forwardable(s: HubState, caps: Caps, p: Peer, attempt: AttemptId, now: int,
                              initiatorOwner: ConnId, targetOwner: ConnId)
    requires p in s.offering
  {
    var target := s.offering[p].target;
    && attempt != 0 && p.device != 0 && p.conn != 0 && target != 0 && targetOwner != 0
    && Get(s.peers, p.device) == Some(p) && Open(s, p) && initiatorOwner == p.conn
    && target in s.peers && Open(s, s.peers[target]) && s.peers[target].conn == targetOwner
    && (attempt in s.attempts ==> !Live(s.attempts[attempt], now))
    && (GateKey(p.conn, attempt) in s.gates ==> !Live(s.gates[GateKey(p.conn, attempt)], now))
    && HasRoom(s.attempts - {attempt}, OfferCorrelation(s, p, now), now, caps.attempts, caps.attemptsPerConn)
    && HasRoom(s.gates - {GateKey(p.conn, attempt)}, OfferCorrelation(s, p, now), now, caps.gates, caps.gatesPerConn)
  }

  ghost predicate CommitOfferStep(s: HubState, caps: Caps, p: Peer, attempt: AttemptId, now: int,
                                  initiatorOwner: ConnId, targetOwner: ConnId, queued: bool,
                                  s': HubState, e: Option<Event>)
  {
    && p in s.offering
    && s' == s.(offering := s.offering - {p}, attempts := s'.attempts, gates := s'.gates)
    && (e.Some? <==> queued && Forwardable(s, caps, p, attempt, now, initiatorOwner, targetOwner))
    && (e.None? ==> OnlyExpiredDropped(s.attempts, s'.attempts, now) && OnlyExpiredDropped(s.gates, s'.gates, now))
    && (e.Some? ==>
          var c := OfferCorrelation(s, p, now);
          && e.value == Forwarded(p.conn, attempt, c.target, c.targetConn, s.offering[p].takenAt, now)
          && Added(s.attempts, s'.attempts, attempt, c, now)
          && Added(s.gates, s'.gates, GateKey(p.conn, attempt), c, now))
  }

  /** The peer an attempt's return frame goes to, if the sender may return it at all. */
  function ReturnRecipient(s: HubState, p: Peer, c: Correlation): Option<Peer> {
    if c.initiator in s.peers && Routable(s, s.peers[c.initiator])
       && s.peers[c.initiator].conn == c.initiatorConn && c.initiator != p.device
    then Some(s.peers[c.initiator]) else None
  }

  /** Only the exact target connection of a live attempt may return a frame for it. */
  predicate MayReturn(s: HubState, p: Peer, c: Correlation) {
    c.target == p.device && c.targetConn == p.conn && Get(s.peers, c.target) == Some(p)
  }

  function ReturnStep(s: HubState, p: Peer, attempt: AttemptId, now: int): (r: (HubState, Option<Event>))
    ensures OnlyConsumes(s, r.0)
  {
    if attempt !in s.attempts then (s, None)
    else
      var c := s.attempts[attempt];
      var consumed := s.(attempts := s.attempts - {attempt});
      if !Live(c, now) then (consumed, None)
      else if !MayReturn(s, p, c) then (s, None)
      else if ReturnRecipient(s, p, c).None? then (consumed, None)
      else (consumed, Some(Returned(attempt, p.conn, c.initiatorConn, now)))
  }

  /** A Reserve request consumes its gate first and only then is checked against it. */
  function TakeGateStep(s: HubState, p: Peer, attempt: AttemptId, target: DeviceId, now: int): (s': HubState)
    ensures OnlyConsumes(s, s')
  {
    var key := GateKey(p.conn, attempt);
    if attempt == 0 then s
    else
      var s1 := s.(gates := s.gates - {key});
      if key in s.gates && Live(s.gates[key], now)
         && s.gates[key].initiator == p.device && s.gates[key].target == target
         && target != 0 && target != p.device
         && Get(s.peers, p.device) == Some(p) && Open(s, p)
         && target in s.peers && Open(s, s.peers[target]) && s.peers[target].conn == s.gates[key].targetConn
      then s1.(reserving := s.reserving[p := Reserving(attempt, s.gates[key], now)])
      else s1
  }

  function FinishReserveStep(s: HubState, p: Peer, created: bool): (r: (HubState, Option<Event>))
    requires p in s.reserving
    ensures OnlyConsumes(s, r.0)
  {
    var r := s.reserving[p];
    (s.(reserving := s.reserving - {p}),
     if created then Some(Reserved(p.conn, r.attempt, r.gate.target, r.gate.targetConn, r.takenAt)) else None)
  }

  function SocketStep(s: HubState, caps: Caps, l: SocketLabel): (s': HubState)
    ensures OnlyForgets(s, s')
  {
    match l
    case StageBegin(p) => StageBeginStep(s, caps, p)
    case StageCommit(p, previous, leased) => StageCommitStep(s, caps, p, previous, leased)
    case Activate(p) => ActivateStep(s, p)
    case CloseSocket(conn) => s.(done := s.done + {conn})
    case DisconnectConnection(d, conn) => DisconnectConnectionStep(s, d, conn)
    case DisconnectBefore(d, cutoff) => DisconnectBeforeStep(s, d, cutoff)
    case Remove(p) => RemoveStep(s, p)
    case CloseHub => CloseHubStep(s)
  }

  ghost predicate ControlNext(s: HubState, caps: Caps, l: ControlLabel, s': HubState, e: Option<Event>) {
    match l
    case ResolveReady(p, target, now) =>
      target != 0 && s' == ResolveReadyStep(s, p, target, now) && e == Some(Resolved(p.conn, target, now))
    case TakeTicket(p, now) => p !in s.offering && s' == TakeTicketStep(s, p, now) && e == None
    case AbandonOffer(p) => s' == s.(offering := s.offering - {p}) && e == None
    case CommitOffer(p, attempt, now, io, to, queued) => CommitOfferStep(s, caps, p, attempt, now, io, to, queued, s', e)
    case Answer(p, attempt, now) => (s', e) == ReturnStep(s, p, attempt, now)
    case AttemptError(p, attempt, now) => (s', e) == ReturnStep(s, p, attempt, now)
    case TakeGate(p, attempt, target, now) => p !in s.reserving && s' == TakeGateStep(s, p, attempt, target, now) && e == None
    case FinishReserve(p, created) => p in s.reserving && (s', e) == FinishReserveStep(s, p, created)
    case Prune(now) => PruneStep(s, now, s') && e == None
  }

  ghost predicate PruneStep(s: HubState, now: int, s': HubState) {
    && s' == s.(attempts := s'.attempts, gates := s'.gates)
    && OnlyExpiredDropped(s.attempts, s'.attempts, now) && OnlyExpiredDropped(s.gates, s'.gates, now)
  }

  /** A connection id is fresh when its socket is staged. */
  predicate FreshlyStaged(s: HubState, l: SocketLabel) {
    l.StageBegin? ==> l.p.conn != 0 && l.p.conn !in s.used
  }

  /** One step of the hub and the event it emits, if any. */
  ghost predicate Next(s: HubState, caps: Caps, l: Label, s': HubState, e: Option<Event>) {
    match l
    case Socket(sl) => FreshlyStaged(s, sl) && s' == SocketStep(s, caps, sl) && e == None
    case Control(cl) => ControlNext(s, caps, cl, s', e)
  }
}
