/** What every hub step keeps: a well-formed peer table and, through every replacement,
    disconnect and removal, correlations that name only the connections registered now. */
module HubInvariants {
  import opened Options
  import opened CorrelationRegistries
  import opened HubProtocol

  type Peers = map<DeviceId, Peer>

  /** The connections a correlation names are exactly the ones registered now. */
  predicate Registered(peers: Peers, c: Correlation) {
    && c.initiator in peers && peers[c.initiator].conn == c.initiatorConn
    && c.target in peers && peers[c.target].conn == c.targetConn
    && c.initiator != c.target
  }

  ghost predicate Known(peers: Peers, used: set<ConnId>) {
    forall d | d in peers :: peers[d].device == d && peers[d].conn != 0 && peers[d].conn in used
  }

  ghost predicate Distinct(peers: Peers) {
    forall d, d' | d in peers && d' in peers && peers[d].conn == peers[d'].conn :: d == d'
  }

  ghost predicate Apart(peers: Peers, pending: Peers) {
    forall d, d' | d in peers && d' in pending :: peers[d].conn != pending[d'].conn
  }

  /** A device has at most one registered and one staged socket; a connection id is never shared. */
  ghost predicate PeersWellFormed(peers: Peers, pending: Peers, used: set<ConnId>) {
    && Known(peers, used) && Known(pending, used) && Distinct(peers) && Distinct(pending) && Apart(peers, pending)
  }

  ghost predicate AllRegistered<K(!new)>(peers: Peers, m: map<K, Correlation>) {
    forall k | k in m :: Registered(peers, m[k])
  }

  ghost predicate OffersElsewhere(offering: map<Peer, Offering>) {
    forall p | p in offering :: offering[p].target != p.device
  }

  ghost predicate HubInv(s: HubState) {
    && PeersWellFormed(s.peers, s.pending, s.used)
    && CorrelationsCurrent(s) && OffersElsewhere(s.offering)
  }

  // ---------- the peer table ----------

  lemma FewerPeers(peers: Peers, pending: Peers, used: set<ConnId>, peers': Peers, pending': Peers)
    requires PeersWellFormed(peers, pending, used)
    requires Submap(peers', peers) && Submap(pending', pending)
    ensures PeersWellFormed(peers', pending', used)
  {
  }

  lemma StagedPeer(peers: Peers, pending: Peers, used: set<ConnId>, p: Peer)
    requires PeersWellFormed(peers, pending, used) && p.conn != 0 && p.conn !in used
    ensures PeersWellFormed(peers, pending[p.device := p], used + {p.conn})
    ensures PeersWellFormed(peers, pending, used + {p.conn})
  {
  }

  lemma CommittedPeer(peers: Peers, pending: Peers, used: set<ConnId>, p: Peer)
    requires PeersWellFormed(peers, pending, used) && Get(pending, p.device) == Some(p)
    ensures PeersWellFormed(peers[p.device := p], pending - {p.device}, used)
  {
  }

  lemma StageCommitPeers(s: HubState, caps: Caps, p: Peer, previous: Option<Peer>, leased: bool)
    requires PeersWellFormed(s.peers, s.pending, s.used)
    ensures var s' := StageCommitStep(s, caps, p, previous, leased); PeersWellFormed(s'.peers, s'.pending, s'.used)
  {
    if Get(s.pending, p.device) == Some(p) {
      CommittedPeer(s.peers, s.pending, s.used, p);
      FewerPeers(s.peers, s.pending, s.used, s.peers, s.pending - {p.device});
    }
  }

  lemma DisconnectPeers(s: HubState, d: DeviceId, cutoff: int)
    requires PeersWellFormed(s.peers, s.pending, s.used)
    ensures var s' := DisconnectBeforeStep(s, d, cutoff); PeersWellFormed(s'.peers, s'.pending, s'.used)
    ensures PeersWellFormed(s.peers - {d}, s.pending, s.used)
  {
    assert d in s.peers ==> s.peers[d].device == d;
    hide PeersWellFormed, Known, Distinct, Apart;
    FewerPeers(s.peers, s.pending, s.used, s.peers - {d}, s.pending);
    FewerPeers(s.peers, s.pending, s.used, s.peers - {d}, s.pending - {d});
    FewerPeers(s.peers, s.pending, s.used, s.peers, s.pending - {d});
  }

  lemma DirectedPeers(s: HubState, d: DeviceId, conn: ConnId)
    requires PeersWellFormed(s.peers, s.pending, s.used)
    ensures var s' := DisconnectConnectionStep(s, d, conn); PeersWellFormed(s'.peers, s'.pending, s'.used)
  {
    FewerPeers(s.peers, s.pending, s.used, s.peers - {d}, s.pending);
    assert d in s.peers ==> s.peers[d].device == d;
  }

  lemma RemovedPeers(s: HubState, p: Peer)
    requires PeersWellFormed(s.peers, s.pending, s.used)
    ensures var s' := RemoveStep(s, p); PeersWellFormed(s'.peers, s'.pending, s'.used)
  {
    FewerPeers(s.peers, s.pending, s.used, s.peers - {p.device}, s.pending);
  }

  lemma SocketStepPeers(s: HubState, caps: Caps, l: SocketLabel)
    requires PeersWellFormed(s.peers, s.pending, s.used) && FreshlyStaged(s, l)
    ensures var s' := SocketStep(s, caps, l); PeersWellFormed(s'.peers, s'.pending, s'.used)
  {
    hide PeersWellFormed, Known, Distinct, Apart, StageCommitStep, DisconnectConnectionStep, DisconnectBeforeStep, RemoveStep;
    match l
    case StageBegin(p) => StagedPeer(s.peers, s.pending, s.used, p);
    case StageCommit(p, previous, leased) => StageCommitPeers(s, caps, p, previous, leased);
    case DisconnectConnection(d, conn) => DirectedPeers(s, d, conn);
    case DisconnectBefore(d, cutoff) => DisconnectPeers(s, d, cutoff);
    case Remove(p) => RemovedPeers(s, p);
    case CloseHub => FewerPeers(s.peers, s.pending, s.used, map[], map[]);
    case Activate(p) =>
    case CloseSocket(conn) =>
  }

  // ---------- correlations ----------

  /** Without the entries naming `conn`, losing or replacing the socket of `conn` leaves no
      stale correlation behind. */
  lemma ForgottenRegistered<K(!new)>(peers: Peers, peers': Peers, m: map<K, Correlation>, conn: ConnId)
    requires AllRegistered(peers, m) && conn != 0
    requires forall d | d in peers && peers[d].conn != conn :: d in peers' && peers'[d] == peers[d]
    ensures AllRegistered(peers', m - Bucket(m, conn))
  {
  }

  /** A socket for a device that had none cannot disturb any correlation. */
  lemma NewPeerRegistered<K(!new)>(peers: Peers, m: map<K, Correlation>, p: Peer)
    requires AllRegistered(peers, m) && p.device !in peers
    ensures AllRegistered(peers[p.device := p], m)
  {
  }

  lemma StageCommitForgets<K(!new)>(s: HubState, p: Peer, previous: Option<Peer>, m: map<K, Correlation>)
    requires AllRegistered(s.peers, m) && Known(s.peers, s.used) && Get(s.peers, p.device) == previous
    ensures AllRegistered(s.peers[p.device := p], if previous.Some? then m - Bucket(m, previous.value.conn) else m)
  {
    if previous.Some? {
      ForgottenRegistered(s.peers, s.peers[p.device := p], m, previous.value.conn);
    } else {
      NewPeerRegistered(s.peers, m, p);
    }
  }

  lemma DroppedForgets<K(!new)>(peers: Peers, used: set<ConnId>, d: DeviceId, m: map<K, Correlation>)
    requires AllRegistered(peers, m) && Known(peers, used) && d in peers
    ensures AllRegistered(peers - {d}, m - Bucket(m, peers[d].conn))
  {
    ForgottenRegistered(peers, peers - {d}, m, peers[d].conn);
  }

  lemma RemovedForgets<K(!new)>(peers: Peers, p: Peer, m: map<K, Correlation>)
    requires AllRegistered(peers, m)
    requires Get(peers, p.device) == Some(p) ==> p.conn != 0
    ensures AllRegistered(peers, m - Bucket(m, p.conn))
    ensures Get(peers, p.device) == Some(p) ==> AllRegistered(peers - {p.device}, m - Bucket(m, p.conn))
  {
    if Get(peers, p.device) == Some(p) {
      ForgottenRegistered(peers, peers - {p.device}, m, p.conn);
    }
  }

  ghost predicate CorrelationsCurrent(s: HubState) {
    AllRegistered(s.peers, s.attempts) && AllRegistered(s.peers, s.gates)
  }

  lemma StageCommitCurrent(s: HubState, caps: Caps, p: Peer, previous: Option<Peer>, leased: bool)
    requires Known(s.peers, s.used) && CorrelationsCurrent(s)
    ensures CorrelationsCurrent(StageCommitStep(s, caps, p, previous, leased))
  {
    if Get(s.peers, p.device) == previous {
      StageCommitForgets(s, p, previous, s.attempts);
      StageCommitForgets(s, p, previous, s.gates);
    }
  }

  lemma DroppedCurrent(s: HubState, d: DeviceId)
    requires Known(s.peers, s.used) && CorrelationsCurrent(s) && d in s.peers
    ensures CorrelationsCurrent(DropPeer(s, s.peers[d]))
  {
    DroppedForgets(s.peers, s.used, d, s.attempts);
    DroppedForgets(s.peers, s.used, d, s.gates);
  }

  lemma RemovedCurrent(s: HubState, p: Peer)
    requires Known(s.peers, s.used) && CorrelationsCurrent(s)
    ensures CorrelationsCurrent(RemoveStep(s, p))
  {
    RemovedForgets(s.peers, p, s.attempts);
    RemovedForgets(s.peers, p, s.gates);
  }

  lemma NothingRegistered(peers: Peers)
    ensures AllRegistered<AttemptId>(peers, map[]) && AllRegistered<GateKey>(peers, map[])
  {
  }

  /** Replacement, directed disconnect, generation disconnect, removal and shutdown. */
  lemma SocketStepCurrent(s: HubState, caps: Caps, l: SocketLabel)
    requires Known(s.peers, s.used) && CorrelationsCurrent(s)
    ensures CorrelationsCurrent(SocketStep(s, caps, l))
  {
    hide AllRegistered, Known, DropPeer, RemoveStep, StageCommitStep;
    match l
    case StageBegin(p) =>
    case StageCommit(p, previous, leased) => StageCommitCurrent(s, caps, p, previous, leased);
    case DisconnectConnection(d, conn) => if d in s.peers { DroppedCurrent(s, d); }
    case DisconnectBefore(d, cutoff) => if d in s.peers { DroppedCurrent(s, d); }
    case Remove(p) => RemovedCurrent(s, p);
    case CloseHub => NothingRegistered(map[]);
    case Activate(p) =>
    case CloseSocket(conn) =>
  }

  lemma OthersKept<K(!new)>(m: map<K, Correlation>, m': map<K, Correlation>, key: K, c: Correlation, now: int)
    requires Added(m, m', key, c, now)
    ensures forall k | k in m' && k != key :: k in m && m'[k] == m[k]
  {
    forall k | k in m' && k != key
      ensures k in m && m'[k] == m[k]
    {
      assert k in m' - {key};
    }
  }

  lemma AddedRegistered<K(!new)>(peers: Peers, m: map<K, Correlation>, m': map<K, Correlation>, key: K, c: Correlation, now: int)
    requires AllRegistered(peers, m) && Registered(peers, c) && Added(m, m', key, c, now)
    ensures AllRegistered(peers, m')
  {
    OthersKept(m, m', key, c, now);
  }

  lemma OfferCorrelates(s: HubState, caps: Caps, l: ControlLabel, s': HubState, e: Option<Event>)
    requires HubInv(s) && l.CommitOffer? && ControlNext(s, caps, l, s', e)
    ensures CorrelationsCurrent(s')
  {
    if e.Some? {
      var c := OfferCorrelation(s, l.p, l.now);
      assert Registered(s.peers, c);
      AddedRegistered(s.peers, s.attempts, s'.attempts, l.attempt, c, l.now);
      AddedRegistered(s.peers, s.gates, s'.gates, GateKey(l.p.conn, l.attempt), c, l.now);
    }
  }

  lemma ControlStepCurrent(s: HubState, caps: Caps, l: ControlLabel, s': HubState, e: Option<Event>)
    requires HubInv(s) && ControlNext(s, caps, l, s', e)
    ensures CorrelationsCurrent(s')
  {
    if l.CommitOffer? {
      OfferCorrelates(s, caps, l, s', e);
    } else {
      ControlStepShrinks(s, caps, l, s', e);
    }
  }

  /** Apart from a forwarded Offer, no handler adds a correlation. */
  lemma ControlStepShrinks(s: HubState, caps: Caps, l: ControlLabel, s': HubState, e: Option<Event>)
    requires ControlNext(s, caps, l, s', e) && !l.CommitOffer?
    ensures OnlyConsumes(s, s')
  {
  }

  lemma ControlStepOffers(s: HubState, caps: Caps, l: ControlLabel, s': HubState, e: Option<Event>)
    requires OffersElsewhere(s.offering) && ControlNext(s, caps, l, s', e)
    ensures OffersElsewhere(s'.offering)
    ensures s'.peers == s.peers && s'.pending == s.pending && s'.used == s.used
  {
  }

  /** Every hub step keeps the peer table well formed and every correlation current. */
  lemma HubStep(s: HubState, caps: Caps, l: Label, s': HubState, e: Option<Event>)
    requires HubInv(s) && Next(s, caps, l, s', e)
    ensures HubInv(s')
  {
    match l
    case Socket(sl) =>
      SocketStepPeers(s, caps, sl);
      SocketStepCurrent(s, caps, sl);
    case Control(cl) =>
      ControlStepCurrent(s, caps, cl, s', e);
      ControlStepOffers(s, caps, cl, s', e);
  }
}
