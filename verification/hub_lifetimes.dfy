/** How long a forwarded Offer stays answerable and reservable. Its route and its gate live
    independently: each ends only by its own use, its expiry or the loss of a named socket. */
module HubLifetimes {
  import opened Options
  import opened CorrelationRegistries
  import opened HubProtocol
  import opened HubInvariants
  import opened HubTraces

  // ---------- steps on sockets ----------

  /** The step loses a socket the correlation names, or is the cleanup of one. */
  predicate Uproots(peers': Peers, l: SocketLabel, c: Correlation) {
    !Registered(peers', c) || (l.Remove? && Names(c, l.p.conn))
  }

  ghost predicate ForgetsExactly<K(!new)>(peers': Peers, l: SocketLabel, m: map<K, Correlation>, m': map<K, Correlation>) {
    forall k | k in m :: k in m' <==> !Uproots(peers', l, m[k])
  }

  /** Correlations naming the connection of a device lose it with the device's socket. */
  lemma LostSocket<K(!new)>(peers: Peers, peers': Peers, l: SocketLabel, m: map<K, Correlation>, d: DeviceId)
    requires Distinct(peers) && AllRegistered(peers, m) && d in peers && peers[d].conn != 0 && !l.Remove?
    requires d in peers' ==> peers'[d].conn != peers[d].conn
    requires peers' - {d} == peers - {d}
    ensures ForgetsExactly(peers', l, m, m - Bucket(m, peers[d].conn))
  {
    forall k | k in m
      ensures k in m - Bucket(m, peers[d].conn) <==> Registered(peers', m[k])
    {
      var c := m[k];
      assert Registered(peers, c);
      assert c.initiator != d ==> c.initiator in peers - {d} && c.initiator in peers' - {d};
      assert c.target != d ==> c.target in peers - {d} && c.target in peers' - {d};
    }
  }

  lemma SameSockets<K(!new)>(peers: Peers, l: SocketLabel, m: map<K, Correlation>)
    requires AllRegistered(peers, m) && !l.Remove?
    ensures ForgetsExactly(peers, l, m, m)
  {
  }

  lemma NewSocket<K(!new)>(peers: Peers, p: Peer, l: SocketLabel, m: map<K, Correlation>)
    requires AllRegistered(peers, m) && p.device !in peers && !l.Remove?
    ensures ForgetsExactly(peers[p.device := p], l, m, m)
  {
  }

  ghost predicate BothForgetExactly(s: HubState, l: SocketLabel, s': HubState) {
    ForgetsExactly(s'.peers, l, s.attempts, s'.attempts) && ForgetsExactly(s'.peers, l, s.gates, s'.gates)
  }

  lemma CommitForgets(s: HubState, caps: Caps, l: SocketLabel)
    requires HubInv(s) && l.StageCommit?
    ensures BothForgetExactly(s, l, SocketStep(s, caps, l))
  {
    var p, peers' := l.p, s.peers[l.p.device := l.p];
    SameSockets(s.peers, l, s.attempts);
    SameSockets(s.peers, l, s.gates);
    if Get(s.pending, p.device) == Some(p) {
      if p.device in s.peers {
        assert peers' - {p.device} == s.peers - {p.device};
        LostSocket(s.peers, peers', l, s.attempts, p.device);
        LostSocket(s.peers, peers', l, s.gates, p.device);
      } else {
        NewSocket(s.peers, p, l, s.attempts);
        NewSocket(s.peers, p, l, s.gates);
      }
    }
    hide ForgetsExactly, HubInv;
  }

  lemma DropForgets(s: HubState, l: SocketLabel, d: DeviceId)
    requires HubInv(s) && d in s.peers && !l.Remove?
    ensures BothForgetExactly(s, l, DropPeer(s, s.peers[d]))
  {
    assert (s.peers - {d}) - {d} == s.peers - {d};
    LostSocket(s.peers, s.peers - {d}, l, s.attempts, d);
    LostSocket(s.peers, s.peers - {d}, l, s.gates, d);
    hide ForgetsExactly;
  }

  lemma DisconnectForgets(s: HubState, caps: Caps, l: SocketLabel)
    requires HubInv(s) && (l.DisconnectConnection? || l.DisconnectBefore?)
    ensures BothForgetExactly(s, l, SocketStep(s, caps, l))
  {
    hide ForgetsExactly, HubInv, DropPeer;
    Unmoved(s, l, s);
    if l.device in s.peers {
      DropForgets(s, l, l.device);
    }
  }

  lemma RemovedSocket<K(!new)>(peers: Peers, l: SocketLabel, m: map<K, Correlation>)
    requires AllRegistered(peers, m) && l.Remove?
    ensures ForgetsExactly(peers, l, m, m - Bucket(m, l.p.conn))
    ensures Get(peers, l.p.device) == Some(l.p) && l.p.conn != 0 ==>
      ForgetsExactly(peers - {l.p.device}, l, m, m - Bucket(m, l.p.conn))
  {
  }

  lemma RemoveForgets(s: HubState, caps: Caps, l: SocketLabel)
    requires HubInv(s) && l.Remove?
    ensures BothForgetExactly(s, l, SocketStep(s, caps, l))
  {
    RemovedSocket(s.peers, l, s.attempts);
    RemovedSocket(s.peers, l, s.gates);
    hide ForgetsExactly, CorrelationsCurrent, OffersElsewhere, Distinct, Apart;
  }

  lemma Unmoved(s: HubState, l: SocketLabel, s': HubState)
    requires HubInv(s) && !l.Remove? && s'.peers == s.peers && s'.attempts == s.attempts && s'.gates == s.gates
    ensures BothForgetExactly(s, l, s')
  {
    SameSockets(s.peers, l, s.attempts);
    SameSockets(s.peers, l, s.gates);
    hide ForgetsExactly;
  }

  lemma NoSockets(s: HubState, l: SocketLabel, s': HubState)
    requires s'.peers == map[] && s'.attempts == map[] && s'.gates == map[]
    ensures BothForgetExactly(s, l, s')
  {
  }

  /** A step on sockets forgets exactly the correlations it uproots. */
  lemma SocketForgets(s: HubState, caps: Caps, l: SocketLabel)
    requires HubInv(s)
    ensures BothForgetExactly(s, l, SocketStep(s, caps, l))
  {
    hide HubInv, BothForgetExactly, StageCommitStep, DisconnectConnectionStep, DisconnectBeforeStep, RemoveStep, OnlyForgets;
    match l
    case StageCommit(_, _, _) => CommitForgets(s, caps, l);
    case DisconnectConnection(_, _) => DisconnectForgets(s, caps, l);
    case DisconnectBefore(_, _) => DisconnectForgets(s, caps, l);
    case Remove(_) => RemoveForgets(s, caps, l);
    case CloseHub => NoSockets(s, l, CloseHubStep(s));
    case StageBegin(p) => Unmoved(s, l, StageBeginStep(s, caps, p));
    case Activate(p) => Unmoved(s, l, ActivateStep(s, p));
    case CloseSocket(conn) => Unmoved(s, l, s.(done := s.done + {conn}));
  }

  // ---------- gates ----------

  /** The step takes the gate, uproots it, or may collect it because it has expired. */
  predicate EndsGate(s': HubState, l: Label, key: GateKey, c: Correlation) {
    match l
    case Socket(sl) => Uproots(s'.peers, sl, c)
    case Control(cl) =>
      || (cl.TakeGate? && cl.attempt != 0 && GateKey(cl.p.conn, cl.attempt) == key)
      || ((cl.CommitOffer? || cl.Prune?) && !Live(c, cl.now))
  }

  lemma GateStep(s: HubState, caps: Caps, l: Label, s': HubState, e: Option<Event>, key: GateKey)
    requires HubInv(s) && Next(s, caps, l, s', e) && key in s.gates
    ensures !EndsGate(s', l, key, s.gates[key]) ==> Get(s'.gates, key) == Some(s.gates[key])
    ensures EndsGate(s', l, key, s.gates[key]) && (l.Socket? || l.control.TakeGate?) ==> key !in s'.gates
  {
    match l
    case Socket(sl) =>
      hide HubInv, SocketStep, Uproots, Registered;
      SocketForgets(s, caps, sl);
    case Control(cl) =>
      hide HubInv, ControlNext;
      GateControl(s, caps, cl, s', e, key);
  }

  lemma GateControl(s: HubState, caps: Caps, l: ControlLabel, s': HubState, e: Option<Event>, key: GateKey)
    requires ControlNext(s, caps, l, s', e) && key in s.gates
    ensures !EndsGate(s', Control(l), key, s.gates[key]) ==> Get(s'.gates, key) == Some(s.gates[key])
    ensures EndsGate(s', Control(l), key, s.gates[key]) && l.TakeGate? ==> key !in s'.gates
  {
    hide ControlNext, TakeGateStep, Live, OnlyExpiredDropped, Added;
    if l.CommitOffer? || l.Prune? {
      OfferOrPruneStores(s, caps, l, s', e);
      if Live(s.gates[key], l.now) {
        StoredStays(s.gates, s'.gates, if l.CommitOffer? then GateKey(l.p.conn, l.attempt) else key, key, l.now);
      }
    } else if l.TakeGate? {
      GateTakes(s, caps, l, s', e);
    } else {
      OthersLeaveGates(s, caps, l, s', e);
    }
  }

  lemma GateTakes(s: HubState, caps: Caps, l: ControlLabel, s': HubState, e: Option<Event>)
    requires ControlNext(s, caps, l, s', e) && l.TakeGate?
    ensures s'.gates == if l.attempt == 0 then s.gates else s.gates - {GateKey(l.p.conn, l.attempt)}
    ensures s'.attempts == s.attempts
  {
  }

  lemma OthersLeaveGates(s: HubState, caps: Caps, l: ControlLabel, s': HubState, e: Option<Event>)
    requires ControlNext(s, caps, l, s', e) && !l.CommitOffer? && !l.Prune? && !l.TakeGate?
    ensures s'.gates == s.gates
  {
  }

  /** Committing an Offer and pruning drop expired entries only; the first may add one. */
  lemma OfferOrPruneStores(s: HubState, caps: Caps, l: ControlLabel, s': HubState, e: Option<Event>)
    requires ControlNext(s, caps, l, s', e) && (l.CommitOffer? || l.Prune?)
    ensures
      || (OnlyExpiredDropped(s.attempts, s'.attempts, l.now) && OnlyExpiredDropped(s.gates, s'.gates, l.now))
      || (&& l.CommitOffer? && l.attempt in s'.attempts && GateKey(l.p.conn, l.attempt) in s'.gates
          && Added(s.attempts, s'.attempts, l.attempt, s'.attempts[l.attempt], l.now)
          && Added(s.gates, s'.gates, GateKey(l.p.conn, l.attempt), s'.gates[GateKey(l.p.conn, l.attempt)], l.now))
  {
    hide HasRoom, OnlyExpiredDropped;
  }

  lemma StoredStays<K(!new)>(m: map<K, Correlation>, m': map<K, Correlation>, added: K, key: K, now: int)
    requires key in m && Live(m[key], now)
    ensures OnlyExpiredDropped(m, m', now) ==> Get(m', key) == Some(m[key])
    ensures added in m' && Added(m, m', added, m'[added], now) ==> Get(m', key) == Some(m[key])
  {
    if added in m' && Added(m, m', added, m'[added], now) {
      assert key in m - {added} && key in m' - {added};
    }
  }

  /** A gate stays, whatever answers, errors and other requests come, until a step ends it. */
  lemma {:induction false} GateLasts(caps: Caps, states: seq<HubState>, labels: seq<Label>, h: History, i: nat, n: nat, key: GateKey)
    requires IsRun(caps, states, labels, h) && i <= n <= |labels| && key in states[i].gates
    requires forall k | i <= k < n :: !EndsGate(states[k + 1], labels[k], key, states[i].gates[key])
    ensures Get(states[n].gates, key) == Some(states[i].gates[key])
  {
    hide Next, EndsGate, HubInv;
    if i < n {
      GateLasts(caps, states, labels, h, i, n - 1, key);
      ReachableStatesCurrent(caps, states, labels, h, n - 1);
      GateStep(states[n - 1], caps, labels[n - 1], states[n], h[n - 1], key);
    }
  }

  // ---------- routes ----------

  /** The step returns the attempt's frame, uproots the route, or finds it expired. */
  predicate EndsRoute(s: HubState, s': HubState, l: Label, attempt: AttemptId, c: Correlation) {
    match l
    case Socket(sl) => Uproots(s'.peers, sl, c)
    case Control(cl) =>
      || ((cl.Answer? || cl.AttemptError?) && cl.attempt == attempt && (MayReturn(s, cl.p, c) || !Live(c, cl.now)))
      || ((cl.CommitOffer? || cl.Prune?) && !Live(c, cl.now))
  }

  lemma RouteStep(s: HubState, caps: Caps, l: Label, s': HubState, e: Option<Event>, attempt: AttemptId)
    requires HubInv(s) && Next(s, caps, l, s', e) && attempt in s.attempts
    ensures !EndsRoute(s, s', l, attempt, s.attempts[attempt]) ==> Get(s'.attempts, attempt) == Some(s.attempts[attempt])
    ensures EndsRoute(s, s', l, attempt, s.attempts[attempt]) && (l.Socket? || l.control.Answer? || l.control.AttemptError?) ==>
      attempt !in s'.attempts
  {
    match l
    case Socket(sl) =>
      hide HubInv, SocketStep, Uproots, Registered;
      SocketForgets(s, caps, sl);
    case Control(cl) =>
      hide HubInv, ControlNext;
      RouteFrame(s, caps, cl, s', e, attempt);
  }

  lemma RouteFrame(s: HubState, caps: Caps, l: ControlLabel, s': HubState, e: Option<Event>, attempt: AttemptId)
    requires ControlNext(s, caps, l, s', e) && attempt in s.attempts
    ensures !EndsRoute(s, s', Control(l), attempt, s.attempts[attempt]) ==> Get(s'.attempts, attempt) == Some(s.attempts[attempt])
    ensures EndsRoute(s, s', Control(l), attempt, s.attempts[attempt]) && (l.Answer? || l.AttemptError?) ==> attempt !in s'.attempts
  {
    hide ControlNext, ReturnStep, Live, OnlyExpiredDropped, Added, MayReturn;
    if l.CommitOffer? || l.Prune? {
      OfferOrPruneStores(s, caps, l, s', e);
      if Live(s.attempts[attempt], l.now) {
        StoredStays<AttemptId>(s.attempts, s'.attempts, if l.CommitOffer? then l.attempt else attempt, attempt, l.now);
      }
    } else if l.Answer? || l.AttemptError? {
      FrameReturns(s, caps, l, s', e);
    } else {
      OthersLeaveRoutes(s, caps, l, s', e);
    }
  }

  lemma FrameReturns(s: HubState, caps: Caps, l: ControlLabel, s': HubState, e: Option<Event>)
    requires ControlNext(s, caps, l, s', e) && (l.Answer? || l.AttemptError?)
    ensures s'.attempts ==
      if l.attempt in s.attempts && (MayReturn(s, l.p, s.attempts[l.attempt]) || !Live(s.attempts[l.attempt], l.now))
      then s.attempts - {l.attempt} else s.attempts
  {
    hide MayReturn, ReturnRecipient, OnlyConsumes;
  }

  lemma OthersLeaveRoutes(s: HubState, caps: Caps, l: ControlLabel, s': HubState, e: Option<Event>)
    requires ControlNext(s, caps, l, s', e) && !l.CommitOffer? && !l.Prune? && !l.Answer? && !l.AttemptError?
    ensures s'.attempts == s.attempts
  {
  }

  /** A route stays, whatever reservations and frames of other connections come, until a step ends it. */
  lemma {:induction false} RouteLasts(caps: Caps, states: seq<HubState>, labels: seq<Label>, h: History, i: nat, n: nat, attempt: AttemptId)
    requires IsRun(caps, states, labels, h) && i <= n <= |labels| && attempt in states[i].attempts
    requires forall k | i <= k < n :: !EndsRoute(states[k], states[k + 1], labels[k], attempt, states[i].attempts[attempt])
    ensures Get(states[n].attempts, attempt) == Some(states[i].attempts[attempt])
  {
    hide Next, EndsRoute, HubInv;
    if i < n {
      RouteLasts(caps, states, labels, h, i, n - 1, attempt);
      ReachableStatesCurrent(caps, states, labels, h, n - 1);
      RouteStep(states[n - 1], caps, labels[n - 1], states[n], h[n - 1], attempt);
    }
  }

  // ---------- what a forwarded Offer promises ----------

  /** The correlation a forwarded Offer leaves in both registries. */
  function CorrelationOf(p: Peer, f: Event): Correlation
    requires f.Forwarded?
  {
    Correlation(p.device, p.conn, f.target, f.targetConn, f.at + ATTEMPT_LIFETIME)
  }

  lemma ForwardedStores(s: HubState, caps: Caps, l: Label, s': HubState, e: Option<Event>)
    requires Next(s, caps, l, s', e) && e.Some? && e.value.Forwarded?
    ensures l.Control? && l.control.CommitOffer? && l.control.p.conn == e.value.conn && l.control.attempt == e.value.attempt != 0
    ensures Get(s'.gates, GateKey(e.value.conn, e.value.attempt)) == Some(CorrelationOf(l.control.p, e.value))
    ensures Get(s'.attempts, e.value.attempt) == Some(CorrelationOf(l.control.p, e.value))
  {
    hide HasRoom;
  }

  /** Until its gate ends, a forwarded Offer can be reserved by the socket that sent it, exactly
      while it is live and both sockets are open. */
  lemma OfferStaysReservable(caps: Caps, states: seq<HubState>, labels: seq<Label>, h: History, j: nat, n: nat, p: Peer, now: int)
    requires IsRun(caps, states, labels, h) && j < n <= |labels| && IsForwarded(h, j)
    requires labels[j].Control? && labels[j].control.CommitOffer? && labels[j].control.p == p && p !in states[n].reserving
    requires var f := h[j].value;
      forall k | j < k < n :: !EndsGate(states[k + 1], labels[k], GateKey(f.conn, f.attempt), CorrelationOf(p, f))
    ensures var f := h[j].value;
      p in TakeGateStep(states[n], p, f.attempt, f.target, now).reserving <==>
        && now < f.at + ATTEMPT_LIFETIME && Get(states[n].peers, p.device) == Some(p) && Open(states[n], p)
        && f.target in states[n].peers && Open(states[n], states[n].peers[f.target])
  {
    hide EndsGate, HubInv;
    var f := h[j].value;
    ForwardedStores(states[j], caps, labels[j], states[j + 1], h[j]);
    hide Next;
    GateLasts(caps, states, labels, h, j + 1, n, GateKey(f.conn, f.attempt));
    ReachableStatesCurrent(caps, states, labels, h, n);
    CurrentGate(states[n], GateKey(f.conn, f.attempt));
  }

  lemma CurrentGate(s: HubState, key: GateKey)
    requires HubInv(s) && key in s.gates
    ensures Registered(s.peers, s.gates[key]) && s.peers[s.gates[key].target].device == s.gates[key].target
  {
  }

  /** Until its route ends, a forwarded Offer can be answered by the socket it was sent to, exactly
      while it is live and the initiator's socket routes frames. */
  lemma OfferStaysAnswerable(caps: Caps, states: seq<HubState>, labels: seq<Label>, h: History, j: nat, n: nat, p: Peer, now: int)
    requires IsRun(caps, states, labels, h) && j < n <= |labels| && IsForwarded(h, j)
    requires labels[j].Control? && labels[j].control.CommitOffer? && labels[j].control.p == p
    requires var f := h[j].value;
      forall k | j < k < n :: !EndsRoute(states[k], states[k + 1], labels[k], f.attempt, CorrelationOf(p, f))
    ensures var f := h[j].value;
      f.target in states[n].peers &&
      (ReturnStep(states[n], states[n].peers[f.target], f.attempt, now).1 == Some(Returned(f.attempt, f.targetConn, f.conn, now)) <==>
        now < f.at + ATTEMPT_LIFETIME && p.conn in states[n].active)
  {
    hide EndsRoute, HubInv;
    var f := h[j].value;
    ForwardedStores(states[j], caps, labels[j], states[j + 1], h[j]);
    hide Next;
    RouteLasts(caps, states, labels, h, j + 1, n, f.attempt);
    ReachableStatesCurrent(caps, states, labels, h, n);
    CurrentRoute(states[n], f.attempt);
  }

  lemma CurrentRoute(s: HubState, attempt: AttemptId)
    requires HubInv(s) && attempt in s.attempts
    ensures Registered(s.peers, s.attempts[attempt]) && s.peers[s.attempts[attempt].target].device == s.attempts[attempt].target
  {
  }
}
