/** Whole-trace accounting of the handshake: every one-shot token is spent at most once, so
    forwarded Offers pair off with READY Resolves, and created reservations and return frames
    pair off with forwarded Offers. */
module HubTraces {
  import opened Options
  import opened CorrelationRegistries
  import opened HubProtocol
  import opened HubInvariants

  /** The event of each step of a run, in order. */
  type History = seq<Option<Event>>

  ghost predicate IsRun(caps: Caps, states: seq<HubState>, labels: seq<Label>, h: History) {
    && |states| == |labels| + 1 == |h| + 1
    && states[0] == INITIAL
    && forall i | 0 <= i < |labels| :: Next(states[i], caps, labels[i], states[i + 1], h[i])
  }

  /** Every reachable hub state is well formed and correlates only registered connections. */
  lemma {:induction false} ReachableStatesCurrent(caps: Caps, states: seq<HubState>, labels: seq<Label>, h: History, n: nat)
    requires IsRun(caps, states, labels, h) && n <= |labels|
    ensures HubInv(states[n])
  {
    if n > 0 {
      ReachableStatesCurrent(caps, states, labels, h, n - 1);
      HubStep(states[n - 1], caps, labels[n - 1], states[n], h[n - 1]);
    }
  }

  // ---------- one-shot tokens ----------

  /** Where the right earned by one earlier event is now: held by a token, carried by a handler,
      or spent by the event of a later step. */
  datatype Holder =
    | Ticketed(conn: ConnId) | Offered(p: Peer) | Spent(step: nat)
    | Gated(key: GateKey) | Claimed(p: Peer)
    | Routed(attempt: AttemptId)

  type Ledger = map<Holder, nat>

  /** No two holders derive from one event, and every event lies in the past. */
  ghost predicate OneShot(m: Ledger, n: nat) {
    && (forall a | a in m :: m[a] < n)
    && (forall a, b | a in m && b in m && m[a] == m[b] :: a == b)
  }

  lemma Issue(m: Ledger, n: nat, a: Holder)
    requires OneShot(m, n)
    ensures OneShot(m[a := n], n + 1)
  {
  }

  function Moved(m: Ledger, a: Holder, b: Holder): Ledger
    requires a in m
  {
    (m - {a})[b := m[a]]
  }

  lemma Move(m: Ledger, n: nat, a: Holder, b: Holder)
    requires OneShot(m, n) && a in m
    ensures OneShot(Moved(m, a, b), n + 1)
  {
  }

  // ---------- Resolve -> Offer ----------

  predicate ResolvedAt(h: History, j: nat, conn: ConnId, target: DeviceId, at: int) {
    j < |h| && h[j] == Some(Resolved(conn, target, at))
  }

  /** Step `j` resolved the target for the connection less than the ticket lifetime before `t`. */
  predicate ResolvedBefore(h: History, j: nat, conn: ConnId, target: DeviceId, t: int) {
    && j < |h| && h[j].Some? && h[j].value.Resolved?
    && h[j].value.conn == conn && h[j].value.target == target && t < h[j].value.at + ATTEMPT_LIFETIME
  }

  predicate IsForwarded(h: History, i: nat) { i < |h| && h[i].Some? && h[i].value.Forwarded? }

  ghost predicate TicketsEarned(tickets: map<ConnId, Ticket>, h: History, m: Ledger) {
    forall c | c in tickets :: Ticketed(c) in m
      && ResolvedAt(h, m[Ticketed(c)], c, tickets[c].target, tickets[c].expiresAt - ATTEMPT_LIFETIME)
  }

  ghost predicate OfferingsEarned(offering: map<Peer, Offering>, h: History, m: Ledger) {
    forall p | p in offering :: Offered(p) in m
      && ResolvedBefore(h, m[Offered(p)], p.conn, offering[p].target, offering[p].takenAt)
  }

  ghost predicate OffersEarned(h: History, m: Ledger) {
    forall i: nat | IsForwarded(h, i) :: Spent(i) in m && m[Spent(i)] < i
      && ResolvedBefore(h, m[Spent(i)], h[i].value.conn, h[i].value.target, h[i].value.takenAt)
  }

  ghost predicate ResolveLedger(s: HubState, h: History, m: Ledger) {
    TicketsEarned(s.tickets, h, m) && OfferingsEarned(s.offering, h, m) && OffersEarned(h, m)
  }

  /** A step that issues or spends nothing leaves the ledger as it is. */
  lemma ResolveIdle(s: HubState, s': HubState, e: Option<Event>, h: History, m: Ledger)
    requires ResolveLedger(s, h, m)
    requires Submap(s'.tickets, s.tickets) && Submap(s'.offering, s.offering)
    requires e.Some? ==> !e.value.Forwarded?
    ensures ResolveLedger(s', h + [e], m)
  {
  }

  lemma ResolveIssue(s: HubState, p: Peer, target: DeviceId, now: int, h: History, m: Ledger)
    requires ResolveLedger(s, h, m)
    ensures ResolveLedger(ResolveReadyStep(s, p, target, now), h + [Some(Resolved(p.conn, target, now))], m[Ticketed(p.conn) := |h|])
  {
  }

  lemma ResolveTake(s: HubState, p: Peer, now: int, h: History, m: Ledger, s': HubState)
    requires ResolveLedger(s, h, m) && p.conn in s.tickets && now < s.tickets[p.conn].expiresAt
    requires s'.tickets == s.tickets - {p.conn} && s'.offering == s.offering[p := Offering(s.tickets[p.conn].target, now)]
    ensures Ticketed(p.conn) in m
    ensures ResolveLedger(s', h + [None], Moved(m, Ticketed(p.conn), Offered(p)))
  {
    TicketTaken(s.tickets, p, h, m);
    TicketHeld(s.tickets, s.offering, p, now, h, m);
    hide TicketsEarned, OfferingsEarned;
  }

  lemma TicketTaken(tickets: map<ConnId, Ticket>, p: Peer, h: History, m: Ledger)
    requires TicketsEarned(tickets, h, m) && p.conn in tickets
    ensures TicketsEarned(tickets - {p.conn}, h + [None], Moved(m, Ticketed(p.conn), Offered(p)))
  {
  }

  lemma TicketHeld(tickets: map<ConnId, Ticket>, offering: map<Peer, Offering>, p: Peer, now: int, h: History, m: Ledger)
    requires TicketsEarned(tickets, h, m) && OfferingsEarned(offering, h, m) && p.conn in tickets && now < tickets[p.conn].expiresAt
    ensures OfferingsEarned(offering[p := Offering(tickets[p.conn].target, now)], h + [None], Moved(m, Ticketed(p.conn), Offered(p)))
  {
    assert ResolvedAt(h, m[Ticketed(p.conn)], p.conn, tickets[p.conn].target, tickets[p.conn].expiresAt - ATTEMPT_LIFETIME);
  }

  lemma ResolveSpend(s: HubState, p: Peer, e: Event, h: History, m: Ledger, s': HubState)
    requires ResolveLedger(s, h, m) && p in s.offering && e.Forwarded?
    requires e.conn == p.conn && e.target == s.offering[p].target && e.takenAt == s.offering[p].takenAt
    requires s'.tickets == s.tickets && s'.offering == s.offering - {p}
    ensures Offered(p) in m
    ensures ResolveLedger(s', h + [Some(e)], Moved(m, Offered(p), Spent(|h|)))
  {
  }

  lemma ResolveControl(s: HubState, caps: Caps, l: ControlLabel, s': HubState, e: Option<Event>, h: History, m: Ledger) returns (m': Ledger)
    requires ResolveLedger(s, h, m) && OneShot(m, |h|) && ControlNext(s, caps, l, s', e)
    ensures ResolveLedger(s', h + [e], m') && OneShot(m', |h| + 1)
  {
    m' := m;
    if l.ResolveReady? {
      m' := m[Ticketed(l.p.conn) := |h|];
      ResolveIssue(s, l.p, l.target, l.now, h, m);
      Issue(m, |h|, Ticketed(l.p.conn));
    } else if l.TakeTicket? && l.p in s'.offering {
      ResolveTake(s, l.p, l.now, h, m, s');
      m' := Moved(m, Ticketed(l.p.conn), Offered(l.p));
      Move(m, |h|, Ticketed(l.p.conn), Offered(l.p));
    } else if l.CommitOffer? && e.Some? {
      ResolveSpend(s, l.p, e.value, h, m, s');
      m' := Moved(m, Offered(l.p), Spent(|h|));
      Move(m, |h|, Offered(l.p), Spent(|h|));
    } else {
      ResolveUntouched(s, caps, l, s', e);
      ResolveIdle(s, s', e, h, m);
    }
  }

  lemma ResolveUntouched(s: HubState, caps: Caps, l: ControlLabel, s': HubState, e: Option<Event>)
    requires ControlNext(s, caps, l, s', e)
    requires !l.ResolveReady? && !(l.TakeTicket? && l.p in s'.offering) && !(l.CommitOffer? && e.Some?)
    ensures Submap(s'.tickets, s.tickets) && Submap(s'.offering, s.offering)
    ensures e.Some? ==> !e.value.Forwarded?
  {
    hide Forwardable, HasRoom, Added, OnlyExpiredDropped;
  }

  /** The matching of forwarded Offers with READY Resolves: same connection, same target, the
      ticket taken within its lifetime, no Resolve used twice. */
  ghost predicate OffersMatchResolves(h: History, f: map<nat, nat>) {
    && (forall i: nat :: i in f <==> IsForwarded(h, i))
    && (forall i | i in f :: f[i] < i && ResolvedBefore(h, f[i], h[i].value.conn, h[i].value.target, h[i].value.takenAt))
    && (forall i, j | i in f && j in f && f[i] == f[j] :: i == j)
  }

  lemma {:induction false} ResolveRun(caps: Caps, states: seq<HubState>, labels: seq<Label>, h: History, n: nat) returns (m: Ledger)
    requires IsRun(caps, states, labels, h) && n <= |labels|
    ensures ResolveLedger(states[n], h[..n], m) && OneShot(m, n)
  {
    m := map[];
    if n > 0 {
      m := ResolveRun(caps, states, labels, h, n - 1);
      var s, s', e := states[n - 1], states[n], h[n - 1];
      assert h[..n] == h[..n - 1] + [e];
      match labels[n - 1]
      case Socket(l) => ResolveIdle(s, s', e, h[..n - 1], m);
      case Control(l) => m := ResolveControl(s, caps, l, s', e, h[..n - 1], m);
    }
  }

  /** In every run the forwarded Offers map one-to-one to earlier READY Resolves. */
  lemma ForwardedOffersMatchResolves(caps: Caps, states: seq<HubState>, labels: seq<Label>, h: History)
    requires IsRun(caps, states, labels, h)
    ensures exists f :: OffersMatchResolves(h, f)
  {
    var m := ResolveRun(caps, states, labels, h, |labels|);
    assert h[..|labels|] == h;
    var f := map i: nat | 0 <= i < |h| && IsForwarded(h, i) :: m[Spent(i)];
    forall i, j | i in f && j in f && f[i] == f[j]
      ensures i == j
    {
      assert Spent(i) == Spent(j);
    }
    assert OffersMatchResolves(h, f);
  }

  // ---------- Offer -> Reserve ----------

  predicate ForwardedAt(h: History, j: nat, conn: ConnId, attempt: AttemptId, target: DeviceId, targetConn: ConnId, at: int) {
    && IsForwarded(h, j) && h[j].value.conn == conn && h[j].value.attempt == attempt
    && h[j].value.target == target && h[j].value.targetConn == targetConn && h[j].value.at == at
  }

  predicate ForwardedBefore(h: History, j: nat, conn: ConnId, attempt: AttemptId, target: DeviceId, targetConn: ConnId, t: int) {
    && IsForwarded(h, j) && h[j].value.conn == conn && h[j].value.attempt == attempt
    && h[j].value.target == target && h[j].value.targetConn == targetConn && t < h[j].value.at + ATTEMPT_LIFETIME
  }

  predicate IsReserved(h: History, i: nat) { i < |h| && h[i].Some? && h[i].value.Reserved? }

  ghost predicate GatesEarned(gates: map<GateKey, Correlation>, h: History, m: Ledger) {
    forall k | k in gates :: Gated(k) in m
      && ForwardedAt(h, m[Gated(k)], k.conn, k.attempt, gates[k].target, gates[k].targetConn, gates[k].expiresAt - ATTEMPT_LIFETIME)
  }

  ghost predicate ClaimsEarned(reserving: map<Peer, Reserving>, h: History, m: Ledger) {
    forall p | p in reserving :: Claimed(p) in m
      && ForwardedBefore(h, m[Claimed(p)], p.conn, reserving[p].attempt, reserving[p].gate.target,
                         reserving[p].gate.targetConn, reserving[p].takenAt)
  }

  ghost predicate ReservationsEarned(h: History, m: Ledger) {
    forall i: nat | IsReserved(h, i) :: Spent(i) in m && m[Spent(i)] < i
      && ForwardedBefore(h, m[Spent(i)], h[i].value.conn, h[i].value.attempt, h[i].value.target,
                         h[i].value.targetConn, h[i].value.takenAt)
  }

  ghost predicate ReserveLedger(s: HubState, h: History, m: Ledger) {
    GatesEarned(s.gates, h, m) && ClaimsEarned(s.reserving, h, m) && ReservationsEarned(h, m)
  }

  lemma ReserveIdle(s: HubState, s': HubState, e: Option<Event>, h: History, m: Ledger)
    requires ReserveLedger(s, h, m)
    requires Submap(s'.gates, s.gates) && Submap(s'.reserving, s.reserving)
    requires e.Some? ==> !e.value.Reserved?
    ensures ReserveLedger(s', h + [e], m)
  {
  }

  lemma ReserveIssue(s: HubState, e: Event, c: Correlation, now: int, h: History, m: Ledger, s': HubState)
    requires ReserveLedger(s, h, m) && e.Forwarded?
    requires e.target == c.target && e.targetConn == c.targetConn && e.at == c.expiresAt - ATTEMPT_LIFETIME
    requires Added(s.gates, s'.gates, GateKey(e.conn, e.attempt), c, now) && s'.reserving == s.reserving
    ensures ReserveLedger(s', h + [Some(e)], m[Gated(GateKey(e.conn, e.attempt)) := |h|])
  {
    var key, h' := GateKey(e.conn, e.attempt), h + [Some(e)];
    assert ForwardedAt(h', |h|, key.conn, key.attempt, c.target, c.targetConn, e.at);
    OthersKept(s.gates, s'.gates, key, c, now);
  }

  lemma ReserveTake(s: HubState, p: Peer, key: GateKey, now: int, h: History, m: Ledger, s': HubState)
    requires ReserveLedger(s, h, m) && key in s.gates && key.conn == p.conn && Live(s.gates[key], now)
    requires s'.gates == s.gates - {key} && s'.reserving == s.reserving[p := Reserving(key.attempt, s.gates[key], now)]
    ensures Gated(key) in m
    ensures ReserveLedger(s', h + [None], Moved(m, Gated(key), Claimed(p)))
  {
    GateTaken(s.gates, p, key, h, m);
    GateHeld(s.gates, s.reserving, p, key, now, h, m);
    hide GatesEarned, ClaimsEarned;
  }

  lemma GateTaken(gates: map<GateKey, Correlation>, p: Peer, key: GateKey, h: History, m: Ledger)
    requires GatesEarned(gates, h, m) && key in gates
    ensures GatesEarned(gates - {key}, h + [None], Moved(m, Gated(key), Claimed(p)))
  {
  }

  lemma GateHeld(gates: map<GateKey, Correlation>, reserving: map<Peer, Reserving>, p: Peer, key: GateKey, now: int, h: History, m: Ledger)
    requires GatesEarned(gates, h, m) && ClaimsEarned(reserving, h, m) && key in gates && key.conn == p.conn && Live(gates[key], now)
    ensures ClaimsEarned(reserving[p := Reserving(key.attempt, gates[key], now)], h + [None], Moved(m, Gated(key), Claimed(p)))
  {
    assert ForwardedAt(h, m[Gated(key)], key.conn, key.attempt, gates[key].target, gates[key].targetConn,
                       gates[key].expiresAt - ATTEMPT_LIFETIME);
  }

  lemma ReserveSpend(s: HubState, p: Peer, h: History, m: Ledger)
    requires ReserveLedger(s, h, m) && p in s.reserving
    ensures Claimed(p) in m
    ensures var (s', e) := FinishReserveStep(s, p, true);
            ReserveLedger(s', h + [e], Moved(m, Claimed(p), Spent(|h|)))
  {
  }

  lemma ReserveUntouched(s: HubState, caps: Caps, l: ControlLabel, s': HubState, e: Option<Event>)
    requires ControlNext(s, caps, l, s', e)
    requires !(l.CommitOffer? && e.Some?) && !(l.TakeGate? && l.p in s'.reserving) && !(l.FinishReserve? && l.created)
    ensures Submap(s'.gates, s.gates) && Submap(s'.reserving, s.reserving)
    ensures e.Some? ==> !e.value.Reserved?
  {
    hide Forwardable, HasRoom, Added;
  }

  lemma ReserveControl(s: HubState, caps: Caps, l: ControlLabel, s': HubState, e: Option<Event>, h: History, m: Ledger) returns (m': Ledger)
    requires ReserveLedger(s, h, m) && OneShot(m, |h|) && ControlNext(s, caps, l, s', e)
    ensures ReserveLedger(s', h + [e], m') && OneShot(m', |h| + 1)
  {
    m' := m;
    if l.CommitOffer? && e.Some? {
      var key := GateKey(l.p.conn, l.attempt);
      m' := m[Gated(key) := |h|];
      ReserveIssue(s, e.value, OfferCorrelation(s, l.p, l.now), l.now, h, m, s');
      Issue(m, |h|, Gated(key));
    } else if l.TakeGate? && l.p in s'.reserving {
      var key := GateKey(l.p.conn, l.attempt);
      ReserveTake(s, l.p, key, l.now, h, m, s');
      m' := Moved(m, Gated(key), Claimed(l.p));
      Move(m, |h|, Gated(key), Claimed(l.p));
    } else if l.FinishReserve? && l.created {
      ReserveSpend(s, l.p, h, m);
      m' := Moved(m, Claimed(l.p), Spent(|h|));
      Move(m, |h|, Claimed(l.p), Spent(|h|));
    } else {
      ReserveUntouched(s, caps, l, s', e);
      ReserveIdle(s, s', e, h, m);
    }
  }

  /** The matching of created reservations with forwarded Offers: same initiator connection,
      attempt, target device and target connection, the gate taken within its lifetime, no
      Offer used twice. */
  ghost predicate ReservationsMatchOffers(h: History, f: map<nat, nat>) {
    && (forall i: nat :: i in f <==> IsReserved(h, i))
    && (forall i | i in f :: f[i] < i && ForwardedBefore(h, f[i], h[i].value.conn, h[i].value.attempt,
                                                         h[i].value.target, h[i].value.targetConn, h[i].value.takenAt))
    && (forall i, j | i in f && j in f && f[i] == f[j] :: i == j)
  }

  lemma {:induction false} ReserveRun(caps: Caps, states: seq<HubState>, labels: seq<Label>, h: History, n: nat) returns (m: Ledger)
    requires IsRun(caps, states, labels, h) && n <= |labels|
    ensures ReserveLedger(states[n], h[..n], m) && OneShot(m, n)
  {
    m := map[];
    if n > 0 {
      m := ReserveRun(caps, states, labels, h, n - 1);
      var s, s', e := states[n - 1], states[n], h[n - 1];
      assert h[..n] == h[..n - 1] + [e];
      match labels[n - 1]
      case Socket(l) => ReserveIdle(s, s', e, h[..n - 1], m);
      case Control(l) => m := ReserveControl(s, caps, l, s', e, h[..n - 1], m);
    }
  }

  /** In every run the created reservations map one-to-one to earlier forwarded Offers. */
  lemma CreatedReservationsMatchOffers(caps: Caps, states: seq<HubState>, labels: seq<Label>, h: History)
    requires IsRun(caps, states, labels, h)
    ensures exists f :: ReservationsMatchOffers(h, f)
  {
    var m := ReserveRun(caps, states, labels, h, |labels|);
    assert h[..|labels|] == h;
    var f := map i: nat | 0 <= i < |h| && IsReserved(h, i) :: m[Spent(i)];
    forall i, j | i in f && j in f && f[i] == f[j]
      ensures i == j
    {
      assert Spent(i) == Spent(j);
    }
    assert ReservationsMatchOffers(h, f);
  }

  // ---------- Offer -> Answer or ProtocolError ----------

  predicate IsReturned(h: History, i: nat) { i < |h| && h[i].Some? && h[i].value.Returned? }

  ghost predicate RoutesEarned(attempts: map<AttemptId, Correlation>, h: History, m: Ledger) {
    forall a | a in attempts :: Routed(a) in m
      && ForwardedAt(h, m[Routed(a)], attempts[a].initiatorConn, a, attempts[a].target, attempts[a].targetConn,
                     attempts[a].expiresAt - ATTEMPT_LIFETIME)
  }

  /** Step `j` forwarded the Offer this frame answers: from its target back to its initiator. */
  predicate ReturnsFor(h: History, j: nat, r: Event)
    requires r.Returned?
  {
    && IsForwarded(h, j) && h[j].value.attempt == r.attempt
    && h[j].value.targetConn == r.from && h[j].value.conn == r.to && r.at < h[j].value.at + ATTEMPT_LIFETIME
  }

  ghost predicate ReturnsEarned(h: History, m: Ledger) {
    forall i: nat | IsReturned(h, i) :: Spent(i) in m && m[Spent(i)] < i && ReturnsFor(h, m[Spent(i)], h[i].value)
  }

  ghost predicate RouteLedger(s: HubState, h: History, m: Ledger) {
    RoutesEarned(s.attempts, h, m) && ReturnsEarned(h, m)
  }

  lemma RouteIdle(s: HubState, s': HubState, e: Option<Event>, h: History, m: Ledger)
    requires RouteLedger(s, h, m)
    requires Submap(s'.attempts, s.attempts)
    requires e.Some? ==> !e.value.Returned?
    ensures RouteLedger(s', h + [e], m)
  {
  }

  lemma RouteIssue(s: HubState, e: Event, c: Correlation, now: int, h: History, m: Ledger, s': HubState)
    requires RouteLedger(s, h, m) && e.Forwarded? && e.conn == c.initiatorConn
    requires e.target == c.target && e.targetConn == c.targetConn && e.at == c.expiresAt - ATTEMPT_LIFETIME
    requires Added(s.attempts, s'.attempts, e.attempt, c, now)
    ensures RouteLedger(s', h + [Some(e)], m[Routed(e.attempt) := |h|])
  {
    var h' := h + [Some(e)];
    assert ForwardedAt(h', |h|, c.initiatorConn, e.attempt, c.target, c.targetConn, e.at);
    OthersKept(s.attempts, s'.attempts, e.attempt, c, now);
  }

  lemma RouteSpend(s: HubState, p: Peer, attempt: AttemptId, now: int, h: History, m: Ledger)
    requires RouteLedger(s, h, m) && ReturnStep(s, p, attempt, now).1.Some?
    ensures Routed(attempt) in m
    ensures var (s', e) := ReturnStep(s, p, attempt, now);
            RouteLedger(s', h + [e], Moved(m, Routed(attempt), Spent(|h|)))
  {
  }

  lemma RouteUntouched(s: HubState, caps: Caps, l: ControlLabel, s': HubState, e: Option<Event>)
    requires ControlNext(s, caps, l, s', e)
    requires !(l.CommitOffer? && e.Some?) && !((l.Answer? || l.AttemptError?) && e.Some?)
    ensures Submap(s'.attempts, s.attempts)
    ensures e.Some? ==> !e.value.Returned?
  {
    hide Forwardable, HasRoom, Added;
  }

  lemma RouteControl(s: HubState, caps: Caps, l: ControlLabel, s': HubState, e: Option<Event>, h: History, m: Ledger) returns (m': Ledger)
    requires RouteLedger(s, h, m) && OneShot(m, |h|) && ControlNext(s, caps, l, s', e)
    ensures RouteLedger(s', h + [e], m') && OneShot(m', |h| + 1)
  {
    m' := m;
    if l.CommitOffer? && e.Some? {
      m' := m[Routed(l.attempt) := |h|];
      RouteIssue(s, e.value, OfferCorrelation(s, l.p, l.now), l.now, h, m, s');
      Issue(m, |h|, Routed(l.attempt));
    } else if (l.Answer? || l.AttemptError?) && e.Some? {
      RouteSpend(s, l.p, l.attempt, l.now, h, m);
      m' := Moved(m, Routed(l.attempt), Spent(|h|));
      Move(m, |h|, Routed(l.attempt), Spent(|h|));
    } else {
      RouteUntouched(s, caps, l, s', e);
      RouteIdle(s, s', e, h, m);
    }
  }

  /** The matching of return frames with forwarded Offers: at most one frame per Offer, from
      the exact target connection to the exact initiator connection. */
  ghost predicate ReturnsMatchOffers(h: History, f: map<nat, nat>) {
    && (forall i: nat :: i in f <==> IsReturned(h, i))
    && (forall i | i in f :: f[i] < i && ReturnsFor(h, f[i], h[i].value))
    && (forall i, j | i in f && j in f && f[i] == f[j] :: i == j)
  }

  lemma {:induction false} RouteRun(caps: Caps, states: seq<HubState>, labels: seq<Label>, h: History, n: nat) returns (m: Ledger)
    requires IsRun(caps, states, labels, h) && n <= |labels|
    ensures RouteLedger(states[n], h[..n], m) && OneShot(m, n)
  {
    m := map[];
    if n > 0 {
      m := RouteRun(caps, states, labels, h, n - 1);
      var s, s', e := states[n - 1], states[n], h[n - 1];
      assert h[..n] == h[..n - 1] + [e];
      match labels[n - 1]
      case Socket(l) => RouteIdle(s, s', e, h[..n - 1], m);
      case Control(l) => m := RouteControl(s, caps, l, s', e, h[..n - 1], m);
    }
  }

  /** In every run each forwarded Offer yields at most one return frame. */
  lemma ReturnFramesMatchOffers(caps: Caps, states: seq<HubState>, labels: seq<Label>, h: History)
    requires IsRun(caps, states, labels, h)
    ensures exists f :: ReturnsMatchOffers(h, f)
  {
    var m := RouteRun(caps, states, labels, h, |labels|);
    assert h[..|labels|] == h;
    var f := map i: nat | 0 <= i < |h| && IsReturned(h, i) :: m[Spent(i)];
    forall i, j | i in f && j in f && f[i] == f[j]
      ensures i == j
    {
      assert Spent(i) == Spent(j);
    }
    assert ReturnsMatchOffers(h, f);
  }

  /** The handshake does complete: between two registered open sockets with room in both registries,
      a READY Resolve lets the Offer through, the target may answer it once, and the initiator may
      reserve for it. */
  lemma HandshakeCompletes(s: HubState, caps: Caps, p: Peer, q: Peer, attempt: AttemptId, now: int, s': HubState, e: Option<Event>)
    requires Get(s.peers, p.device) == Some(p) && Get(s.peers, q.device) == Some(q) && Open(s, p) && Open(s, q)
    requires p.device != 0 && q.device != 0 && p.conn != 0 && q.conn != 0 && p.device != q.device && attempt != 0 && p !in s.reserving
    requires attempt !in s.attempts && GateKey(p.conn, attempt) !in s.gates
    requires var c := Correlation(p.device, p.conn, q.device, q.conn, now + ATTEMPT_LIFETIME);
      HasRoom(s.attempts, c, now, caps.attempts, caps.attemptsPerConn) && HasRoom(s.gates, c, now, caps.gates, caps.gatesPerConn)
    requires CommitOfferStep(TakeTicketStep(ResolveReadyStep(s, p, q.device, now), p, now), caps, p, attempt, now, p.conn, q.conn, true, s', e)
    ensures e == Some(Forwarded(p.conn, attempt, q.device, q.conn, now, now))
    ensures ReturnStep(s', q, attempt, now).1 == Some(Returned(attempt, q.conn, p.conn, now))
    ensures ReturnStep(ReturnStep(s', q, attempt, now).0, q, attempt, now).1 == None
    ensures p in TakeGateStep(s', p, attempt, q.device, now).reserving
  {
    hide HasRoom;
    assert s.attempts - {attempt} == s.attempts && s.gates - {GateKey(p.conn, attempt)} == s.gates;
  }
}
