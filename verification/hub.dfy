/** The hub's mutable state. Each method is one region under the hub mutex and is proved to be
    the step of the handshake state machine it stands for. Queue handoffs and the results of the
    authoritative lookups arrive as arguments. */
module Hubs {
  import opened Options
  import opened Cutoffs
  import opened CorrelationRegistries
  import opened ExpiryIndexes
  import opened HubProtocol

  class Hub {
    var peers: map<DeviceId, Peer>
    var pending: map<DeviceId, Peer>
    var tickets: map<ConnId, Ticket>
    var active: set<ConnId>
    var done: set<ConnId>
    var closed: bool
    const attempts: CorrelationRegistry<AttemptId>
    const gates: CorrelationRegistry<GateKey>
    const maxConnections: nat

    // Connection ids handed out so far, and what handlers in progress carry.
    ghost var used: set<ConnId>
    ghost var offering: map<Peer, Offering>
    ghost var reserving: map<Peer, Reserving>

    ghost predicate Valid()
      reads this, attempts, attempts.expiries, gates, gates.expiries
    {
      && attempts.Valid() && gates.Valid()
      && (attempts as object) != gates && (attempts.expiries as object) != gates.expiries
    }

    ghost function State(): HubState
      reads this, attempts, gates
    {
      HubState(peers, pending, tickets, attempts.entries, gates.entries, active, done, closed, used, offering, reserving)
    }

    function Caps(): Caps {
      HubProtocol.Caps(maxConnections, attempts.maxTotal, attempts.maxPerConn, gates.maxTotal, gates.maxPerConn)
    }

    constructor (caps: HubProtocol.Caps)
      ensures Valid() && State() == INITIAL && Caps() == caps
      ensures fresh(attempts) && fresh(attempts.expiries) && fresh(gates) && fresh(gates.expiries)
    {
      peers, pending, tickets, active, done, closed := map[], map[], map[], {}, {}, false;
      used, offering, reserving := {}, map[], map[];
      maxConnections := caps.maxConnections;
      attempts := new CorrelationRegistry<AttemptId>(caps.attempts, caps.attemptsPerConn);
      gates := new CorrelationRegistry<GateKey>(caps.gates, caps.gatesPerConn);
    }

    method ForgetConnection(conn: ConnId)
      requires Valid()
      modifies attempts, attempts.expiries, gates, gates.expiries
      ensures Valid()
      ensures attempts.entries == old(attempts.entries) - Bucket(old(attempts.entries), conn)
      ensures gates.entries == old(gates.entries) - Bucket(old(gates.entries), conn)
    {
      hide Consistent, BackPointers, HeapOrdered;
      attempts.RemoveConnection(conn);
      gates.RemoveConnection(conn);
    }

    method StageBegin(p: Peer) returns (staged: bool)
      requires Valid()
      modifies this
      ensures Valid() && State() == StageBeginStep(old(State()), Caps(), p)
      ensures staged ==> pending == old(pending)[p.device := p]
      ensures !staged ==> pending == old(pending)
    {
      used := used + {p.conn};
      if closed || (p.device !in peers && |peers| + |pending| >= maxConnections) {
        return false;
      }
      pending := pending[p.device := p];
      staged := true;
    }

    /** Publishes a staged peer if nothing changed since it was staged. */
    method StageCommit(p: Peer, previous: Option<Peer>, leased: bool) returns (committed: bool)
      requires Valid()
      modifies this, attempts, attempts.expiries, gates, gates.expiries
      ensures Valid() && State() == StageCommitStep(old(State()), Caps(), p, previous, leased)
      ensures committed ==> Get(peers, p.device) == Some(p)
    {
      hide Consistent, BackPointers, HeapOrdered;
      var owns := p.device in pending && pending[p.device] == p;
      committed := leased && !closed && owns && Get(peers, p.device) == previous
                   && (previous.None? ==> |peers| < maxConnections);
      if owns {
        pending := pending - {p.device};
      }
      if committed {
        peers := peers[p.device := p];
        if previous.Some? {
          ForgetConnection(previous.value.conn);
        }
      }
    }

    method Activate(p: Peer) returns (current: bool)
      requires Valid()
      modifies this
      ensures Valid() && State() == ActivateStep(old(State()), p)
      ensures current <==> !closed && Get(peers, p.device) == Some(p)
    {
      current := !closed && Get(peers, p.device) == Some(p);
      if current {
        active := active + {p.conn};
      }
    }

    method DropPeer(p: Peer)
      requires Valid()
      modifies this, attempts, attempts.expiries, gates, gates.expiries
      ensures Valid() && State() == HubProtocol.DropPeer(old(State()), p)
    {
      hide Consistent, BackPointers, HeapOrdered;
      ForgetConnection(p.conn);
      peers, tickets := peers - {p.device}, tickets - {p.conn};
    }

    method DisconnectConnection(device: DeviceId, conn: ConnId) returns (closedOne: bool)
      requires Valid()
      modifies this, attempts, attempts.expiries, gates, gates.expiries
      ensures Valid() && State() == DisconnectConnectionStep(old(State()), device, conn)
      ensures closedOne <==> conn != 0 && device in old(peers) && old(peers)[device].conn == conn
    {
      hide Consistent, BackPointers, HeapOrdered;
      if conn == 0 || device !in peers || peers[device].conn != conn {
        return false;
      }
      DropPeer(peers[device]);
      closedOne := true;
    }

    method DisconnectDeviceBeforeGeneration(device: DeviceId, cutoff: int)
      requires Valid()
      modifies this, attempts, attempts.expiries, gates, gates.expiries
      ensures Valid() && State() == DisconnectBeforeStep(old(State()), device, cutoff)
    {
      hide Consistent, BackPointers, HeapOrdered;
      var stale := device in pending && Older(pending[device].generation, cutoff);
      if device in peers && Older(peers[device].generation, cutoff) {
        DropPeer(peers[device]);
      }
      if stale {
        pending := pending - {device};
      }
    }

    method Remove(p: Peer)
      requires Valid()
      modifies this, attempts, attempts.expiries, gates, gates.expiries
      ensures Valid() && State() == RemoveStep(old(State()), p)
    {
      hide Consistent, BackPointers, HeapOrdered;
      ForgetConnection(p.conn);
      tickets := tickets - {p.conn};
      if Get(peers, p.device) == Some(p) {
        peers := peers - {p.device};
      }
    }

    method Close()
      requires Valid()
      modifies this, attempts, attempts.expiries, gates, gates.expiries
      ensures Valid() && State() == CloseHubStep(old(State()))
    {
      hide Consistent, BackPointers, HeapOrdered;
      closed := true;
      peers, pending, tickets := map[], map[], map[];
      attempts.Reset();
      gates.Reset();
    }

    method RememberCoordinationTarget(p: Peer, target: DeviceId, now: int)
      requires Valid() && target != 0
      modifies this
      ensures Valid() && ControlNext(old(State()), Caps(), ResolveReady(p, target, now), State(), Some(Resolved(p.conn, target, now)))
    {
      tickets := tickets[p.conn := Ticket(target, now + ATTEMPT_LIFETIME)];
    }

    /** Takes the ticket of the connection; the result is the target an Offer may go to. */
    method ConsumeCoordinationTarget(p: Peer, now: int) returns (target: Option<DeviceId>)
      requires Valid() && p !in offering
      modifies this
      ensures Valid() && ControlNext(old(State()), Caps(), TakeTicket(p, now), State(), None)
      ensures target == if p in offering then Some(offering[p].target) else None
    {
      target := None;
      if p.conn in tickets {
        var ticket := tickets[p.conn];
        tickets := tickets - {p.conn};
        if now < ticket.expiresAt && ticket.target != 0 && ticket.target != p.device {
          target := Some(ticket.target);
          offering := offering[p := Offering(ticket.target, now)];
        }
      }
      assert tickets == old(tickets) - {p.conn};
    }

    /** Registers the attempt and its reservation gate together, or neither. */
    method Correlate(attempt: AttemptId, c: Correlation, now: int) returns (ok: bool)
      requires Valid()
      requires attempt !in attempts.entries && GateKey(c.initiatorConn, attempt) !in gates.entries && Live(c, now)
      modifies attempts, attempts.expiries, gates, gates.expiries
      ensures Valid()
      ensures ok <==> attempt != 0 && Addressed(c)
                      && HasRoom(old(attempts.entries), c, now, attempts.maxTotal, attempts.maxPerConn)
                      && HasRoom(old(gates.entries), c, now, gates.maxTotal, gates.maxPerConn)
      ensures ok ==> Added(old(attempts.entries), attempts.entries, attempt, c, now)
                     && Added(old(gates.entries), gates.entries, GateKey(c.initiatorConn, attempt), c, now)
      ensures !ok ==> OnlyExpiredDropped(old(attempts.entries), attempts.entries, now)
                      && OnlyExpiredDropped(old(gates.entries), gates.entries, now)
    {
      hide Consistent, BackPointers, HeapOrdered, HasRoom, OnlyExpiredDropped, Added;
      NothingDropped(gates.entries, now);
      ok := attempts.Add(attempt, attempt != 0, c, now);
      if ok {
        assert gates.entries - {GateKey(c.initiatorConn, attempt)} == gates.entries;
        ok := gates.AddGate(GateKey(c.initiatorConn, attempt), attempt != 0, c, now);
        if !ok {
          RolledBack(old(attempts.entries), attempts.entries, attempt, c, now);
          attempts.Remove(attempt);
        }
      }
    }

    /** Whether an attempt id is free for this initiator; expired leftovers are removed. */
    method Unclaimed(conn: ConnId, attempt: AttemptId, now: int) returns (free: bool)
      requires Valid()
      modifies attempts, attempts.expiries, gates, gates.expiries
      ensures Valid()
      ensures free <==> (attempt in old(attempts.entries) ==> !Live(old(attempts.entries)[attempt], now))
                        && (GateKey(conn, attempt) in old(gates.entries) ==> !Live(old(gates.entries)[GateKey(conn, attempt)], now))
      ensures free ==> attempts.entries == old(attempts.entries) - {attempt}
                       && gates.entries == old(gates.entries) - {GateKey(conn, attempt)}
      ensures !free ==> OnlyExpiredDropped(old(attempts.entries), attempts.entries, now)
                        && OnlyExpiredDropped(old(gates.entries), gates.entries, now)
    {
      var inUse := attempts.ContainsLive(attempt, now);
      if !inUse {
        inUse := gates.ContainsLive(GateKey(conn, attempt), now);
      }
      free := !inUse;
    }

    /** Registers and hands over an Offer to an open target, or takes everything back. */
    method Dispatch(attempt: AttemptId, c: Correlation, now: int, queued: bool) returns (forwarded: bool)
      requires Valid()
      requires attempt !in attempts.entries && GateKey(c.initiatorConn, attempt) !in gates.entries && Live(c, now)
      modifies attempts, attempts.expiries, gates, gates.expiries
      ensures Valid()
      ensures forwarded <==> queued && attempt != 0 && Addressed(c)
                             && HasRoom(old(attempts.entries), c, now, attempts.maxTotal, attempts.maxPerConn)
                             && HasRoom(old(gates.entries), c, now, gates.maxTotal, gates.maxPerConn)
      ensures forwarded ==> Added(old(attempts.entries), attempts.entries, attempt, c, now)
                            && Added(old(gates.entries), gates.entries, GateKey(c.initiatorConn, attempt), c, now)
      ensures !forwarded ==> OnlyExpiredDropped(old(attempts.entries), attempts.entries, now)
                             && OnlyExpiredDropped(old(gates.entries), gates.entries, now)
    {
      hide Consistent, BackPointers, HeapOrdered, HasRoom, OnlyExpiredDropped, Added;
      var correlated := Correlate(attempt, c, now);
      forwarded := correlated && queued;
      if correlated && !queued {
        RolledBack(old(attempts.entries), attempts.entries, attempt, c, now);
        RolledBack(old(gates.entries), gates.entries, GateKey(c.initiatorConn, attempt), c, now);
        attempts.Remove(attempt);
        gates.Remove(GateKey(c.initiatorConn, attempt));
      }
    }

    /** The part of an Offer commit that depends on the registries only. */
    method Route(attempt: AttemptId, c: Correlation, now: int, open: bool, queued: bool) returns (forwarded: bool)
      requires Valid() && Live(c, now)
      modifies attempts, attempts.expiries, gates, gates.expiries
      ensures Valid()
      ensures forwarded <==>
        && queued && open && attempt != 0 && Addressed(c)
        && (attempt in old(attempts.entries) ==> !Live(old(attempts.entries)[attempt], now))
        && (GateKey(c.initiatorConn, attempt) in old(gates.entries) ==> !Live(old(gates.entries)[GateKey(c.initiatorConn, attempt)], now))
        && HasRoom(old(attempts.entries) - {attempt}, c, now, attempts.maxTotal, attempts.maxPerConn)
        && HasRoom(old(gates.entries) - {GateKey(c.initiatorConn, attempt)}, c, now, gates.maxTotal, gates.maxPerConn)
      ensures forwarded ==> Added(old(attempts.entries), attempts.entries, attempt, c, now)
                            && Added(old(gates.entries), gates.entries, GateKey(c.initiatorConn, attempt), c, now)
      ensures !forwarded ==> OnlyExpiredDropped(old(attempts.entries), attempts.entries, now)
                             && OnlyExpiredDropped(old(gates.entries), gates.entries, now)
    {
      hide Consistent, BackPointers, HeapOrdered, HasRoom, OnlyExpiredDropped, Added;
      forwarded := Unclaimed(c.initiatorConn, attempt, now);
      if forwarded {
        AfterClearing(old(attempts.entries), attempts.entries, attempt, c, now);
        AfterClearing(old(gates.entries), gates.entries, GateKey(c.initiatorConn, attempt), c, now);
        forwarded := open;
        if open {
          forwarded := Dispatch(attempt, c, now, queued);
          AfterClearing(old(attempts.entries), attempts.entries, attempt, c, now);
          AfterClearing(old(gates.entries), gates.entries, GateKey(c.initiatorConn, attempt), c, now);
        }
      }
    }

    /** Commits an Offer whose ticket was consumed: re-checks both sockets and forwards it to
        the exact connection the lookup proved READY. */
    method CommitOffer(p: Peer, target: DeviceId, attempt: AttemptId, now: int,
                       initiatorOwner: ConnId, targetOwner: ConnId, queued: bool)
      returns (forwarded: bool, ghost e: Option<Event>)
      requires Valid() && p in offering && offering[p].target == target
      modifies this, attempts, attempts.expiries, gates, gates.expiries
      ensures Valid() && forwarded == e.Some?
      ensures CommitOfferStep(old(State()), Caps(), p, attempt, now, initiatorOwner, targetOwner, queued, State(), e)
    {
      hide Consistent, BackPointers, HeapOrdered, HasRoom, OnlyExpiredDropped, Added;
      forwarded, e := false, None;
      NothingDropped(attempts.entries, now);
      NothingDropped(gates.entries, now);
      if Get(peers, p.device) == Some(p) && p.conn in active && p.conn !in done && initiatorOwner == p.conn {
        var open := target in peers && peers[target].conn in active && peers[target].conn !in done
                    && peers[target].conn == targetOwner;
        var c := Correlation(p.device, p.conn, target, targetOwner, now + ATTEMPT_LIFETIME);
        forwarded := Route(attempt, c, now, open, queued);
        if forwarded {
          e := Some(Forwarded(p.conn, attempt, target, targetOwner, offering[p].takenAt, now));
        }
      }
      offering := offering - {p};
    }

    /** An Answer, or an error for an attempt, spends the route of that attempt once. */
    method ReturnFrame(p: Peer, attempt: AttemptId, now: int) returns (recipient: Option<Peer>)
      requires Valid()
      modifies attempts, attempts.expiries
      ensures Valid()
      ensures State() == ReturnStep(old(State()), p, attempt, now).0
      ensures recipient.Some? <==> ReturnStep(old(State()), p, attempt, now).1.Some?
      ensures recipient.Some? ==> Get(peers, old(attempts.entries)[attempt].initiator) == recipient
                                  && recipient.value.conn == old(attempts.entries)[attempt].initiatorConn
    {
      hide Consistent, BackPointers, HeapOrdered;
      recipient := None;
      if attempt !in attempts.entries {
        return;
      }
      var c := attempts.entries[attempt];
      if !Live(c, now) {
        attempts.Remove(attempt);
        return;
      }
      if c.target != p.device || c.targetConn != p.conn || Get(peers, c.target) != Some(p) {
        return;
      }
      if c.initiator != p.device && c.initiator in peers && peers[c.initiator].conn in active
         && peers[c.initiator].conn == c.initiatorConn {
        recipient := Some(peers[c.initiator]);
      }
      attempts.Remove(attempt);
    }

    /** A Reserve request spends its gate before anything about it is checked. */
    method ConsumeReservationGate(p: Peer, attempt: AttemptId, target: DeviceId, now: int) returns (gate: Option<Correlation>)
      requires Valid() && p !in reserving
      modifies this, gates, gates.expiries
      ensures Valid()
      ensures State() == TakeGateStep(old(State()), p, attempt, target, now)
      ensures gate == if p in reserving then Some(reserving[p].gate) else None
    {
      hide Consistent, BackPointers, HeapOrdered;
      gate := None;
      if attempt == 0 {
        return;
      }
      var taken := gates.Take(GateKey(p.conn, attempt), now);
      if taken.Some? && taken.value.initiator == p.device && taken.value.target == target
         && target != 0 && target != p.device
         && Get(peers, p.device) == Some(p) && p.conn in active && p.conn !in done
         && target in peers && peers[target].conn in active && peers[target].conn !in done
         && peers[target].conn == taken.value.targetConn {
        gate := taken;
        reserving := reserving[p := Reserving(attempt, taken.value, now)];
      }
    }

    /** The minute sweep: at most `limit` expired entries of each registry. */
    method Prune(now: int, limit: nat)
      requires Valid()
      modifies attempts, attempts.expiries, gates, gates.expiries
      ensures Valid() && PruneStep(old(State()), now, State())
      ensures |old(attempts.entries)| - |attempts.entries| <= limit && |old(gates.entries)| - |gates.entries| <= limit
      ensures |old(attempts.entries)| - |attempts.entries| < limit ==> AllLive(attempts.entries, attempts.entries.Keys, now)
      ensures |old(gates.entries)| - |gates.entries| < limit ==> AllLive(gates.entries, gates.entries.Keys, now)
    {
      hide Consistent, BackPointers, HeapOrdered, OnlyExpiredDropped, AllLive;
      var _ := attempts.Prune(now, limit);
      var _ := gates.Prune(now, limit);
    }
  }
}
