/** Presence and discovery leases: the shared in-memory store with its compare-and-set rules, every
    call carrying its own time. */
module Leases {
  import opened Options

  type DeviceId = nat
  /** 0 stands for the empty connection id. */
  type ConnId = nat
  type Blob = nat

  datatype Lease = Lease(owner: ConnId, expiresAt: int)
  datatype Epoch = Epoch(high: nat, low: nat)
  datatype Discovery = Discovery(owner: ConnId, epoch: Epoch, revision: nat, capabilities: seq<Blob>, candidates: seq<Blob>)
  datatype Entry = Entry(snapshot: Discovery, expiresAt: int)
  datatype Store = Store(presence: map<DeviceId, Lease>, discovery: map<DeviceId, Entry>)

  const EMPTY := Store(map[], map[])

  predicate Ready(d: Discovery) { d.revision > 0 }
  predicate HasEpoch(d: Discovery) { d.epoch.high != 0 || d.epoch.low != 0 }

  datatype Op =
    | TakePresence(device: DeviceId, conn: ConnId, ttl: int)
    | RenewPresence(device: DeviceId, conn: ConnId, ttl: int)
    | ReleasePresence(device: DeviceId, conn: ConnId)
    | GetPresence(device: DeviceId)
    | TakeDiscovery(device: DeviceId, conn: ConnId, snapshot: Discovery, ttl: int)
    | RenewDiscovery(device: DeviceId, conn: ConnId, ttl: int)
    | ReleaseDiscovery(device: DeviceId, conn: ConnId)
    | GetDiscovery(device: DeviceId)
    | ListOnlinePeers

  /** Writes and releases treat a lease as gone at the very instant it expires. */
  predicate Held(s: Store, device: DeviceId, now: int) { device in s.presence && now < s.presence[device].expiresAt }
  predicate Owns(s: Store, device: DeviceId, conn: ConnId, now: int) { Held(s, device, now) && s.presence[device].owner == conn }
  predicate Published(s: Store, device: DeviceId, now: int) { device in s.discovery && now < s.discovery[device].expiresAt }

  /** Reads still see an entry at that instant. */
  predicate SeenPresent(s: Store, device: DeviceId, now: int) { device in s.presence && now <= s.presence[device].expiresAt }
  predicate SeenPublished(s: Store, device: DeviceId, now: int) { device in s.discovery && now <= s.discovery[device].expiresAt }

  /** Both leases seen, the same owner, and a revision actually published. */
  predicate Online(s: Store, device: DeviceId, now: int) {
    && SeenPresent(s, device, now) && SeenPublished(s, device, now)
    && s.presence[device].owner == s.discovery[device].snapshot.owner && Ready(s.discovery[device].snapshot)
  }

  predicate Succeeds(s: Store, op: Op, now: int) {
    match op
    case RenewPresence(device, conn, _) => !Held(s, device, now) || s.presence[device].owner == conn
    case ReleasePresence(device, conn) => Owns(s, device, conn, now)
    case TakeDiscovery(device, conn, _, _) => Owns(s, device, conn, now)
    case RenewDiscovery(device, conn, _) => !Published(s, device, now) || s.discovery[device].snapshot.owner == conn
    case ReleaseDiscovery(device, conn) => Published(s, device, now) && s.discovery[device].snapshot.owner == conn
    case _ => true
  }

  function PresenceAfter(s: Store, op: Op, now: int): map<DeviceId, Lease> {
    match op
    case TakePresence(device, conn, ttl) => s.presence[device := Lease(conn, now + ttl)]
    case RenewPresence(device, conn, ttl) => if Succeeds(s, op, now) then s.presence[device := Lease(conn, now + ttl)] else s.presence
    case ReleasePresence(device, conn) => if Held(s, device, now) && !Owns(s, device, conn, now) then s.presence else s.presence - {device}
    case GetPresence(device) => if SeenPresent(s, device, now) then s.presence else s.presence - {device}
    case TakeDiscovery(device, conn, _, _) => if Held(s, device, now) then s.presence else s.presence - {device}
    case _ => s.presence
  }

  function DiscoveryAfter(s: Store, op: Op, now: int): map<DeviceId, Entry> {
    match op
    case TakeDiscovery(device, conn, d, ttl) =>
      if Succeeds(s, op, now) then s.discovery[device := Entry(d.(owner := conn), now + ttl)] else s.discovery
    case RenewDiscovery(device, conn, ttl) =>
      if !Succeeds(s, op, now) || device !in s.discovery then s.discovery
      else if now > s.discovery[device].expiresAt then s.discovery - {device}
      else s.discovery[device := s.discovery[device].(expiresAt := now + ttl)]
    case ReleaseDiscovery(device, conn) =>
      if Published(s, device, now) && s.discovery[device].snapshot.owner != conn then s.discovery else s.discovery - {device}
    case GetDiscovery(device) => if SeenPublished(s, device, now) then s.discovery else s.discovery - {device}
    case ListOnlinePeers => UnexpiredEntries(s.discovery, now)
    case _ => s.discovery
  }

  function UnexpiredEntries(discovery: map<DeviceId, Entry>, now: int): map<DeviceId, Entry> {
    map d | d in discovery && now <= discovery[d].expiresAt :: discovery[d]
  }

  function Apply(s: Store, op: Op, now: int): Store { Store(PresenceAfter(s, op, now), DiscoveryAfter(s, op, now)) }

  /** The connection an operation speaks for; reads speak for none. */
  function Speaker(op: Op): Option<ConnId> {
    match op
    case TakePresence(_, conn, _) => Some(conn)
    case RenewPresence(_, conn, _) => Some(conn)
    case ReleasePresence(_, conn) => Some(conn)
    case TakeDiscovery(_, conn, _, _) => Some(conn)
    case RenewDiscovery(_, conn, _) => Some(conn)
    case ReleaseDiscovery(_, conn) => Some(conn)
    case _ => None
  }

  // ---------- fencing ----------

  /** While `conn` holds the lease, an operation of anybody else leaves the lease and a live
      discovery of `conn` alone, and publishes nothing for the device. */
  ghost predicate Untouched(s: Store, s': Store, device: DeviceId, conn: ConnId, now: int) {
    && device in s.presence && device in s'.presence && s'.presence[device] == s.presence[device]
    && (Published(s, device, now) && s.discovery[device].snapshot.owner == conn ==>
          device in s'.discovery && s'.discovery[device] == s.discovery[device])
    && (device in s'.discovery ==> device in s.discovery && s'.discovery[device].snapshot == s.discovery[device].snapshot)
  }

  lemma OthersAreFenced(s: Store, op: Op, now: int, device: DeviceId, conn: ConnId)
    requires Owns(s, device, conn, now) && Speaker(op) != Some(conn)
    requires !(op.TakePresence? && op.device == device)
    ensures Untouched(s, Apply(s, op, now), device, conn, now)
  {
  }

  /** The owner's own operations keep it the owner, except for a release. */
  lemma OwnOperationsKeepLease(s: Store, op: Op, now: int, device: DeviceId, conn: ConnId)
    requires Owns(s, device, conn, now) && Speaker(op) == Some(conn) && op != ReleasePresence(device, conn)
    ensures device in Apply(s, op, now).presence && Apply(s, op, now).presence[device].owner == conn
  {
  }

  /** While the lease is live its owner, and nobody else, can renew and release it and publish. */
  lemma ExactlyTheOwnerIsServed(s: Store, device: DeviceId, conn: ConnId, d: Discovery, ttl: int, now: int)
    requires Held(s, device, now)
    ensures Succeeds(s, RenewPresence(device, conn, ttl), now) <==> s.presence[device].owner == conn
    ensures Succeeds(s, ReleasePresence(device, conn), now) <==> s.presence[device].owner == conn
    ensures Succeeds(s, TakeDiscovery(device, conn, d, ttl), now) <==> s.presence[device].owner == conn
    ensures s.presence[device].owner == conn && ttl > 0 ==>
      var s' := Apply(s, TakeDiscovery(device, conn, d, ttl), now); Online(s', device, now) == Ready(d)
  {
  }

  ghost predicate IsRun(states: seq<Store>, ops: seq<Op>, times: seq<int>) {
    && |states| == |ops| + 1 == |times| + 1 && states[0] == EMPTY
    && (forall i | 0 <= i < |ops| :: states[i + 1] == Apply(states[i], ops[i], times[i]))
    && (forall i, j | 0 <= i <= j < |times| :: times[i] <= times[j])
  }

  /** Step `k` neither takes the lease anew nor releases it for `conn`, and the lease has not expired. */
  ghost predicate Undisturbed(states: seq<Store>, ops: seq<Op>, times: seq<int>, k: nat, device: DeviceId, conn: ConnId)
    requires k < |states| && k < |ops| && k < |times|
  {
    && !(ops[k].TakePresence? && ops[k].device == device) && ops[k] != ReleasePresence(device, conn)
    && (device in states[k].presence ==> times[k] < states[k].presence[device].expiresAt)
  }

  /** From a connection's Take until its lease expires, is released by it or is taken anew, it owns
      the lease in every state, and every step by anybody else leaves its lease and its live
      discovery untouched. */
  lemma {:induction false} LeaseIsFenced(states: seq<Store>, ops: seq<Op>, times: seq<int>, i: nat, n: nat, device: DeviceId, conn: ConnId)
    requires IsRun(states, ops, times) && i < n <= |ops|
    requires ops[i].TakePresence? && ops[i].device == device && ops[i].conn == conn
    requires forall k | i < k < n :: Undisturbed(states, ops, times, k, device, conn)
    ensures device in states[n].presence && states[n].presence[device].owner == conn
    ensures forall k | i < k < n && Speaker(ops[k]) != Some(conn) :: Untouched(states[k], states[k + 1], device, conn, times[k])
  {
    if n > i + 1 {
      LeaseIsFenced(states, ops, times, i, n - 1, device, conn);
      assert Undisturbed(states, ops, times, n - 1, device, conn);
      if Speaker(ops[n - 1]) != Some(conn) {
        OthersAreFenced(states[n - 1], ops[n - 1], times[n - 1], device, conn);
      } else {
        OwnOperationsKeepLease(states[n - 1], ops[n - 1], times[n - 1], device, conn);
      }
    }
  }

  // ---------- the store updated in place ----------

  class MemoryLeases {
    var presence: map<DeviceId, Lease>
    var discovery: map<DeviceId, Entry>

    ghost function State(): Store
      reads this
    {
      Store(presence, discovery)
    }

    constructor ()
      ensures State() == EMPTY
    {
      presence, discovery := map[], map[];
    }

    /** Unconditional takeover; reports the live lease it replaced. */
    method Take(device: DeviceId, conn: ConnId, ttl: int, now: int) returns (replaced: Option<Lease>)
      modifies this`presence
      ensures State() == Apply(old(State()), TakePresence(device, conn, ttl), now)
      ensures replaced == if Held(old(State()), device, now) then Some(old(presence)[device]) else None
    {
      replaced := None;
      if device in presence {
        if now < presence[device].expiresAt {
          replaced := Some(presence[device]);
        } else {
          presence := presence - {device};
        }
      }
      presence := presence[device := Lease(conn, now + ttl)];
    }

    method Renew(device: DeviceId, conn: ConnId, ttl: int, now: int) returns (ok: bool)
      modifies this`presence
      ensures State() == Apply(old(State()), RenewPresence(device, conn, ttl), now)
      ensures ok == Succeeds(old(State()), RenewPresence(device, conn, ttl), now)
    {
      if device in presence && now < presence[device].expiresAt && presence[device].owner != conn {
        return false;
      }
      presence := presence[device := Lease(conn, now + ttl)];
      ok := true;
    }

    method Release(device: DeviceId, conn: ConnId, now: int) returns (released: bool)
      modifies this`presence
      ensures State() == Apply(old(State()), ReleasePresence(device, conn), now)
      ensures released == Succeeds(old(State()), ReleasePresence(device, conn), now)
    {
      if device !in presence || now >= presence[device].expiresAt {
        if device in presence {
          presence := presence - {device};
        }
        assert presence == old(presence) - {device};
        return false;
      }
      if presence[device].owner != conn {
        return false;
      }
      presence := presence - {device};
      released := true;
    }

    method Get(device: DeviceId, now: int) returns (lease: Option<Lease>)
      modifies this`presence
      ensures State() == Apply(old(State()), GetPresence(device), now)
      ensures lease == if SeenPresent(old(State()), device, now) then Some(old(presence)[device]) else None
    {
      if device !in presence {
        assert presence == presence - {device};
        return None;
      }
      if now > presence[device].expiresAt {
        presence := presence - {device};
        return None;
      }
      lease := Some(presence[device]);
    }

    /** Only the owner of the live presence lease may publish. */
    method Publish(device: DeviceId, conn: ConnId, d: Discovery, ttl: int, now: int) returns (ok: bool)
      modifies this
      ensures State() == Apply(old(State()), TakeDiscovery(device, conn, d, ttl), now)
      ensures ok == Succeeds(old(State()), TakeDiscovery(device, conn, d, ttl), now)
    {
      if device !in presence || now >= presence[device].expiresAt || presence[device].owner != conn {
        if device in presence && now >= presence[device].expiresAt {
          presence := presence - {device};
        }
        assert device !in old(presence) ==> presence == old(presence) - {device};
        return false;
      }
      discovery := discovery[device := Entry(d.(owner := conn), now + ttl)];
      ok := true;
    }

    method RenewPublished(device: DeviceId, conn: ConnId, ttl: int, now: int) returns (ok: bool)
      modifies this`discovery
      ensures State() == Apply(old(State()), RenewDiscovery(device, conn, ttl), now)
      ensures ok == Succeeds(old(State()), RenewDiscovery(device, conn, ttl), now)
    {
      if device in discovery && now < discovery[device].expiresAt && discovery[device].snapshot.owner != conn {
        return false;
      }
      if device in discovery {
        if now > discovery[device].expiresAt {
          discovery := discovery - {device};
        } else {
          discovery := discovery[device := discovery[device].(expiresAt := now + ttl)];
        }
      }
      ok := true;
    }

    method ReleasePublished(device: DeviceId, conn: ConnId, now: int) returns (released: bool)
      modifies this`discovery
      ensures State() == Apply(old(State()), ReleaseDiscovery(device, conn), now)
      ensures released == Succeeds(old(State()), ReleaseDiscovery(device, conn), now)
    {
      if device !in discovery || now >= discovery[device].expiresAt {
        if device in discovery {
          discovery := discovery - {device};
        }
        assert discovery == old(discovery) - {device};
        return false;
      }
      if discovery[device].snapshot.owner != conn {
        return false;
      }
      discovery := discovery - {device};
      released := true;
    }

    method GetPublished(device: DeviceId, now: int) returns (d: Option<Discovery>)
      modifies this`discovery
      ensures State() == Apply(old(State()), GetDiscovery(device), now)
      ensures d == if SeenPublished(old(State()), device, now) then Some(old(discovery)[device].snapshot) else None
    {
      if device !in discovery {
        assert discovery == discovery - {device};
        return None;
      }
      if now > discovery[device].expiresAt {
        discovery := discovery - {device};
        return None;
      }
      d := Some(discovery[device].snapshot);
    }

    /** Exactly the online devices: both leases seen, one owner, revision above zero. */
    method ListOnline(now: int) returns (peers: map<DeviceId, Discovery>)
      modifies this`discovery
      ensures State() == Apply(old(State()), ListOnlinePeers, now)
      ensures forall d :: d in peers <==> Online(old(State()), d, now)
      ensures forall d | d in peers :: d in old(discovery) && peers[d] == old(discovery)[d].snapshot
    {
      peers := map[];
      var rest := discovery.Keys;
      while rest != {}
        invariant rest <= old(discovery).Keys && presence == old(presence)
        invariant discovery == map d | d in old(discovery) && (d in rest || now <= old(discovery)[d].expiresAt) :: old(discovery)[d]
        invariant forall d :: d in peers <==> d in old(discovery) && d !in rest && Online(old(State()), d, now)
        invariant forall d | d in peers :: d in old(discovery) && peers[d] == old(discovery)[d].snapshot
        decreases rest
      {
        var device :| device in rest;
        rest := rest - {device};
        var entry := discovery[device];
        if now > entry.expiresAt {
          discovery := discovery - {device};
        } else if device in presence && now <= presence[device].expiresAt
                  && presence[device].owner == entry.snapshot.owner && Ready(entry.snapshot) {
          peers := peers[device := entry.snapshot];
        }
      }
    }
  }
}
