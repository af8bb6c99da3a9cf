/** Lifecycle events between instances: a kick or revoke event may be lost, delayed, duplicated or
    reordered, and the durable store may fail to answer. Periodic reconciliation catches up. */
module DeviceEvents {
  import opened Options
  import opened Cutoffs
  import H = HubProtocol
  import I = HubInvariants
  import D = RelayDataTable
  import opened RelayDataAccounting
  import opened RelayDataInvariants
  import R = RelayDataRuns
  import E = Enrollment
  import opened EnrollmentGenerations

  type DeviceId = nat

  /** What reading the durable enrollment of a device gives. */
  datatype Read = Failed | Absent | Present(generation: int)

  function KickCutoff(generation: int, read: Read): int {
    if read.Present? && read.generation > generation then read.generation else generation
  }

  /** Zero stands for closing every socket of the device. */
  function RevokeCutoff(generation: int, read: Read): int {
    if read.Present? && generation > 0 && read.generation > generation then read.generation
    else if read.Failed? && generation > 0 then generation + 1
    else 0
  }

  function ReconcileCutoff(read: Read): int
    requires !read.Failed?
  {
    if read.Present? then read.generation else 0
  }

  // ---------- local sockets ----------

  function Endpoints(t: D.Table, device: DeviceId): set<D.EndpointId> {
    set e | e in t.core.refs + t.staging.upgrades && e in t.staging.info && t.staging.info[e].device == device
  }

  function LeasesOf(t: D.Table, device: DeviceId): set<D.LeaseId> {
    set l | l in t.staging.leases && t.staging.leases[l].device == device
  }

  /** Both roles of one reservation belong to different devices. */
  ghost predicate RolesDiffer(info: map<D.EndpointId, D.Info>) {
    forall e, f | e in info && f in info && info[e].rid == info[f].rid
                  && info[e].role == Some(D.Initiator) && info[f].role == Some(D.Responder) ::
      info[e].device != info[f].device
  }

  lemma LinkedDevicesDiffer(t: D.Table, e: D.EndpointId)
    requires R.TableInv(t) && RolesDiffer(t.staging.info) && e in t.core.peer
    ensures e in t.staging.info && t.core.peer[e] in t.staging.info
    ensures t.staging.info[t.core.peer[e]].device != t.staging.info[e].device
  {
    hide CoreInv, PairingNamed, R.TombsExact, SlotsExact;
    var g := t.staging;
    assert LinkOf(t.core.peer, e) == PartnerOf(t.core.pairs, g.info, e);
    var r := g.info[e].rid;
    assert PlacedAt(t.core.pairs[r], r, t.core.refs, g);
  }

  /** Among the device's own endpoints closing reaches exactly the ones older than the cutoff. */
  lemma TargetsOfDevice(t: D.Table, device: DeviceId, cutoff: int, e: D.EndpointId)
    requires R.TableInv(t) && RolesDiffer(t.staging.info) && e in Endpoints(t, device)
    ensures e in D.Targets(t, device, cutoff) <==> Older(t.staging.info[e].generation, cutoff)
  {
    hide R.TableInv, RolesDiffer;
    forall x | x in t.core.peer
      ensures x in t.staging.info && t.core.peer[x] in t.staging.info
      ensures t.staging.info[t.core.peer[x]].device != t.staging.info[x].device
    {
      LinkedDevicesDiffer(t, x);
    }
  }

  lemma StagingAfterClose(t: D.Table, l: D.TableLabel)
    requires R.TableInv(t) && D.Enabled(t, l) && l.DoCloseDevice?
    ensures D.Step(t, l).core.refs == t.core.refs - (set e | e in l.order)
    ensures D.Step(t, l).staging.upgrades == t.staging.upgrades - (set e | e in l.order)
    ensures D.Step(t, l).staging.info == t.staging.info
    ensures forall x :: x in D.Step(t, l).staging.leases <==> x in t.staging.leases && x !in l.leaseOrder
    ensures forall x | x in D.Step(t, l).staging.leases :: D.Step(t, l).staging.leases[x] == t.staging.leases[x]
  {
    hide CoreInv, Placed, Linked, PairingNamed, R.TombsExact, D.Enumerates, D.Targets, D.OwnedLeases;
    R.ReleaseAllRemoves(t.core, t.staging, l.order);
    DropLeasesSlots(t.staging, l.leaseOrder);
    LeasesKept(t.staging, l.leaseOrder);
    RemoveUpgradesSlots(D.DropLeases(t.staging, l.leaseOrder), l.order);
  }

  lemma {:induction false} LeasesKept(g: D.Staging, order: seq<D.LeaseId>)
    ensures forall x | x in D.DropLeases(g, order).leases :: x in g.leases && D.DropLeases(g, order).leases[x] == g.leases[x]
    decreases |order|
  {
    if order != [] {
      LeasesKept(D.DropLease(g, order[0]), order[1..]);
    }
  }

  /** Closing a device before a generation keeps exactly its endpoints and leases that are not
      older, whoever else is closed along with them. */
  lemma DataSocketsAfterClose(t: D.Table, l: D.TableLabel)
    requires R.TableInv(t) && D.Enabled(t, l) && l.DoCloseDevice? && RolesDiffer(t.staging.info)
    ensures forall e :: e in Endpoints(D.Step(t, l), l.device) <==>
      e in Endpoints(t, l.device) && !Older(t.staging.info[e].generation, l.cutoff)
    ensures forall x :: x in LeasesOf(D.Step(t, l), l.device) <==>
      x in LeasesOf(t, l.device) && !Older(t.staging.leases[x].generation, l.cutoff)
  {
    hide R.TableInv, RolesDiffer, D.Step, D.Targets;
    StagingAfterClose(t, l);
    forall e | e in Endpoints(t, l.device)
      ensures e in l.order <==> Older(t.staging.info[e].generation, l.cutoff)
    {
      TargetsOfDevice(t, l.device, l.cutoff, e);
    }
  }

  /** The hub side: the registered and the pending socket stay exactly when not older. */
  lemma HubSocketsAfterClose(h: H.HubState, device: DeviceId, cutoff: int)
    requires I.HubInv(h)
    ensures var h' := H.DisconnectBeforeStep(h, device, cutoff);
      && (forall d :: d in h'.peers <==> d in h.peers && !(d == device && Older(h.peers[d].generation, cutoff)))
      && (forall d | d in h'.peers :: h'.peers[d] == h.peers[d])
      && (forall d :: d in h'.pending <==> d in h.pending && !(d == device && Older(h.pending[d].generation, cutoff)))
      && (forall d | d in h'.pending :: h'.pending[d] == h.pending[d])
  {
    hide H.DropPeer;
    KeyIsDevice(h, device);
    hide I.HubInv;
    if device in h.peers {
      DropKeeps(h, h.peers[device]);
    }
  }

  lemma KeyIsDevice(h: H.HubState, device: DeviceId)
    requires I.HubInv(h)
    ensures device in h.peers ==> h.peers[device].device == device
  {
  }

  lemma DropKeeps(h: H.HubState, p: H.Peer)
    ensures H.DropPeer(h, p).peers == h.peers - {p.device} && H.DropPeer(h, p).pending == h.pending
  {
  }

  // ---------- the events of every run ----------

  /** The step publishes a kick with the generation it enrolled the device under. */
  predicate Kicks(s: E.Sys, caps: E.Limits, l: E.Label, device: DeviceId, generation: int) {
    EnrolledBy(s, caps, l, device) == Some(generation)
  }

  /** The step publishes a revoke with the generation it removed. */
  predicate Revokes(s: E.Sys, caps: E.Limits, l: E.Label, device: DeviceId, generation: int) {
    l.DoRevoke? && l.device == device && E.RevokeOutcome(s.durable, caps, device, l.t) == E.Revoked(generation)
  }

  /** What a read at this state gives, unless the store fails to answer. */
  predicate ReadOf(s: E.Sys, device: DeviceId, read: Read) {
    read.Failed? || read == if device in s.durable.enrolled then Present(s.durable.enrolled[device].generation) else Absent
  }

  /** Handling a kick reaches the current generation exactly when the event is newer than it,
      whether the store fails to answer or has answered earlier. */
  lemma KickReach(generation: int, current: int, read: Read)
    requires generation > 0 && (read.Present? ==> read.generation <= current)
    ensures Older(current, KickCutoff(generation, read)) <==> generation > current
  {
  }

  /** Handling a revoke reaches it exactly when the device was absent at the read, or the event is
      not older than what was read, or, without an answer, not older than the current generation. */
  lemma RevokeReach(generation: int, current: int, read: Read)
    requires generation > 0 && (read.Present? ==> read.generation <= current)
    ensures Older(current, RevokeCutoff(generation, read)) <==>
      generation >= match read { case Failed => current case Present(seen) => seen case Absent => generation }
  {
  }

  /** No enrollment of the device up to step `n` falls from a positive generation. */
  ghost predicate NeverFalls(caps: E.Limits, states: seq<E.Sys>, labels: seq<E.Label>, n: nat, device: DeviceId)
    requires n <= |labels| <= |states|
  {
    NoFallFrom(caps, states, labels, 0, n, device, 1)
  }

  lemma RisesFrom(caps: E.Limits, states: seq<E.Sys>, labels: seq<E.Label>, i: nat, n: nat, device: DeviceId)
    requires E.IsRun(caps, states, labels) && i <= n <= |labels| && NeverFalls(caps, states, labels, n, device)
    requires PastOf(caps, states, labels, i, device).count > 0 && PastOf(caps, states, labels, i, device).last > 0
    ensures PastOf(caps, states, labels, i, device).last <= PastOf(caps, states, labels, n, device).last
    ensures PastOf(caps, states, labels, n, device).count > PastOf(caps, states, labels, i, device).count ==>
      PastOf(caps, states, labels, i, device).last < PastOf(caps, states, labels, n, device).last
  {
    hide E.Do, FallsAt;
    GenerationsRise(caps, states, labels, i, n, device);
  }

  /** Where generations never fall, a kick is at most as new as any later durable enrollment. */
  lemma KicksAreNotNewer(caps: E.Limits, states: seq<E.Sys>, labels: seq<E.Label>, i: nat, n: nat, device: DeviceId, generation: int)
    requires E.IsRun(caps, states, labels) && i < n <= |labels| && NeverFalls(caps, states, labels, n, device) && generation > 0
    requires Kicks(states[i], caps, labels[i], device, generation) && device in states[n].durable.enrolled
    ensures generation <= states[n].durable.enrolled[device].generation
  {
    hide E.Do, EnrolledBy, NeverFalls;
    assert PastOf(caps, states, labels, i + 1, device).last == generation;
    RisesFrom(caps, states, labels, i + 1, n, device);
    RunsKnowLatest(caps, states, labels, n, device);
  }

  /** There a revoke is older than any later durable enrollment. */
  lemma RevokesAreOlder(caps: E.Limits, states: seq<E.Sys>, labels: seq<E.Label>, i: nat, n: nat, device: DeviceId, generation: int)
    requires E.IsRun(caps, states, labels) && i < n <= |labels| && NeverFalls(caps, states, labels, n, device) && generation > 0
    requires Revokes(states[i], caps, labels[i], device, generation) && device in states[n].durable.enrolled
    ensures generation < states[n].durable.enrolled[device].generation
  {
    hide NeverFalls;
    assert states[i + 1] == E.Do(states[i], caps, labels[i]);
    OnlyEnrollingEnrolls(caps, states, labels, i + 1, n, device);
    assert PastOf(caps, states, labels, i + 1, device) == PastOf(caps, states, labels, i, device);
    RunsKnowLatest(caps, states, labels, i, device);
    RisesFrom(caps, states, labels, i, n, device);
    RunsKnowLatest(caps, states, labels, n, device);
  }

  /** Any event published so far is handled, however late, often or out of order: the store is read
      at state `m` and the sockets are closed at state `n`, when another instance may have changed
      the enrollment. A kick spares the current generation; a revoke does unless the device was
      absent at the read. */
  lemma EventsSpareCurrent(caps: E.Limits, states: seq<E.Sys>, labels: seq<E.Label>, i: nat, m: nat, n: nat, device: DeviceId,
                           generation: int, read: Read)
    requires E.IsRun(caps, states, labels) && i < m <= n <= |labels| && NeverFalls(caps, states, labels, n, device)
    requires generation > 0 && device in states[n].durable.enrolled && ReadOf(states[m], device, read)
    ensures var current := states[n].durable.enrolled[device].generation;
      && (Kicks(states[i], caps, labels[i], device, generation) ==> !Older(current, KickCutoff(generation, read)))
      && (Revokes(states[i], caps, labels[i], device, generation) ==>
            (Older(current, RevokeCutoff(generation, read)) <==> read.Absent?))
  {
    hide E.Do, EnrolledBy, Kicks, Revokes, FallsAt;
    var current := states[n].durable.enrolled[device].generation;
    if Kicks(states[i], caps, labels[i], device, generation) {
      KicksAreNotNewer(caps, states, labels, i, n, device, generation);
      if read.Present? {
        KicksAreNotNewer(caps, states, labels, i, m, device, generation);
        ReadIsNotNewer(caps, states, labels, m, n, device);
      }
      KickReach(generation, current, read);
    }
    if Revokes(states[i], caps, labels[i], device, generation) {
      RevokesAreOlder(caps, states, labels, i, n, device, generation);
      if read.Present? {
        RevokesAreOlder(caps, states, labels, i, m, device, generation);
        ReadIsNotNewer(caps, states, labels, m, n, device);
      }
      RevokeReach(generation, current, read);
    }
  }

  lemma ReadIsNotNewer(caps: E.Limits, states: seq<E.Sys>, labels: seq<E.Label>, m: nat, n: nat, device: DeviceId)
    requires E.IsRun(caps, states, labels) && m <= n <= |labels| && NeverFalls(caps, states, labels, n, device)
    requires device in states[m].durable.enrolled && device in states[n].durable.enrolled && states[m].durable.enrolled[device].generation > 0
    ensures states[m].durable.enrolled[device].generation <= states[n].durable.enrolled[device].generation
  {
    hide E.Do, NeverFalls;
    RunsKnowLatest(caps, states, labels, m, device);
    RunsKnowLatest(caps, states, labels, n, device);
    RisesFrom(caps, states, labels, m, n, device);
  }

  /** A generation that was durable by the time of the read and is current at the close was durable
      at the read as well: the handler holds the device lock from its read to its close, so no local
      socket can have been authenticated under a later enrollment. */
  lemma CurrentAtRead(caps: E.Limits, states: seq<E.Sys>, labels: seq<E.Label>, a: nat, m: nat, n: nat, device: DeviceId)
    requires E.IsRun(caps, states, labels) && a <= m <= n <= |labels| && NeverFalls(caps, states, labels, n, device)
    requires device in states[a].durable.enrolled && device in states[n].durable.enrolled
    requires states[a].durable.enrolled[device].generation == states[n].durable.enrolled[device].generation > 0
    ensures device in states[m].durable.enrolled
  {
    hide E.Do, NeverFalls;
    RunsKnowLatest(caps, states, labels, a, device);
    RunsKnowLatest(caps, states, labels, n, device);
    RisesFrom(caps, states, labels, a, n, device);
    CountsGrow(caps, states, labels, a, m, device);
    if device !in states[m].durable.enrolled {
      OnlyEnrollingEnrolls(caps, states, labels, m, n, device);
    }
  }

  // ---------- exactly when events spare the current generation ----------

  /** Every event with a positive generation published before any state up to `n` spares the
      generation it finds there. */
  ghost predicate AllSpare(caps: E.Limits, states: seq<E.Sys>, labels: seq<E.Label>, n: nat, device: DeviceId)
    requires n <= |labels| < |states|
  {
    forall i: nat, m: nat, g: int | i < m <= n && g > 0 && device in states[m].durable.enrolled ::
      SparesAt(states[i], caps, labels[i], device, g, states[m].durable.enrolled[device].generation)
  }

  predicate SparesAt(s: E.Sys, caps: E.Limits, l: E.Label, device: DeviceId, g: int, current: int) {
    && (Kicks(s, caps, l, device, g) ==> !Older(current, KickCutoff(g, Present(current))))
    && (Revokes(s, caps, l, device, g) ==> !Older(current, RevokeCutoff(g, Present(current))))
  }

  /** A device that was enrolled and is not any more lost its latest generation to a revocation,
      which published it. */
  lemma {:induction false} LatestWasRevoked(caps: E.Limits, states: seq<E.Sys>, labels: seq<E.Label>, n: nat, device: DeviceId) returns (i: nat)
    requires E.IsRun(caps, states, labels) && n <= |labels| && PastOf(caps, states, labels, n, device).count > 0
    requires device !in states[n].durable.enrolled
    ensures i < n && Revokes(states[i], caps, labels[i], device, PastOf(caps, states, labels, n, device).last)
  {
    hide E.Do;
    RunsKnowLatest(caps, states, labels, n - 1, device);
    RevokeOnlyRemoves(states[n - 1], caps, labels[n - 1], device);
    if device in states[n - 1].durable.enrolled {
      i := n - 1;
    } else {
      i := LatestWasRevoked(caps, states, labels, n - 1, device);
    }
  }

  lemma RevokeOnlyRemoves(s: E.Sys, caps: E.Limits, l: E.Label, device: DeviceId)
    requires device !in E.Do(s, caps, l).durable.enrolled
    ensures EnrolledBy(s, caps, l, device).None?
    ensures device in s.durable.enrolled ==> Revokes(s, caps, l, device, s.durable.enrolled[device].generation)
  {
  }

  /** In every run, all events spare the generation they find if and only if no enrollment finds the
      device forgotten by the store with a candidate not above its latest, positive generation. */
  lemma EventsSpareExactly(caps: E.Limits, states: seq<E.Sys>, labels: seq<E.Label>, n: nat, device: DeviceId)
    requires E.IsRun(caps, states, labels) && n <= |labels|
    ensures AllSpare(caps, states, labels, n, device) <==> NeverFalls(caps, states, labels, n, device)
  {
    hide E.Do, E.Can, FallsAt, SparesAt;
    if NeverFalls(caps, states, labels, n, device) {
      forall i: nat, m: nat, g: int | i < m <= n && g > 0 && device in states[m].durable.enrolled
        ensures SparesAt(states[i], caps, labels[i], device, g, states[m].durable.enrolled[device].generation)
      {
        SparesOne(caps, states, labels, i, m, device, g);
      }
    }
    if AllSpare(caps, states, labels, n, device) {
      forall k | 0 <= k < n && FallsAt(caps, states, labels, k, device)
        ensures PastOf(caps, states, labels, k, device).last < 1
      {
        FallIsReached(caps, states, labels, n, k, device);
      }
    }
  }

  lemma SparesOne(caps: E.Limits, states: seq<E.Sys>, labels: seq<E.Label>, i: nat, m: nat, device: DeviceId, g: int)
    requires E.IsRun(caps, states, labels) && i < m <= |labels| && NeverFalls(caps, states, labels, m, device)
    requires g > 0 && device in states[m].durable.enrolled
    ensures SparesAt(states[i], caps, labels[i], device, g, states[m].durable.enrolled[device].generation)
  {
    hide E.Do, NeverFalls, Kicks, Revokes;
    EventsSpareCurrent(caps, states, labels, i, m, m, device, g, Present(states[m].durable.enrolled[device].generation));
  }

  /** After a fall from a positive generation the revocation of that generation reaches the new one. */
  lemma FallIsReached(caps: E.Limits, states: seq<E.Sys>, labels: seq<E.Label>, n: nat, k: nat, device: DeviceId)
    requires E.IsRun(caps, states, labels) && k < n <= |labels| && FallsAt(caps, states, labels, k, device)
    requires AllSpare(caps, states, labels, n, device)
    ensures PastOf(caps, states, labels, k, device).last < 1
  {
    hide E.Do, E.PutOutcome, Kicks, Revokes;
    var p := PastOf(caps, states, labels, k, device);
    FallsExactlyWhenForgotten(caps, states, labels, k, device);
    var i := LatestWasRevoked(caps, states, labels, k, device);
    RunsKnowLatest(caps, states, labels, k + 1, device);
    EnrolledAfter(states[k], caps, labels[k], device);
    if p.last > 0 {
      var current := states[k + 1].durable.enrolled[device].generation;
      assert SparesAt(states[i], caps, labels[i], device, p.last, current);
      RevokeReach(p.last, current, Present(current));
    }
  }

  lemma EnrolledAfter(s: E.Sys, caps: E.Limits, l: E.Label, device: DeviceId)
    requires EnrolledBy(s, caps, l, device).Some?
    ensures device in E.Do(s, caps, l).durable.enrolled
  {
  }

  /** The exception is real: a delayed kick of generation 1000000 finds the device enrolled under
      999999 with an accepted credential, and takes away the control socket of that generation. */
  lemma StaleKickReachesCurrent(s0: E.Sys, h: H.HubState, conn: nat) returns (states: seq<E.Sys>, labels: seq<E.Label>)
    requires s0 == E.Sys(E.Durable(map[], map[]), map[], {}, 0)
    requires 1 in h.peers && h.peers[1] == H.Peer(1, conn, 999_999)
    ensures E.IsRun(TIGHT, states, labels) && |labels| == 6 && Kicks(states[2], TIGHT, labels[2], 1, 1_000_000)
    ensures 1 in states[6].durable.enrolled && states[6].durable.enrolled[1].generation == 999_999
    ensures exists c :: c in states[6].issued && c.device == 1 && c.generation == 999_999
                        && E.ClaimsCurrent(states[6].durable, TIGHT, c, states[6].clock, states[6].clock)
    ensures 1 !in H.DisconnectBeforeStep(h, 1, KickCutoff(1_000_000, Present(999_999))).peers
  {
    hide E.Do, E.Can;
    states, labels := GenerationCanFall(s0);
    var c := E.Fresh(1, 7, 999_999, TIGHT.ttl, START + 1_000);
    assert c in states[6].issued && c.device == 1 && c.generation == 999_999;
  }

  // ---------- reconciliation ----------

  /** No local socket of the device is older than the cutoff. */
  ghost predicate NoneOlder(h: H.HubState, t: D.Table, device: DeviceId, cutoff: int) {
    && (device in h.peers ==> !Older(h.peers[device].generation, cutoff))
    && (device in h.pending ==> !Older(h.pending[device].generation, cutoff))
    && (forall e | e in Endpoints(t, device) :: !Older(t.staging.info[e].generation, cutoff))
    && (forall x | x in LeasesOf(t, device) :: !Older(t.staging.leases[x].generation, cutoff))
  }

  /** Every device with a local socket or lease. */
  function LocalDevices(h: H.HubState, t: D.Table): set<DeviceId> {
    h.peers.Keys + h.pending.Keys
    + (set e | e in t.core.refs + t.staging.upgrades && e in t.staging.info :: t.staging.info[e].device)
    + (set l | l in t.staging.leases :: t.staging.leases[l].device)
  }

  /** Sockets only disappear. */
  ghost predicate FewerSockets(h: H.HubState, t: D.Table, h': H.HubState, t': D.Table) {
    && H.Submap(h'.peers, h.peers) && H.Submap(h'.pending, h.pending)
    && t'.staging.info == t.staging.info && t'.core.refs + t'.staging.upgrades <= t.core.refs + t.staging.upgrades
    && (forall x | x in t'.staging.leases :: x in t.staging.leases && t'.staging.leases[x] == t.staging.leases[x])
  }

  lemma DataConverges(t: D.Table, l: D.TableLabel)
    requires R.TableInv(t) && D.Enabled(t, l) && l.DoCloseDevice?
    ensures forall e | e in Endpoints(D.Step(t, l), l.device) :: !Older(t.staging.info[e].generation, l.cutoff)
    ensures forall x | x in LeasesOf(D.Step(t, l), l.device) :: !Older(D.Step(t, l).staging.leases[x].generation, l.cutoff)
  {
    hide R.TableInv, D.Step;
    StagingAfterClose(t, l);
    var targets, leases := D.Targets(t, l.device, l.cutoff), D.OwnedLeases(t.staging, l.device, l.cutoff);
    forall e | e in Endpoints(D.Step(t, l), l.device)
      ensures !Older(t.staging.info[e].generation, l.cutoff)
    {
      assert e in Endpoints(t, l.device) && e !in targets;
    }
    forall x | x in LeasesOf(D.Step(t, l), l.device)
      ensures !Older(t.staging.leases[x].generation, l.cutoff)
    {
      assert x in t.staging.leases && x !in leases;
    }
  }

  /** Closing one device before a generation leaves it no older socket and opens none anywhere. */
  lemma CloseConverges(h: H.HubState, t: D.Table, l: D.TableLabel)
    requires I.HubInv(h) && R.TableInv(t) && D.Enabled(t, l) && l.DoCloseDevice?
    ensures NoneOlder(H.DisconnectBeforeStep(h, l.device, l.cutoff), D.Step(t, l), l.device, l.cutoff)
    ensures FewerSockets(h, t, H.DisconnectBeforeStep(h, l.device, l.cutoff), D.Step(t, l))
  {
    hide R.TableInv, I.HubInv, D.Step, D.Enabled, Endpoints, LeasesOf;
    HubSocketsAfterClose(h, l.device, l.cutoff);
    StagingAfterClose(t, l);
    DataConverges(t, l);
  }

  /** Handling any event published so far keeps every control socket, endpoint and lease of the
      device that is authenticated under its current durable generation: the generation was durable
      at some state `a` when the socket was admitted, the store is read at state `m`, and the
      sockets are closed at state `n`. */
  lemma EventKeepsCurrentSockets(caps: E.Limits, states: seq<E.Sys>, labels: seq<E.Label>, i: nat, a: nat, m: nat, n: nat,
                                 generation: int, read: Read, h: H.HubState, t: D.Table, l: D.TableLabel)
    requires E.IsRun(caps, states, labels) && i < m <= n <= |labels| && a <= m && l.DoCloseDevice?
    requires NeverFalls(caps, states, labels, n, l.device) && generation > 0 && ReadOf(states[m], l.device, read)
    requires l.device in states[a].durable.enrolled && l.device in states[n].durable.enrolled
    requires states[a].durable.enrolled[l.device].generation == states[n].durable.enrolled[l.device].generation > 0
    requires || (Kicks(states[i], caps, labels[i], l.device, generation) && l.cutoff == KickCutoff(generation, read))
             || (Revokes(states[i], caps, labels[i], l.device, generation) && l.cutoff == RevokeCutoff(generation, read))
    requires I.HubInv(h) && R.TableInv(t) && RolesDiffer(t.staging.info) && D.Enabled(t, l)
    ensures var current, h', t' := states[n].durable.enrolled[l.device].generation, H.DisconnectBeforeStep(h, l.device, l.cutoff), D.Step(t, l);
      && (l.device in h.peers && h.peers[l.device].generation == current ==>
            l.device in h'.peers && h'.peers[l.device] == h.peers[l.device])
      && (l.device in h.pending && h.pending[l.device].generation == current ==>
            l.device in h'.pending && h'.pending[l.device] == h.pending[l.device])
      && (forall e | e in Endpoints(t, l.device) && t.staging.info[e].generation == current :: e in Endpoints(t', l.device))
      && (forall x | x in LeasesOf(t, l.device) && t.staging.leases[x].generation == current :: x in LeasesOf(t', l.device))
  {
    hide E.Do, NeverFalls, Kicks, Revokes, KickCutoff, RevokeCutoff, I.HubInv, R.TableInv, RolesDiffer;
    hide D.Enabled, D.Step, Endpoints, LeasesOf, H.DisconnectBeforeStep;
    CurrentAtRead(caps, states, labels, a, m, n, l.device);
    EventsSpareCurrent(caps, states, labels, i, m, n, l.device, generation, read);
    HubSocketsAfterClose(h, l.device, l.cutoff);
    DataSocketsAfterClose(t, l);
  }

  /** A reconcile step of one device keeps exactly its sockets of the durable generation or newer,
      and none at all when the device is not enrolled. */
  lemma ReconcileIsExact(h: H.HubState, t: D.Table, l: D.TableLabel, read: Read)
    requires I.HubInv(h) && R.TableInv(t) && RolesDiffer(t.staging.info) && D.Enabled(t, l) && l.DoCloseDevice?
    requires ((read.Present? && read.generation > 0) || read.Absent?) && l.cutoff == ReconcileCutoff(read)
    ensures var h', t' := H.DisconnectBeforeStep(h, l.device, l.cutoff), D.Step(t, l);
      && (l.device in h'.peers <==> l.device in h.peers && read.Present? && read.generation <= h.peers[l.device].generation)
      && (l.device in h'.pending <==> l.device in h.pending && read.Present? && read.generation <= h.pending[l.device].generation)
      && (forall e :: e in Endpoints(t', l.device) <==>
            e in Endpoints(t, l.device) && read.Present? && read.generation <= t.staging.info[e].generation)
      && (forall x :: x in LeasesOf(t', l.device) <==>
            x in LeasesOf(t, l.device) && read.Present? && read.generation <= t.staging.leases[x].generation)
  {
    hide I.HubInv, R.TableInv, RolesDiffer, D.Enabled, D.Step, Endpoints, LeasesOf, H.DisconnectBeforeStep;
    HubSocketsAfterClose(h, l.device, l.cutoff);
    DataSocketsAfterClose(t, l);
  }
}
