/** The relay-data registry as it is updated in place under its mutex. Every method carries the
    table from one state of the registry machine to the next. */
module RelayDataRegistries {
  import opened Options
  import opened RelayDataTable
  import opened RelayDataAccounting
  import opened RelayDataInvariants
  import opened RelayDataRuns

  // ---------- one more element of an iteration ----------

  lemma {:induction false} DropLeasesSnoc(g: Staging, order: seq<LeaseId>, l: LeaseId)
    ensures DropLeases(g, order + [l]) == DropLease(DropLeases(g, order), l)
    decreases |order|
  {
    if order == [] {
      assert ([l])[1..] == [];
      assert DropLeases(g, [l]) == DropLeases(DropLease(g, l), []);
    } else {
      assert (order + [l])[1..] == order[1..] + [l];
      DropLeasesSnoc(DropLease(g, order[0]), order[1..], l);
    }
  }

  lemma {:induction false} RemoveUpgradesSnoc(g: Staging, order: seq<EndpointId>, e: EndpointId)
    ensures RemoveUpgrades(g, order + [e]) == RemoveUpgrade(RemoveUpgrades(g, order), e)
    decreases |order|
  {
    if order == [] {
      assert ([e])[1..] == [];
      assert RemoveUpgrades(g, [e]) == RemoveUpgrades(RemoveUpgrade(g, e), []);
    } else {
      assert (order + [e])[1..] == order[1..] + [e];
      RemoveUpgradesSnoc(RemoveUpgrade(g, order[0]), order[1..], e);
    }
  }

  lemma {:induction false} ReleaseAllSnoc(c: Core, info: map<EndpointId, Info>, order: seq<EndpointId>, e: EndpointId)
    requires e in info && forall x | x in order :: x in info
    ensures ReleaseAllCore(c, info, order + [e]) == ReleaseCore(ReleaseAllCore(c, info, order), e, info[e].rid)
    decreases |order|
  {
    if order == [] {
      assert ([e])[1..] == [];
      assert ReleaseAllCore(c, info, [e]) == ReleaseAllCore(ReleaseCore(c, e, info[e].rid), info, []);
    } else {
      assert (order + [e])[1..] == order[1..] + [e];
      ReleaseAllSnoc(ReleaseCore(c, order[0], info[order[0]].rid), info, order[1..], e);
    }
  }

  lemma NothingEnumerated(targets: set<EndpointId>)
    ensures Enumerates<EndpointId>([], targets - targets)
    ensures forall g :: RemoveUpgrades(g, []) == g
    ensures forall c, info :: ReleaseAllCore(c, info, []) == c
  {
  }

  lemma ReleasedOneMore(g: Staging, c: Core, info: map<EndpointId, Info>, targets: set<EndpointId>, rest: set<EndpointId>,
                        order: seq<EndpointId>, e: EndpointId)
    requires e in rest && rest <= targets <= info.Keys && Enumerates(order, targets - rest)
    requires forall x | x in order :: x in info
    ensures Enumerates(order + [e], targets - (rest - {e}))
    ensures RemoveUpgrades(g, order + [e]) == RemoveUpgrade(RemoveUpgrades(g, order), e)
    ensures ReleaseAllCore(c, info, order + [e]) == ReleaseCore(ReleaseAllCore(c, info, order), e, info[e].rid)
  {
    RemoveUpgradesSnoc(g, order, e);
    ReleaseAllSnoc(c, info, order, e);
    EnumeratesSnoc(order, targets - rest, e);
    assert targets - rest + {e} == targets - (rest - {e});
  }

  lemma EnumeratesSnoc<T(!new)>(order: seq<T>, xs: set<T>, x: T)
    requires Enumerates(order, xs) && x !in xs
    ensures Enumerates(order + [x], xs + {x})
  {
  }

  class RelayDataRegistry {
    const maxSessions: nat
    var pairs: map<ReservationId, Pair>
    var pendingPairs: int
    var activePairs: int
    var upgradeSlots: int
    var consumed: map<ReservationId, int>
    var deviceRefs: set<EndpointId>
    var upgradeRefs: set<EndpointId>
    var upgradeLeases: map<LeaseId, Lease>
    var pumpEndpoints: set<EndpointId>
    var peers: map<EndpointId, EndpointId>
    var info: map<EndpointId, Info>
    var closed: bool
    ghost var clock: int
    ghost var activatedAt: map<ReservationId, int>

    ghost function StagingState(): Staging
      reads this
    {
      Staging(maxSessions, info, upgradeLeases, upgradeRefs, upgradeSlots, pumpEndpoints, closed)
    }

    ghost function CoreState(): Core
      reads this
    {
      Core(pairs, pendingPairs, activePairs, deviceRefs, peers, None)
    }

    ghost function State(): Table
      reads this
    {
      Table(StagingState(), CoreState(), Tombs(consumed, clock, activatedAt))
    }

    constructor (max: nat)
      ensures State() == Initial(max)
    {
      maxSessions := max;
      pairs, pendingPairs, activePairs, upgradeSlots, consumed := map[], 0, 0, 0, map[];
      deviceRefs, upgradeRefs, upgradeLeases, pumpEndpoints, peers, info := {}, {}, map[], {}, map[], map[];
      closed, clock, activatedAt := false, 0, map[];
    }

    method BeginUpgrade(lease: LeaseId, device: DeviceId, generation: int) returns (accepted: bool)
      requires lease !in upgradeLeases
      modifies this
      ensures State() == Step(old(State()), DoBeginUpgrade(lease, device, generation))
      ensures accepted == (lease in upgradeLeases)
    {
      if closed || upgradeSlots >= 2 * maxSessions {
        return false;
      }
      upgradeLeases := upgradeLeases[lease := Lease(device, generation)];
      upgradeSlots := upgradeSlots + 1;
      accepted := true;
    }

    method InvalidateLease(lease: LeaseId)
      modifies this`upgradeLeases, this`upgradeSlots
      ensures StagingState() == DropLease(old(StagingState()), lease)
      ensures State() == Step(old(State()), DoDropLease(lease))
    {
      if lease !in upgradeLeases {
        return;
      }
      upgradeLeases := upgradeLeases - {lease};
      if upgradeSlots > 0 {
        upgradeSlots := upgradeSlots - 1;
      }
    }

    /** A pre-upgrade lease becomes a tracked endpoint, unless the endpoint is already terminal. */
    method StageEndpoint(lease: LeaseId, e: EndpointId, known: Info, terminal: bool) returns (ok: bool)
      requires e !in info
      modifies this
      ensures State() == if terminal then old(State()) else Step(old(State()), DoStage(lease, e, known))
      ensures ok == (e in info)
    {
      if closed || lease !in upgradeLeases || terminal {
        return false;
      }
      upgradeLeases := upgradeLeases - {lease};
      info := info[e := known];
      upgradeRefs := upgradeRefs + {e};
      pumpEndpoints := pumpEndpoints + {e};
      ok := true;
    }

    method RemoveUpgrade(e: EndpointId)
      modifies this`upgradeRefs, this`upgradeSlots
      ensures StagingState() == RelayDataTable.RemoveUpgrade(old(StagingState()), e)
    {
      if e !in upgradeRefs {
        return;
      }
      upgradeRefs := upgradeRefs - {e};
      if upgradeSlots > 0 {
        upgradeSlots := upgradeSlots - 1;
      }
    }

    method PruneConsumed(now: int)
      modifies this`consumed
      ensures consumed == UnexpiredMarks(old(consumed), now)
    {
      var rest := consumed.Keys;
      while rest != {}
        invariant rest <= old(consumed).Keys
        invariant consumed == map r | r in old(consumed) && (r in rest || old(consumed)[r] > now) :: old(consumed)[r]
        decreases |rest|
      {
        var r :| r in rest;
        if consumed[r] <= now {
          consumed := consumed - {r};
        }
        rest := rest - {r};
      }
    }

    method SetSlot(rid: ReservationId, role: Role, e: EndpointId)
      requires rid in pairs
      modifies this`pairs, this`deviceRefs
      ensures pairs == old(pairs)[rid := Fill(old(pairs)[rid], role, e)] && deviceRefs == old(deviceRefs) + {e}
    {
      deviceRefs := deviceRefs + {e};
      match role
      case Initiator => pairs := pairs[rid := pairs[rid].(initiator := Some(e))];
      case Responder => pairs := pairs[rid := pairs[rid].(responder := Some(e))];
    }

    method OpenFresh(rid: ReservationId, role: Role, e: EndpointId)
      requires rid !in pairs
      modifies this`pairs, this`deviceRefs, this`pendingPairs
      ensures CoreState() == OpenPair(old(CoreState()), rid, role, e)
    {
      pairs := pairs[rid := EMPTY_PAIR];
      pendingPairs := pendingPairs + 1;
      SetSlot(rid, role, e);
    }

    /** A retry of a filled role. */
    method Displace(rid: ReservationId, role: Role, e: EndpointId) returns (displaced: set<EndpointId>)
      requires rid in pairs && Slot(pairs[rid], role).Some?
      modifies this`pairs, this`deviceRefs, this`peers, this`pendingPairs, this`activePairs
      ensures var p := old(pairs)[rid];
        && displaced == (if p.active then Members(p) else {Slot(p, role).value})
        && CoreState() == if p.active then ReplaceActive(old(CoreState()), rid, role, e) else ReplaceWaiting(old(CoreState()), rid, role, e)
    {
      var p := pairs[rid];
      if !p.active {
        displaced := {Slot(p, role).value};
        deviceRefs := deviceRefs - displaced;
        peers := peers - displaced;
        SetSlot(rid, role, e);
        return;
      }
      displaced := Members(p);
      deviceRefs := deviceRefs - displaced;
      peers := peers - displaced;
      pairs := pairs[rid := Pair(None, None, false, true)];
      if activePairs > 0 {
        activePairs := activePairs - 1;
      }
      pendingPairs := pendingPairs + 1;
      SetSlot(rid, role, e);
    }

    /** Makes room for a tombstone: only a full table is swept. */
    method ConsumedRoom(now: int) returns (room: bool)
      modifies this`consumed
      ensures State().tombs == Swept(old(State().tombs), now)
      ensures room == (|consumed| < MAX_CONSUMED)
    {
      if |consumed| >= MAX_CONSUMED {
        PruneConsumed(now);
      }
      room := |consumed| < MAX_CONSUMED;
    }

    method Link(rid: ReservationId, role: Role, e: EndpointId, other: EndpointId, ghost now: int)
      requires rid in pairs && Other(pairs[rid], role) == Some(other)
      modifies this`pairs, this`deviceRefs, this`peers
      ensures CoreState() == PairUp(old(CoreState()), rid, role, e, now).(pairing := None)
    {
      SetSlot(rid, role, e);
      peers := peers[e := other][other := e];
    }

    /** Admission of one role, up to the queueing of the PairReady frames. */
    method AdmitRole(e: EndpointId, rid: ReservationId, role: Role, now: int) returns (out: Admission)
      modifies this`pairs, this`deviceRefs, this`peers, this`pendingPairs, this`activePairs, this`consumed
      ensures var (t', r) := AdmitInto(old(State()), e, rid, role, now);
        out == r && State() == t'.(core := t'.core.(pairing := None))
    {
      hide Fill, Members, Swept, OpenPair, ReplaceActive, ReplaceWaiting;
      if rid !in pairs {
        if pendingPairs >= maxSessions {
          return Rejected;
        }
        OpenFresh(rid, role, e);
        return Waiting({});
      }
      if Slot(pairs[rid], role).Some? {
        var displaced := Displace(rid, role, e);
        return Waiting(displaced);
      }
      var other := Other(pairs[rid], role);
      if other.None? {
        SetSlot(rid, role, e);
        return Waiting({});
      }
      if activePairs >= maxSessions {
        return Rejected;
      }
      var room := ConsumedRoom(now);
      if !room {
        return Rejected;
      }
      Link(rid, role, e, other.value, now);
      out := Paired(other.value);
    }

    method CommitPair(rid: ReservationId, e: EndpointId, other: EndpointId, now: int)
      requires rid in pairs
      modifies this`pairs, this`pendingPairs, this`activePairs, this`consumed, this`activatedAt
      ensures State() == Commit(old(State()).(core := old(CoreState()).(pairing := Some(Pairing(rid, e, other, now)))))
    {
      pairs := pairs[rid := pairs[rid].(active := true, replacementPending := false)];
      pendingPairs := pendingPairs - 1;
      activePairs := activePairs + 1;
      consumed := consumed[rid := now + CONSUMED_RETENTION];
      activatedAt := activatedAt[rid := now];
    }

    method RollBackPair(rid: ReservationId, e: EndpointId, other: EndpointId, ghost now: int)
      modifies this`pairs, this`pendingPairs, this`deviceRefs, this`peers
      ensures CoreState() == AbortCore(old(CoreState()).(pairing := Some(Pairing(rid, e, other, now))))
    {
      pairs := pairs - {rid};
      if pendingPairs > 0 {
        pendingPairs := pendingPairs - 1;
      }
      deviceRefs := deviceRefs - {e, other};
      peers := peers - {e, other};
    }

    /** Whether a live tombstone blocks the reservation; an expired one is forgotten. */
    method CheckConsumed(rid: ReservationId, now: int) returns (blocked: bool)
      modifies this`consumed
      ensures blocked == Blocked(old(State()), rid, now)
      ensures blocked ==> consumed == old(consumed)
      ensures consumed == if rid in old(consumed) && old(consumed)[rid] <= now then old(consumed) - {rid} else old(consumed)
    {
      blocked := false;
      if rid in consumed {
        if consumed[rid] > now {
          blocked := rid !in pairs || (!pairs[rid].active && !pairs[rid].replacementPending);
        } else {
          consumed := consumed - {rid};
        }
      }
    }

    /** What is left of admission once nothing blocks it. */
    method AdmitAndPair(e: EndpointId, rid: ReservationId, role: Role, now: int, queued: bool) returns (out: Admission)
      modifies this
      ensures var (t, r) := AdmitInto(old(State()), e, rid, role, now);
        out == r && State() == if !r.Paired? then t else if queued then Commit(t) else t.(core := AbortCore(t.core))
    {
      hide AdmitInto, Commit, AbortCore;
      out := AdmitRole(e, rid, role, now);
      if out.Paired? {
        if queued {
          CommitPair(rid, e, out.other, now);
        } else {
          RollBackPair(rid, e, out.other, now);
        }
      }
    }

    /** admitEndpoint; `queued` says whether both writer queues take their PairReady frame. */
    method AdmitEndpoint(e: EndpointId, terminal: bool, now: int, queued: bool)
      returns (peer: Option<EndpointId>, ok: bool, displaced: set<EndpointId>)
      requires e in info
      modifies this
      ensures var (t, out) := Admit(old(State()), e, terminal, now);
        && ok == (out.Waiting? || (out.Paired? && queued))
        && peer == (if out.Paired? then Some(out.other) else None)
        && displaced == (if out.Waiting? then out.displaced else {})
        && State() == (if !out.Paired? then t else if queued then Commit(t) else t.(core := AbortCore(t.core)))
    {
      hide AdmitInto, Commit, AbortCore, RelayDataTable.RemoveUpgrade;
      peer, ok, displaced := None, false, {};
      var known := info[e];
      clock := now;
      RemoveUpgrade(e);
      if closed || terminal || known.role.None? {
        return;
      }
      var blocked := CheckConsumed(known.rid, now);
      if blocked {
        return;
      }
      var out := AdmitAndPair(e, known.rid, known.role.value, now, queued);
      ok := out.Waiting? || (out.Paired? && queued);
      peer := if out.Paired? then Some(out.other) else None;
      displaced := if out.Waiting? then out.displaced else {};
    }

    method Detach(e: EndpointId, rid: ReservationId)
      modifies this`deviceRefs, this`pairs, this`peers, this`pendingPairs, this`activePairs
      ensures CoreState() == ReleaseCore(old(CoreState()), e, rid)
    {
      deviceRefs := deviceRefs - {e};
      if rid !in pairs || (pairs[rid].initiator != Some(e) && pairs[rid].responder != Some(e)) {
        return;
      }
      var p := Cleared(pairs[rid], e);
      peers := peers - {e} - Members(p);
      if p.active {
        pairs := pairs - {rid};
        if activePairs > 0 {
          activePairs := activePairs - 1;
        }
      } else if p.initiator.None? && p.responder.None? {
        pairs := pairs - {rid};
        if pendingPairs > 0 {
          pendingPairs := pendingPairs - 1;
        }
      } else {
        pairs := pairs[rid := p];
      }
    }

    /** Detaches exactly one endpoint; an active pair goes with it. */
    method ReleaseEndpoint(e: EndpointId)
      requires e in info
      modifies this`upgradeRefs, this`upgradeSlots, this`deviceRefs, this`pairs, this`peers, this`pendingPairs, this`activePairs
      ensures State() == Release(old(State()), e)
    {
      hide ReleaseCore, RelayDataTable.RemoveUpgrade;
      RemoveUpgrade(e);
      Detach(e, info[e].rid);
    }

    method InvalidateLeases(leases: set<LeaseId>) returns (ghost order: seq<LeaseId>)
      modifies this`upgradeLeases, this`upgradeSlots
      ensures Enumerates(order, leases) && StagingState() == DropLeases(old(StagingState()), order)
    {
      order := [];
      var rest := leases;
      while rest != {}
        invariant rest <= leases && Enumerates(order, leases - rest)
        invariant StagingState() == DropLeases(old(StagingState()), order)
        decreases |rest|
      {
        var l :| l in rest;
        InvalidateLease(l);
        DropLeasesSnoc(old(StagingState()), order, l);
        EnumeratesSnoc(order, leases - rest, l);
        assert leases - rest + {l} == leases - (rest - {l});
        order := order + [l];
        rest := rest - {l};
      }
      assert leases - rest == leases;
    }

    method ReleaseEndpoints(targets: set<EndpointId>) returns (ghost order: seq<EndpointId>)
      requires targets <= info.Keys
      modifies this`upgradeRefs, this`upgradeSlots, this`deviceRefs, this`pairs, this`peers, this`pendingPairs, this`activePairs
      ensures Enumerates(order, targets)
      ensures StagingState() == RemoveUpgrades(old(StagingState()), order)
      ensures (forall e | e in order :: e in info) && CoreState() == ReleaseAllCore(old(CoreState()), info, order)
    {
      hide ReleaseCore, RelayDataTable.RemoveUpgrade, Enumerates, ReleaseAllCore, RemoveUpgrades;
      order := [];
      NothingEnumerated(targets);
      var rest := targets;
      while rest != {}
        invariant rest <= targets && Enumerates(order, targets - rest)
        invariant forall e | e in order :: e in info
        invariant StagingState() == RemoveUpgrades(old(StagingState()), order)
        invariant CoreState() == ReleaseAllCore(old(CoreState()), info, order)
        decreases rest
      {
        var e :| e in rest;
        ReleaseEndpoint(e);
        ReleasedOneMore(old(StagingState()), old(CoreState()), info, targets, rest, order, e);
        order := order + [e];
        rest := rest - {e};
      }
      assert targets - rest == targets;
    }

    method CollectTargets(device: DeviceId, cutoff: int) returns (targets: set<EndpointId>)
      ensures targets == Targets(State(), device, cutoff)
    {
      hide TargetsIn, Targets;
      targets := {};
      var rest := deviceRefs + upgradeRefs;
      NoneSeen(State(), device, cutoff);
      assert deviceRefs + upgradeRefs - rest == {};
      while rest != {}
        invariant rest <= deviceRefs + upgradeRefs
        invariant targets == TargetsIn(State(), device, cutoff, deviceRefs + upgradeRefs - rest)
        decreases |rest|
      {
        var e :| e in rest;
        TargetsGrow(State(), device, cutoff, deviceRefs + upgradeRefs - rest, e);
        assert deviceRefs + upgradeRefs - (rest - {e}) == deviceRefs + upgradeRefs - rest + {e};
        if e in info && info[e].device == device && (cutoff <= 0 || info[e].generation < cutoff) {
          targets := targets + {e};
          if e in deviceRefs && e in peers {
            targets := targets + {peers[e]};
          }
        }
        rest := rest - {e};
      }
      assert deviceRefs + upgradeRefs - rest == deviceRefs + upgradeRefs - {};
      AllSeen(State(), device, cutoff);
    }

    /** The mutex region of closeDevice and its generation-aware form. */
    method CloseDeviceBeforeGeneration(device: DeviceId, cutoff: int)
      returns (targets: set<EndpointId>, ghost leaseOrder: seq<LeaseId>, ghost order: seq<EndpointId>)
      requires TableInv(State())
      modifies this
      ensures Enabled(old(State()), DoCloseDevice(device, cutoff, leaseOrder, order))
      ensures State() == Step(old(State()), DoCloseDevice(device, cutoff, leaseOrder, order))
      ensures targets == Targets(old(State()), device, cutoff)
    {
      hide TableInv, Enumerates, Targets, DropLeases, RemoveUpgrades, ReleaseAllCore;
      targets := CollectTargets(device, cutoff);
      TargetsKnown(State(), device, cutoff);
      var leases := set l | l in upgradeLeases && upgradeLeases[l].device == device
                            && (cutoff <= 0 || upgradeLeases[l].generation < cutoff);
      assert leases == OwnedLeases(StagingState(), device, cutoff);
      leaseOrder := InvalidateLeases(leases);
      order := ReleaseEndpoints(targets);
    }

    /** Every device with an endpoint or a lease here. */
    method DeviceIds() returns (ids: set<DeviceId>)
      ensures ids == (set e | e in deviceRefs + upgradeRefs && e in info :: info[e].device)
                     + (set l | l in upgradeLeases :: upgradeLeases[l].device)
    {
      ids := (set e | e in deviceRefs + upgradeRefs && e in info :: info[e].device)
             + (set l | l in upgradeLeases :: upgradeLeases[l].device);
    }

    /** closeAll: permanently closed, every lease dropped, every endpoint detached. */
    method CloseAll() returns (ghost leaseOrder: seq<LeaseId>, ghost order: seq<EndpointId>)
      requires TableInv(State())
      modifies this
      ensures Enabled(old(State()), DoCloseAll(leaseOrder, order))
      ensures State() == Step(old(State()), DoCloseAll(leaseOrder, order))
      ensures Drained(State())
    {
      hide TableInv, Enumerates, DropLeases, RemoveUpgrades, ReleaseAllCore, Drained;
      PumpsKnown(State());
      closed := true;
      leaseOrder := InvalidateLeases(upgradeLeases.Keys);
      order := ReleaseEndpoints(pumpEndpoints);
      CloseAllDrains(old(State()), leaseOrder, order);
    }
  }

  /** The targets found among the endpoints looked at so far. */
  ghost function TargetsIn(t: Table, device: DeviceId, cutoff: int, seen: set<EndpointId>): set<EndpointId> {
    Owned(t, device, cutoff) * seen
    + (set e | e in Owned(t, device, cutoff) * seen && e in t.core.refs && e in t.core.peer :: t.core.peer[e])
  }

  lemma TargetsGrow(t: Table, device: DeviceId, cutoff: int, seen: set<EndpointId>, e: EndpointId)
    ensures TargetsIn(t, device, cutoff, seen + {e}) ==
      TargetsIn(t, device, cutoff, seen)
      + (if e in Owned(t, device, cutoff) then {e} else {})
      + (if e in Owned(t, device, cutoff) && e in t.core.refs && e in t.core.peer then {t.core.peer[e]} else {})
  {
  }

  lemma NoneSeen(t: Table, device: DeviceId, cutoff: int)
    ensures TargetsIn(t, device, cutoff, {}) == {}
  {
  }

  lemma AllSeen(t: Table, device: DeviceId, cutoff: int)
    ensures TargetsIn(t, device, cutoff, t.core.refs + t.staging.upgrades) == Targets(t, device, cutoff)
    ensures TargetsIn(t, device, cutoff, t.core.refs + t.staging.upgrades - {}) == Targets(t, device, cutoff)
  {
    assert Owned(t, device, cutoff) * (t.core.refs + t.staging.upgrades) == Owned(t, device, cutoff);
    assert t.core.refs + t.staging.upgrades - {} == t.core.refs + t.staging.upgrades;
  }

  lemma TargetsKnown(t: Table, device: DeviceId, cutoff: int)
    requires TableInv(t)
    ensures Targets(t, device, cutoff) <= t.staging.info.Keys
  {
    hide TableInv;
    forall e | e in t.core.peer
      ensures t.core.peer[e] in t.staging.info
    {
      PeerKnown(t, e);
    }
  }

  lemma PeerKnown(t: Table, e: EndpointId)
    requires TableInv(t) && e in t.core.peer
    ensures t.core.peer[e] in t.staging.info
  {
    hide CoreInv, Placed, Linked, PairingNamed, TombsExact, SlotsExact;
    CoreOkParts(t.core, t.staging);
    LinksAreMutual(t.core, t.staging, e);
  }

  lemma PumpsKnown(t: Table)
    requires TableInv(t)
    ensures t.staging.pump <= t.staging.info.Keys
  {
  }
}
