/** The registry's accounting is exact in every run: counters count, guarded decrements never
    saturate, capacities hold, and shutdown leaves nothing behind. */
module RelayDataAccounting {
  import opened Options
  import opened RelayDataTable

  type Pairs = map<ReservationId, Pair>

  // ---------- counting pairs ----------

  function PendingOf(pairs: Pairs): set<ReservationId> { set r | r in pairs && !pairs[r].active }
  function ActiveOf(pairs: Pairs): set<ReservationId> { set r | r in pairs && pairs[r].active }

  function Bit(b: bool): int { if b then 1 else 0 }

  lemma CardPut<T>(s: set<T>, x: T, b: bool)
    ensures |s - {x} + if b then {x} else {}| == |s| - Bit(x in s) + Bit(b)
  {
    assert x in s ==> s - {x} + {x} == s;
  }

  lemma CountPut(pairs: Pairs, r: ReservationId, p: Pair)
    ensures |PendingOf(pairs[r := p])| == |PendingOf(pairs)| - Bit(r in PendingOf(pairs)) + Bit(!p.active)
    ensures |ActiveOf(pairs[r := p])| == |ActiveOf(pairs)| - Bit(r in ActiveOf(pairs)) + Bit(p.active)
  {
    PutSets(pairs, r, p);
    CardPut(PendingOf(pairs), r, !p.active);
    CardPut(ActiveOf(pairs), r, p.active);
  }

  lemma PutSets(pairs: Pairs, r: ReservationId, p: Pair)
    ensures PendingOf(pairs[r := p]) == PendingOf(pairs) - {r} + if !p.active then {r} else {}
    ensures ActiveOf(pairs[r := p]) == ActiveOf(pairs) - {r} + if p.active then {r} else {}
  {
  }

  lemma CountDrop(pairs: Pairs, r: ReservationId)
    ensures |PendingOf(pairs - {r})| == |PendingOf(pairs)| - Bit(r in PendingOf(pairs))
    ensures |ActiveOf(pairs - {r})| == |ActiveOf(pairs)| - Bit(r in ActiveOf(pairs))
  {
    assert PendingOf(pairs - {r}) == PendingOf(pairs) - {r};
    assert ActiveOf(pairs - {r}) == ActiveOf(pairs) - {r};
  }

  // ---------- the core invariant ----------

  /** pendingPairs and activePairs count exactly the inactive and the active pairs; the active
      ones never exceed the session cap, and both together never exceed twice the cap although
      a replacement skips the pending check. */
  ghost predicate Counted(c: Core, max: nat) {
    && c.pending == |PendingOf(c.pairs)| && c.active == |ActiveOf(c.pairs)|
    && c.active <= max && c.pending + c.active <= 2 * max
    && (c.pairing.Some? ==> c.active < max)
  }

  predicate Full(p: Pair) { p.initiator.Some? && p.responder.Some? }
  predicate Half(p: Pair) { p.initiator.Some? != p.responder.Some? }

  predicate Busy(c: Core, r: ReservationId) { c.pairing.Some? && c.pairing.value.rid == r }

  /** An active pair fills both role slots, an inactive one exactly one; only the pair being
      paired right now is inactive with both. */
  predicate WellShaped(p: Pair, busy: bool) {
    if p.active then Full(p) && !p.replacementPending && !busy
    else if busy then Full(p) else Half(p)
  }

  ghost predicate Shaped(c: Core) {
    && (forall r | r in c.pairs :: WellShaped(c.pairs[r], Busy(c, r)))
    && (c.pairing.Some? ==> c.pairing.value.rid in c.pairs)
  }

  ghost predicate CoreInv(c: Core, max: nat) { Counted(c, max) && Shaped(c) }

  lemma OpenPairKeeps(c: Core, max: nat, rid: ReservationId, role: Role, e: EndpointId)
    requires CoreInv(c, max) && c.pairing.None? && rid !in c.pairs && c.pending < max
    ensures CoreInv(OpenPair(c, rid, role, e), max)
  {
    CountPut(c.pairs, rid, Fill(EMPTY_PAIR, role, e));
  }

  lemma ReplaceWaitingKeeps(c: Core, max: nat, rid: ReservationId, role: Role, e: EndpointId)
    requires CoreInv(c, max) && c.pairing.None?
    requires rid in c.pairs && Slot(c.pairs[rid], role).Some? && !c.pairs[rid].active
    ensures CoreInv(ReplaceWaiting(c, rid, role, e), max)
  {
    CountPut(c.pairs, rid, Fill(c.pairs[rid], role, e));
  }

  lemma ReplaceActiveKeeps(c: Core, max: nat, rid: ReservationId, role: Role, e: EndpointId)
    requires CoreInv(c, max) && c.pairing.None?
    requires rid in c.pairs && c.pairs[rid].active
    ensures CoreInv(ReplaceActive(c, rid, role, e), max)
    ensures c.active > 0
  {
    CountPut(c.pairs, rid, Fill(EMPTY_PAIR.(replacementPending := true), role, e));
    assert rid in ActiveOf(c.pairs);
  }

  lemma PairUpKeeps(c: Core, max: nat, rid: ReservationId, role: Role, e: EndpointId, now: int)
    requires CoreInv(c, max) && c.pairing.None? && c.active < max
    requires rid in c.pairs && Slot(c.pairs[rid], role).None? && Other(c.pairs[rid], role).Some?
    ensures CoreInv(PairUp(c, rid, role, e, now), max)
  {
    CountPut(c.pairs, rid, Fill(c.pairs[rid], role, e));
  }

  lemma CommitKeeps(c: Core, max: nat)
    requires CoreInv(c, max) && c.pairing.Some?
    ensures CoreInv(CommitCore(c), max)
  {
    var rid := c.pairing.value.rid;
    CountPut(c.pairs, rid, c.pairs[rid].(active := true, replacementPending := false));
    assert WellShaped(c.pairs[rid], true);
  }

  lemma AbortKeeps(c: Core, max: nat)
    requires CoreInv(c, max) && c.pairing.Some?
    ensures CoreInv(AbortCore(c), max)
    ensures c.pending > 0
  {
    var rid := c.pairing.value.rid;
    CountDrop(c.pairs, rid);
    assert WellShaped(c.pairs[rid], true);
    assert rid in PendingOf(c.pairs);
  }

  /** Releasing an endpoint that fills a role slot always removes its pair. */
  lemma ReleaseKeeps(c: Core, max: nat, e: EndpointId, rid: ReservationId)
    requires CoreInv(c, max) && c.pairing.None?
    ensures CoreInv(ReleaseCore(c, e, rid), max)
    ensures ReleaseCore(c, e, rid).pairs == if rid in c.pairs && e in Members(c.pairs[rid]) then c.pairs - {rid} else c.pairs
    ensures rid in c.pairs && e in Members(c.pairs[rid]) ==> if c.pairs[rid].active then c.active > 0 else c.pending > 0
  {
    CountDrop(c.pairs, rid);
    if rid in c.pairs && e in Members(c.pairs[rid]) {
      assert WellShaped(c.pairs[rid], false);
      assert rid in ActiveOf(c.pairs) || rid in PendingOf(c.pairs);
    }
  }

  lemma {:induction false} ReleaseAllKeeps(c: Core, max: nat, info: map<EndpointId, Info>, order: seq<EndpointId>)
    requires CoreInv(c, max) && c.pairing.None? && forall e | e in order :: e in info
    ensures CoreInv(ReleaseAllCore(c, info, order), max)
    ensures ReleaseAllCore(c, info, order).pairing.None?
    decreases |order|
  {
    if order != [] {
      ReleaseKeeps(c, max, order[0], info[order[0]].rid);
      ReleaseAllKeeps(ReleaseCore(c, order[0], info[order[0]].rid), max, info, order[1..]);
    }
  }

  // ---------- upgrade slots ----------

  /** upgradeSlots is exactly the live leases plus the endpoints not admitted yet. */
  ghost predicate SlotsExact(g: Staging) {
    && g.slots == |g.leases| + |g.upgrades| && g.slots <= 2 * g.max
    && g.upgrades <= g.info.Keys && g.upgrades <= g.pump && g.pump <= g.info.Keys
  }

  lemma BeginSlots(g: Staging, lease: LeaseId, device: DeviceId, generation: int)
    requires SlotsExact(g) && lease !in g.leases
    ensures SlotsExact(BeginUpgrade(g, lease, device, generation))
  {
    assert g.leases[lease := Lease(device, generation)].Keys == g.leases.Keys + {lease};
  }

  lemma DropSlots(g: Staging, lease: LeaseId)
    requires SlotsExact(g)
    ensures SlotsExact(DropLease(g, lease))
    ensures lease in g.leases ==> g.slots > 0
  {
    assert (g.leases - {lease}).Keys == g.leases.Keys - {lease};
  }

  lemma StageSlots(g: Staging, lease: LeaseId, e: EndpointId, info: Info)
    requires SlotsExact(g) && e !in g.info
    ensures SlotsExact(Stage(g, lease, e, info))
  {
    assert (g.leases - {lease}).Keys == g.leases.Keys - {lease};
  }

  lemma RemoveUpgradeSlots(g: Staging, e: EndpointId)
    requires SlotsExact(g)
    ensures SlotsExact(RemoveUpgrade(g, e))
    ensures e in g.upgrades ==> g.slots > 0
  {
  }

  lemma {:induction false} DropLeasesSlots(g: Staging, order: seq<LeaseId>)
    requires SlotsExact(g)
    ensures SlotsExact(DropLeases(g, order))
    ensures forall l :: l in DropLeases(g, order).leases <==> l in g.leases && l !in order
    decreases |order|
  {
    if order != [] {
      DropSlots(g, order[0]);
      DropLeasesSlots(DropLease(g, order[0]), order[1..]);
    }
  }

  lemma {:induction false} RemoveUpgradesSlots(g: Staging, order: seq<EndpointId>)
    requires SlotsExact(g)
    ensures SlotsExact(RemoveUpgrades(g, order))
    ensures forall e :: e in RemoveUpgrades(g, order).upgrades <==> e in g.upgrades && e !in order
    decreases |order|
  {
    if order != [] {
      RemoveUpgradeSlots(g, order[0]);
      RemoveUpgradesSlots(RemoveUpgrade(g, order[0]), order[1..]);
    }
  }

  // ---------- where endpoints sit ----------

  predicate RolePlaced(o: Option<EndpointId>, role: Role, r: ReservationId, refs: set<EndpointId>, g: Staging) {
    o.Some? ==>
      && o.value in g.info && g.info[o.value].rid == r && g.info[o.value].role == Some(role)
      && o.value in refs && o.value !in g.upgrades
  }

  predicate PlacedAt(p: Pair, r: ReservationId, refs: set<EndpointId>, g: Staging) {
    RolePlaced(p.initiator, Initiator, r, refs, g) && RolePlaced(p.responder, Responder, r, refs, g)
  }

  /** Role slots hold admitted endpoints of their own reservation and role; every admitted
      endpoint still runs its pumps. */
  ghost predicate Placed(c: Core, g: Staging) {
    && (forall r | r in c.pairs :: PlacedAt(c.pairs[r], r, c.refs, g))
    && c.refs <= g.pump && c.refs !! g.upgrades
  }

  lemma OpenPairPlaced(c: Core, g: Staging, rid: ReservationId, role: Role, e: EndpointId)
    requires Placed(c, g) && rid !in c.pairs && Admissible(g, e, rid, role)
    ensures Placed(OpenPair(c, rid, role, e), g)
  {
  }

  /** The endpoint belongs to this role slot and has left its upgrade slot. */
  predicate Admissible(g: Staging, e: EndpointId, rid: ReservationId, role: Role) {
    e in g.info && g.info[e].rid == rid && g.info[e].role == Some(role) && e in g.pump && e !in g.upgrades
  }

  lemma ReplaceWaitingPlaced(c: Core, g: Staging, rid: ReservationId, role: Role, e: EndpointId)
    requires Placed(c, g) && Admissible(g, e, rid, role)
    requires rid in c.pairs && Slot(c.pairs[rid], role).Some? && Half(c.pairs[rid])
    ensures Placed(ReplaceWaiting(c, rid, role, e), g)
  {
  }

  lemma ReplaceActivePlaced(c: Core, g: Staging, rid: ReservationId, role: Role, e: EndpointId)
    requires Placed(c, g) && Admissible(g, e, rid, role)
    requires rid in c.pairs
    ensures Placed(ReplaceActive(c, rid, role, e), g)
  {
  }

  lemma PairUpPlaced(c: Core, g: Staging, rid: ReservationId, role: Role, e: EndpointId, now: int)
    requires Placed(c, g) && Admissible(g, e, rid, role)
    requires rid in c.pairs && Other(c.pairs[rid], role).Some?
    ensures Placed(PairUp(c, rid, role, e, now), g)
  {
  }

  lemma AbortPlaced(c: Core, g: Staging)
    requires Placed(c, g) && c.pairing.Some? && c.pairing.value.rid in c.pairs
    requires Members(c.pairs[c.pairing.value.rid]) == {c.pairing.value.current, c.pairing.value.other}
    ensures Placed(AbortCore(c), g)
  {
  }

  lemma ReleasePlaced(c: Core, g: Staging, e: EndpointId)
    requires Placed(c, g) && Shaped(c) && c.pairing.None? && e in g.info
    ensures Placed(ReleaseCore(c, e, g.info[e].rid), g)
  {
  }
}
