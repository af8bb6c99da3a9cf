/** Whole runs of the registry: the invariant of every reachable state, what shutdown leaves,
    and how long a consumed reservation stays unusable. */
module RelayDataRuns {
  import opened Options
  import opened FiniteSets
  import opened RelayDataTable
  import opened RelayDataAccounting
  import opened RelayDataInvariants

  // ---------- tombstones ----------

  /** Tombstones are exactly dated, bounded, and present for the whole retention of the latest
      activation. */
  ghost predicate TombsExact(b: Tombs) {
    && |b.consumed| <= MAX_CONSUMED
    && (forall r | r in b.consumed :: r in b.activatedAt && b.consumed[r] == b.activatedAt[r] + CONSUMED_RETENTION)
    && (forall r | r in b.activatedAt && b.activatedAt[r] + CONSUMED_RETENTION > b.clock :: r in b.consumed)
  }

  lemma ForgetOwnExact(b: Tombs, rid: ReservationId, now: int)
    requires TombsExact(b) && b.clock <= now
    ensures TombsExact(ForgetOwn(b, rid, now))
    ensures TombsExact(b.(clock := now))
  {
    SmallerMap(b.consumed - {rid}, b.consumed);
  }

  lemma SweptExact(b: Tombs, now: int)
    requires TombsExact(b) && b.clock == now
    ensures TombsExact(Swept(b, now))
  {
    SmallerMap(UnexpiredMarks(b.consumed, now), b.consumed);
  }

  lemma SmallerMap<K, V>(a: map<K, V>, b: map<K, V>)
    requires a.Keys <= b.Keys
    ensures |a| <= |b|
  {
    SubsetSize(a.Keys, b.Keys);
  }

  lemma ActivatedExact(b: Tombs, rid: ReservationId, at: int)
    requires TombsExact(b) && |b.consumed| < MAX_CONSUMED
    ensures TombsExact(b.(consumed := b.consumed[rid := at + CONSUMED_RETENTION], activatedAt := b.activatedAt[rid := at]))
  {
    assert b.consumed[rid := at + CONSUMED_RETENTION].Keys == b.consumed.Keys + {rid};
  }

  lemma CommitExact(t: Table)
    requires TombsExact(t.tombs) && t.core.pairing.Some? && t.core.pairing.value.rid in t.core.pairs
    requires |t.tombs.consumed| < MAX_CONSUMED
    ensures TombsExact(Commit(t).tombs)
  {
    ActivatedExact(t.tombs, t.core.pairing.value.rid, t.core.pairing.value.now);
  }

  // ---------- every step ----------

  ghost predicate TableInv(t: Table) {
    && SlotsExact(t.staging) && CoreOk(t.core, t.staging) && TombsExact(t.tombs)
    && (t.core.pairing.Some? ==> |t.tombs.consumed| < MAX_CONSUMED)
  }

  lemma AdmitIntoKeeps(t: Table, e: EndpointId, rid: ReservationId, role: Role, now: int)
    requires TableInv(t) && t.core.pairing.None? && t.tombs.clock == now && Admissible(t.staging, e, rid, role)
    ensures TableInv(AdmitInto(t, e, rid, role, now).0)
  {
    hide CoreInv, Placed, Linked, PairingNamed, SlotsExact, TombsExact;
    var c, g := t.core, t.staging;
    SweptExact(t.tombs, now);
    if rid !in c.pairs {
      if c.pending < g.max {
        OpenPairOk(c, g, rid, role, e);
      }
    } else if Slot(c.pairs[rid], role).Some? {
      if c.pairs[rid].active {
        ReplaceActiveOk(c, g, rid, role, e);
      } else {
        ReplaceWaitingOk(c, g, rid, role, e);
      }
    } else {
      OneSlotFilled(c, g, rid, role);
      if c.active < g.max {
        PairUpOk(c, g, rid, role, e, now);
      }
    }
  }

  lemma OneSlotFilled(c: Core, g: Staging, rid: ReservationId, role: Role)
    requires CoreOk(c, g) && c.pairing.None? && rid in c.pairs && Slot(c.pairs[rid], role).None?
    ensures Other(c.pairs[rid], role).Some?
  {
    assert WellShaped(c.pairs[rid], false);
  }

  lemma AdmitKeeps(t: Table, e: EndpointId, terminal: bool, now: int)
    requires TableInv(t) && t.core.pairing.None? && e in t.staging.info
    requires (terminal || e in t.staging.upgrades) && t.tombs.clock <= now
    ensures TableInv(Admit(t, e, terminal, now).0)
  {
    hide CoreOk, TombsExact;
    var g := RemoveUpgrade(t.staging, e);
    var info := t.staging.info[e];
    RemoveUpgradeSlots(t.staging, e);
    StagingShrinks(t.core, t.staging, g);
    ForgetOwnExact(t.tombs, info.rid, now);
    if !(t.staging.closed || terminal || info.role.None? || Blocked(t, info.rid, now)) {
      AdmitIntoKeeps(t.(staging := g, tombs := ForgetOwn(t.tombs, info.rid, now)), e, info.rid, info.role.value, now);
    }
  }

  lemma CloseEndpointsKeeps(t: Table, leaseOrder: seq<LeaseId>, order: seq<EndpointId>)
    requires TableInv(t) && t.core.pairing.None? && forall e | e in order :: e in t.staging.info
    ensures TableInv(CloseEndpoints(t, leaseOrder, order))
  {
    hide CoreInv, Placed, Linked, PairingNamed;
    var g1 := DropLeases(t.staging, leaseOrder);
    var g2 := RemoveUpgrades(g1, order);
    DropLeasesSlots(t.staging, leaseOrder);
    RemoveUpgradesSlots(g1, order);
    ReleaseAllOk(t.core, t.staging, order);
    ReleaseAllKeeps(t.core, t.staging.max, t.staging.info, order) by {
      CoreOkParts(t.core, t.staging);
    }
    StagingShrinks(ReleaseAllCore(t.core, t.staging.info, order), t.staging, g2);
  }

  lemma CoreOkParts(c: Core, g: Staging)
    requires CoreOk(c, g)
    ensures CoreInv(c, g.max) && Placed(c, g) && Linked(c, g.info)
  {
  }

  lemma PumpDoneKeeps(t: Table, e: EndpointId)
    requires TableInv(t) && t.core.pairing.None? && Detached(t, e)
    ensures TableInv(t.(staging := t.staging.(pump := t.staging.pump - {e})))
  {
    var g' := t.staging.(pump := t.staging.pump - {e});
    forall r | r in t.core.pairs
      ensures PlacedAt(t.core.pairs[r], r, t.core.refs, g')
    {
      assert PlacedAt(t.core.pairs[r], r, t.core.refs, t.staging);
    }
  }

  lemma ReleaseKeepsTable(t: Table, e: EndpointId)
    requires TableInv(t) && t.core.pairing.None? && e in t.staging.info
    ensures TableInv(Release(t, e))
  {
    hide CoreInv, Placed, Linked, PairingNamed;
    RemoveUpgradeSlots(t.staging, e);
    ReleaseOk(t.core, t.staging, e);
    StagingShrinks(ReleaseCore(t.core, e, t.staging.info[e].rid), t.staging, RemoveUpgrade(t.staging, e));
  }

  /** Every step of the registry keeps the accounting, the links and the tombstones exact. */
  lemma TableStep(t: Table, l: TableLabel)
    requires TableInv(t) && Enabled(t, l)
    ensures TableInv(Step(t, l))
  {
    hide CoreInv, Placed, Linked, PairingNamed, TombsExact, Enumerates;
    match l
    case DoBeginUpgrade(lease, d, n) =>
      BeginSlots(t.staging, lease, d, n);
      StagingShrinks(t.core, t.staging, Step(t, l).staging);
    case DoDropLease(lease) =>
      DropSlots(t.staging, lease);
      StagingShrinks(t.core, t.staging, Step(t, l).staging);
    case DoStage(lease, e, info) =>
      StageSlots(t.staging, lease, e, info);
      StageOk(t.core, t.staging, lease, e, info);
    case DoAdmit(e, terminal, now) => AdmitKeeps(t, e, terminal, now);
    case DoCommit =>
      CommitOk(t.core, t.staging);
      CommitExact(t);
    case DoAbort => AbortOk(t.core, t.staging);
    case DoRelease(e) => ReleaseKeepsTable(t, e);
    case DoCloseDevice(_, _, leaseOrder, order) => CloseEndpointsKeeps(t, leaseOrder, order);
    case DoCloseAll(leaseOrder, order) =>
      var t1 := t.(staging := t.staging.(closed := true));
      StagingShrinks(t.core, t.staging, t1.staging);
      CloseEndpointsKeeps(t1, leaseOrder, order);
    case DoPumpDone(e) => PumpDoneKeeps(t, e);
  }

  // ---------- runs ----------

  ghost predicate IsRun(max: nat, states: seq<Table>, labels: seq<TableLabel>) {
    && |states| == |labels| + 1
    && states[0] == Initial(max)
    && forall i | 0 <= i < |labels| :: Enabled(states[i], labels[i]) && states[i + 1] == Step(states[i], labels[i])
  }

  lemma {:induction false} ReachableTables(max: nat, states: seq<Table>, labels: seq<TableLabel>, n: nat)
    requires IsRun(max, states, labels) && n <= |labels|
    ensures TableInv(states[n]) && states[n].staging.max == max
  {
    hide TableInv, Step, Enabled;
    if n == 0 {
      InitialTable(max);
    } else {
      ReachableTables(max, states, labels, n - 1);
      TableStep(states[n - 1], labels[n - 1]);
      CapIsFixed(states[n - 1], labels[n - 1]);
    }
  }

  lemma InitialTable(max: nat)
    ensures TableInv(Initial(max)) && Initial(max).staging.max == max
  {
    assert PendingOf(map[]) == {} && ActiveOf(map[]) == {};
  }

  lemma CapIsFixed(t: Table, l: TableLabel)
    requires Enabled(t, l)
    ensures Step(t, l).staging.max == t.staging.max
  {
    hide Enumerates;
  }

  predicate OneSlot(p: Pair) { !p.active && Half(p) }
  predicate TwoSlots(p: Pair) { p.active && Full(p) }
  function OneSlotPairs(pairs: Pairs): set<ReservationId> { set r | r in pairs && OneSlot(pairs[r]) }
  function TwoSlotPairs(pairs: Pairs): set<ReservationId> { set r | r in pairs && TwoSlots(pairs[r]) }

  /** Whenever the mutex is free, every pair is a one-slot inactive or a two-slot active one, the
      counters count exactly these, and all capacities hold. */
  lemma AccountingIsExact(max: nat, states: seq<Table>, labels: seq<TableLabel>, n: nat)
    requires IsRun(max, states, labels) && n <= |labels| && states[n].core.pairing.None?
    ensures forall r | r in states[n].core.pairs :: OneSlot(states[n].core.pairs[r]) || TwoSlots(states[n].core.pairs[r])
    ensures states[n].core.pending == |OneSlotPairs(states[n].core.pairs)|
    ensures states[n].core.active == |TwoSlotPairs(states[n].core.pairs)|
    ensures states[n].core.active <= max && states[n].core.pending + states[n].core.active <= 2 * max
    ensures states[n].staging.slots == |states[n].staging.leases| + |states[n].staging.upgrades| <= 2 * max
  {
    hide Placed, Linked, TombsExact;
    ReachableTables(max, states, labels, n);
    var pairs := states[n].core.pairs;
    forall r | r in pairs
      ensures OneSlot(pairs[r]) || TwoSlots(pairs[r])
    {
      assert WellShaped(pairs[r], false);
    }
    assert OneSlotPairs(pairs) == PendingOf(pairs) && TwoSlotPairs(pairs) == ActiveOf(pairs);
  }

  /** In every run, whatever a step may free is counted: a pair of either kind, a lease or an
      upgrade finds its counter positive, so no decrement of the source stops at zero. */
  lemma DecrementsNeverSaturate(max: nat, states: seq<Table>, labels: seq<TableLabel>, n: nat)
    requires IsRun(max, states, labels) && n <= |labels|
    ensures states[n].staging.upgrades != {} || states[n].staging.leases != map[] ==> states[n].staging.slots > 0
    ensures forall r | r in states[n].core.pairs ::
      if states[n].core.pairs[r].active then states[n].core.active > 0 else states[n].core.pending > 0
  {
    hide Placed, Linked, TombsExact;
    ReachableTables(max, states, labels, n);
    var c := states[n].core;
    forall r | r in c.pairs
      ensures if c.pairs[r].active then c.active > 0 else c.pending > 0
    {
      assert r in ActiveOf(c.pairs) || r in PendingOf(c.pairs);
    }
    assert states[n].staging.leases.Keys == {} <==> states[n].staging.leases == map[];
  }

  // ---------- shutdown ----------

  /** Releasing one endpoint removes exactly the pair it fills. */
  lemma ReleaseRemoves(c: Core, g: Staging, e: EndpointId)
    requires CoreOk(c, g) && c.pairing.None? && e in g.info
    ensures var c' := ReleaseCore(c, e, g.info[e].rid);
      && (forall r :: r in c'.pairs <==> r in c.pairs && e !in Members(c.pairs[r]))
      && (forall r | r in c'.pairs :: c'.pairs[r] == c.pairs[r])
      && c'.refs == c.refs - {e} && c'.pairing.None?
  {
    hide CoreInv, Linked, PairingNamed;
    CoreOkParts(c, g);
    ReleaseKeeps(c, g.max, e, g.info[e].rid);
    forall r | r in c.pairs
      ensures e in Members(c.pairs[r]) ==> r == g.info[e].rid
    {
      assert PlacedAt(c.pairs[r], r, c.refs, g);
    }
  }

  /** Releasing a list of endpoints leaves exactly the pairs none of them fills. */
  lemma {:induction false} ReleaseAllRemoves(c: Core, g: Staging, order: seq<EndpointId>)
    requires CoreOk(c, g) && c.pairing.None? && forall e | e in order :: e in g.info
    ensures forall r :: r in ReleaseAllCore(c, g.info, order).pairs <==>
      r in c.pairs && forall e | e in order :: e !in Members(c.pairs[r])
    ensures forall r | r in ReleaseAllCore(c, g.info, order).pairs :: ReleaseAllCore(c, g.info, order).pairs[r] == c.pairs[r]
    ensures ReleaseAllCore(c, g.info, order).refs == c.refs - (set e | e in order)
    ensures ReleaseAllCore(c, g.info, order).pairing.None?
    decreases |order|
  {
    hide CoreOk, ReleaseCore, Members;
    if order != [] {
      var e := order[0];
      ReleaseOk(c, g, e);
      ReleaseRemoves(c, g, e);
      ReleaseAllRemoves(ReleaseCore(c, e, g.info[e].rid), g, order[1..]);
      assert order == [e] + order[1..];
    }
  }

  /** Nothing is pending, active, leased, staged or admitted. */
  predicate Drained(t: Table) {
    && t.staging.closed && t.core.pairing.None?
    && t.core.pairs == map[] && t.core.pending == 0 && t.core.active == 0 && t.core.refs == {}
    && t.staging.slots == 0 && t.staging.leases == map[] && t.staging.upgrades == {}
  }

  lemma CloseAllDrains(t: Table, leaseOrder: seq<LeaseId>, order: seq<EndpointId>)
    requires TableInv(t) && Enabled(t, DoCloseAll(leaseOrder, order))
    ensures Drained(Step(t, DoCloseAll(leaseOrder, order)))
  {
    var t' := Step(t, DoCloseAll(leaseOrder, order));
    assert TableInv(t') by {
      TableStep(t, DoCloseAll(leaseOrder, order));
    }
    CloseAllEmpties(t, leaseOrder, order);
    assert t'.core.pairs == map[] by {
      NoPairs(t, t', order);
    }
    assert PendingOf(t'.core.pairs) == {} && ActiveOf(t'.core.pairs) == {};
  }

  lemma CloseAllEmpties(t: Table, leaseOrder: seq<LeaseId>, order: seq<EndpointId>)
    requires TableInv(t) && Enabled(t, DoCloseAll(leaseOrder, order))
    ensures var t' := Step(t, DoCloseAll(leaseOrder, order));
      && t'.staging.leases == map[] && t'.staging.upgrades == {} && t'.core.refs == {} && t'.core.pairing.None?
      && forall r | r in t'.core.pairs :: r in t.core.pairs && forall e | e in order :: e !in Members(t.core.pairs[r])
  {
    hide CoreInv, Linked, PairingNamed, TombsExact;
    var g := t.staging.(closed := true);
    ReleaseAllRemoves(t.core, t.staging, order);
    DropLeasesSlots(g, leaseOrder);
    RemoveUpgradesSlots(DropLeases(g, leaseOrder), order);
    var g' := RemoveUpgrades(DropLeases(g, leaseOrder), order);
    assert g'.leases.Keys == {};
    assert (set e | e in order) == t.staging.pump;
  }

  /** Every pair is filled by an endpoint that still runs its pumps. */
  lemma FilledBy(t: Table, r: ReservationId) returns (e: EndpointId)
    requires TableInv(t) && t.core.pairing.None? && r in t.core.pairs
    ensures e in Members(t.core.pairs[r]) && e in t.staging.pump
  {
    hide Linked, PairingNamed, TombsExact, Counted;
    var p := t.core.pairs[r];
    assert WellShaped(p, false) && PlacedAt(p, r, t.core.refs, t.staging);
    e := if p.initiator.Some? then p.initiator.value else p.responder.value;
  }

  lemma NoPairs(t: Table, t': Table, order: seq<EndpointId>)
    requires TableInv(t) && t.core.pairing.None? && Enumerates(order, t.staging.pump)
    requires forall r | r in t'.core.pairs :: r in t.core.pairs && forall e | e in order :: e !in Members(t.core.pairs[r])
    ensures t'.core.pairs == map[]
  {
    hide TableInv;
    if r :| r in t'.core.pairs {
      var e := FilledBy(t, r);
    }
  }

  lemma DrainedStep(t: Table, l: TableLabel)
    requires Drained(t) && Enabled(t, l)
    ensures Drained(Step(t, l))
  {
    match l
    case DoCloseAll(leaseOrder, order) => NothingToClose(t, leaseOrder, order);
    case DoCloseDevice(_, _, leaseOrder, order) => NothingToClose(t, leaseOrder, order);
    case _ =>
  }

  lemma {:induction false} NothingToClose(t: Table, leaseOrder: seq<LeaseId>, order: seq<EndpointId>)
    requires Drained(t) && forall e | e in order :: e in t.staging.info
    ensures DropLeases(t.staging, leaseOrder) == t.staging
    ensures RemoveUpgrades(t.staging, order) == t.staging
    ensures ReleaseAllCore(t.core, t.staging.info, order) == t.core
    decreases |leaseOrder| + |order|
  {
    if leaseOrder != [] {
      NothingToClose(t, leaseOrder[1..], order);
    }
    if order != [] {
      NothingToClose(t, leaseOrder, order[1..]);
    }
  }

  /** From closeAll on, every counter is zero and stays zero in every later state. */
  lemma {:induction false} ShutdownIsFinal(max: nat, states: seq<Table>, labels: seq<TableLabel>, i: nat, n: nat)
    requires IsRun(max, states, labels) && i < n <= |labels| && labels[i].DoCloseAll?
    ensures Drained(states[n])
  {
    if n == i + 1 {
      ReachableTables(max, states, labels, i);
      CloseAllDrains(states[i], labels[i].leaseOrder, labels[i].order);
    } else {
      ShutdownIsFinal(max, states, labels, i, n - 1);
      DrainedStep(states[n - 1], labels[n - 1]);
    }
  }

  // ---------- consumed reservations ----------

  /** The reservation was activated at `at`, has left the registry, and is still in its retention. */
  predicate Spent(t: Table, rid: ReservationId, at: int) {
    rid in t.tombs.activatedAt && t.tombs.activatedAt[rid] == at && rid !in t.core.pairs
  }

  lemma ReleaseOnlyRemoves(c: Core, e: EndpointId, rid: ReservationId)
    ensures ReleaseCore(c, e, rid).pairs.Keys <= c.pairs.Keys
  {
  }

  lemma {:induction false} ReleaseAllOnlyRemoves(c: Core, info: map<EndpointId, Info>, order: seq<EndpointId>)
    requires forall e | e in order :: e in info
    ensures ReleaseAllCore(c, info, order).pairs.Keys <= c.pairs.Keys
    decreases |order|
  {
    if order != [] {
      ReleaseOnlyRemoves(c, order[0], info[order[0]].rid);
      ReleaseAllOnlyRemoves(ReleaseCore(c, order[0], info[order[0]].rid), info, order[1..]);
    }
  }

  lemma AdmitKeepsOut(t: Table, e: EndpointId, terminal: bool, now: int, rid: ReservationId, at: int)
    requires TombsExact(t.tombs) && Spent(t, rid, at) && t.tombs.clock <= now < at + CONSUMED_RETENTION && e in t.staging.info
    ensures Spent(Admit(t, e, terminal, now).0, rid, at)
    ensures t.staging.info[e].rid == rid ==> Admit(t, e, terminal, now).1.Rejected?
  {
    hide AdmitInto;
    var info := t.staging.info[e];
    if info.role.Some? && info.rid != rid {
      var t1 := t.(staging := RemoveUpgrade(t.staging, e), tombs := ForgetOwn(t.tombs, info.rid, now));
      AdmitLeavesOthers(t1, e, info.rid, info.role.value, now, rid);
    }
  }

  lemma AdmitLeavesOthers(t: Table, e: EndpointId, r: ReservationId, role: Role, now: int, rid: ReservationId)
    requires r != rid
    ensures rid in AdmitInto(t, e, r, role, now).0.core.pairs <==> rid in t.core.pairs
    ensures AdmitInto(t, e, r, role, now).0.tombs.activatedAt == t.tombs.activatedAt
  {
  }

  lemma SpentStep(t: Table, l: TableLabel, rid: ReservationId, at: int)
    requires TableInv(t) && Enabled(t, l) && Spent(t, rid, at) && Step(t, l).tombs.clock < at + CONSUMED_RETENTION
    ensures Spent(Step(t, l), rid, at)
  {
    hide CoreInv, Placed, Linked;
    match l
    case DoAdmit(e, terminal, now) =>
      AdmitKeepsOut(t, e, terminal, now, rid, at);
    case DoRelease(e) => ReleaseOnlyRemoves(t.core, e, t.staging.info[e].rid);
    case DoCloseAll(_, order) => ReleaseAllOnlyRemoves(t.core, t.staging.info, order);
    case DoCloseDevice(_, _, _, order) => ReleaseAllOnlyRemoves(t.core, t.staging.info, order);
    case _ =>
  }

  lemma ClockStep(t: Table, l: TableLabel)
    requires Enabled(t, l)
    ensures t.tombs.clock <= Step(t, l).tombs.clock
  {
    hide AdmitInto, Enumerates;
  }

  /** Once an activated reservation has left the registry, no endpoint is admitted for it, by any
      step of any run, until the full retention since its last activation has passed. */
  lemma {:induction false} ConsumedStaysOut(max: nat, states: seq<Table>, labels: seq<TableLabel>, i: nat, n: nat,
                                            rid: ReservationId, at: int)
    requires IsRun(max, states, labels) && i <= n <= |labels|
    requires Spent(states[i], rid, at) && states[n].tombs.clock < at + CONSUMED_RETENTION
    ensures Spent(states[n], rid, at)
  {
    hide TableInv, Step, Enabled;
    if n > i {
      ClockStep(states[n - 1], labels[n - 1]);
      ConsumedStaysOut(max, states, labels, i, n - 1, rid, at);
      ReachableTables(max, states, labels, n - 1);
      SpentStep(states[n - 1], labels[n - 1], rid, at);
    }
  }

  /** Within the retention an admission succeeds only through a pair that is active or awaits a
      replacement; the tombstone table stays within its cap throughout. */
  lemma ReadmissionNeedsLivePair(max: nat, states: seq<Table>, labels: seq<TableLabel>, n: nat)
    requires IsRun(max, states, labels) && n < |labels| && labels[n].DoAdmit?
    ensures |states[n].tombs.consumed| <= MAX_CONSUMED
    ensures var t, l := states[n], labels[n];
      var rid := t.staging.info[l.e].rid;
      rid in t.tombs.activatedAt && l.now < t.tombs.activatedAt[rid] + CONSUMED_RETENTION && !Admit(t, l.e, l.terminal, l.now).1.Rejected?
      ==> rid in t.core.pairs && (t.core.pairs[rid].active || t.core.pairs[rid].replacementPending)
  {
    hide CoreInv, Placed, Linked;
    ReachableTables(max, states, labels, n);
  }
}
