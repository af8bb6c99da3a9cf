/** The relay-data registry behind its mutex: role slots, counters, upgrade leases, peer links
    and consumed-reservation tombstones. Pairing two endpoints keeps the mutex from the moment
    both slots are filled until it is committed or aborted; writer pumps run in between. */
module RelayDataTable {
  import opened Options
  import opened Cutoffs

  type EndpointId = nat
  type ReservationId = nat
  type LeaseId = nat
  type DeviceId = nat

  const MAX_CONSUMED: nat := 65536
  /** Two maximum reservation windows of 120 s plus 5 s grace, in nanoseconds. */
  const CONSUMED_RETENTION: int := 2 * (120 + 5) * 1_000_000_000

  datatype Role = Initiator | Responder
  /** What is fixed when an endpoint is staged; an unknown role never pairs. */
  datatype Info = Info(rid: ReservationId, device: DeviceId, generation: int, role: Option<Role>)
  datatype Lease = Lease(device: DeviceId, generation: int)

  /** Sockets before their first frame, and every endpoint whose pumps still run. */
  datatype Staging = Staging(
    max: nat,
    info: map<EndpointId, Info>,
    leases: map<LeaseId, Lease>,
    upgrades: set<EndpointId>,
    slots: int,
    pump: set<EndpointId>,
    closed: bool)

  datatype Pair = Pair(initiator: Option<EndpointId>, responder: Option<EndpointId>, active: bool, replacementPending: bool)
  /** The registry mutex is held by an admission that has filled both role slots. */
  datatype Pairing = Pairing(rid: ReservationId, current: EndpointId, other: EndpointId, now: int)

  datatype Core = Core(
    pairs: map<ReservationId, Pair>,
    pending: int,
    active: int,
    refs: set<EndpointId>,
    peer: map<EndpointId, EndpointId>,
    pairing: Option<Pairing>)

  /** Consumed reservations, the latest time seen, and when each reservation was last activated. */
  datatype Tombs = Tombs(consumed: map<ReservationId, int>, clock: int, activatedAt: map<ReservationId, int>)

  datatype Table = Table(staging: Staging, core: Core, tombs: Tombs)

  function Initial(max: nat): Table {
    Table(Staging(max, map[], map[], {}, 0, {}, false), Core(map[], 0, 0, {}, map[], None), Tombs(map[], 0, map[]))
  }

  /** The guarded decrement of the source; the accounting shows the guard never saturates. */
  function Dec(n: int): int { if n > 0 then n - 1 else n }


  /** `order` lists the members of `xs`, each once: the order of a map iteration. */
  ghost predicate Enumerates<T(!new)>(order: seq<T>, xs: set<T>) {
    && (forall x :: x in order <==> x in xs)
    && (forall i, j | 0 <= i < j < |order| :: order[i] != order[j])
  }

  // ---------- leases and staging ----------

  function BeginUpgrade(g: Staging, lease: LeaseId, device: DeviceId, generation: int): Staging {
    if g.closed || g.slots >= 2 * g.max then g
    else g.(leases := g.leases[lease := Lease(device, generation)], slots := g.slots + 1)
  }

  function DropLease(g: Staging, lease: LeaseId): (g': Staging)
    ensures g' == g.(leases := g'.leases, slots := g'.slots)
  {
    if lease in g.leases then g.(leases := g.leases - {lease}, slots := Dec(g.slots)) else g
  }

  function DropLeases(g: Staging, order: seq<LeaseId>): (g': Staging)
    ensures g' == g.(leases := g'.leases, slots := g'.slots)
    decreases |order|
  {
    if order == [] then g else DropLeases(DropLease(g, order[0]), order[1..])
  }

  /** A lease becomes a tracked endpoint and keeps its slot. */
  function Stage(g: Staging, lease: LeaseId, e: EndpointId, info: Info): Staging {
    if g.closed || lease !in g.leases then g
    else g.(leases := g.leases - {lease}, info := g.info[e := info], upgrades := g.upgrades + {e}, pump := g.pump + {e})
  }

  function RemoveUpgrade(g: Staging, e: EndpointId): (g': Staging)
    ensures g' == g.(upgrades := g.upgrades - {e}, slots := g'.slots)
  {
    if e in g.upgrades then g.(upgrades := g.upgrades - {e}, slots := Dec(g.slots)) else g
  }

  function RemoveUpgrades(g: Staging, order: seq<EndpointId>): (g': Staging)
    ensures g' == g.(upgrades := g'.upgrades, slots := g'.slots)
    decreases |order|
  {
    if order == [] then g else RemoveUpgrades(RemoveUpgrade(g, order[0]), order[1..])
  }

  // ---------- role slots ----------

  const EMPTY_PAIR := Pair(None, None, false, false)

  function Slot(p: Pair, role: Role): Option<EndpointId> {
    if role.Initiator? then p.initiator else p.responder
  }

  function Other(p: Pair, role: Role): Option<EndpointId> {
    if role.Initiator? then p.responder else p.initiator
  }

  function Fill(p: Pair, role: Role, e: EndpointId): Pair {
    if role.Initiator? then p.(initiator := Some(e)) else p.(responder := Some(e))
  }

  function Single(o: Option<EndpointId>): set<EndpointId> { if o.Some? then {o.value} else {} }

  function Members(p: Pair): set<EndpointId> { Single(p.initiator) + Single(p.responder) }

  /** The first endpoint of a reservation opens a pending pair. */
  function OpenPair(c: Core, rid: ReservationId, role: Role, e: EndpointId): Core {
    c.(pairs := c.pairs[rid := Fill(EMPTY_PAIR, role, e)], pending := c.pending + 1, refs := c.refs + {e})
  }

  /** A retry of the waiting role displaces the endpoint that waited. */
  function ReplaceWaiting(c: Core, rid: ReservationId, role: Role, e: EndpointId): Core
    requires rid in c.pairs && Slot(c.pairs[rid], role).Some?
  {
    var gone := Slot(c.pairs[rid], role).value;
    c.(pairs := c.pairs[rid := Fill(c.pairs[rid], role, e)], refs := c.refs - {gone} + {e}, peer := c.peer - {gone})
  }

  /** A retry against an active pair invalidates both of its endpoints and waits for a fresh
      counterpart. */
  function ReplaceActive(c: Core, rid: ReservationId, role: Role, e: EndpointId): Core
    requires rid in c.pairs
  {
    var gone := Members(c.pairs[rid]);
    c.(pairs := c.pairs[rid := Fill(EMPTY_PAIR.(replacementPending := true), role, e)],
       active := Dec(c.active), pending := c.pending + 1, refs := c.refs - gone + {e}, peer := c.peer - gone)
  }

  /** Both roles are present: link them and start the pairing. */
  function PairUp(c: Core, rid: ReservationId, role: Role, e: EndpointId, now: int): Core
    requires rid in c.pairs && Other(c.pairs[rid], role).Some?
  {
    var other := Other(c.pairs[rid], role).value;
    c.(pairs := c.pairs[rid := Fill(c.pairs[rid], role, e)], refs := c.refs + {e},
       peer := c.peer[e := other][other := e], pairing := Some(Pairing(rid, e, other, now)))
  }

  /** Both PairReady frames are queued: the pair becomes active. */
  function CommitCore(c: Core): Core
    requires c.pairing.Some? && c.pairing.value.rid in c.pairs
  {
    var rid := c.pairing.value.rid;
    c.(pairs := c.pairs[rid := c.pairs[rid].(active := true, replacementPending := false)],
       pending := c.pending - 1, active := c.active + 1, pairing := None)
  }

  /** A PairReady frame was refused: the whole pair is rolled back. */
  function AbortCore(c: Core): Core
    requires c.pairing.Some?
  {
    var g := c.pairing.value;
    c.(pairs := c.pairs - {g.rid}, pending := Dec(c.pending), refs := c.refs - {g.current, g.other},
       peer := c.peer - {g.current, g.other}, pairing := None)
  }

  function Cleared(p: Pair, e: EndpointId): Pair {
    p.(initiator := if p.initiator == Some(e) then None else p.initiator,
       responder := if p.responder == Some(e) then None else p.responder)
  }

  /** Detaches one endpoint; an active pair goes with it and its counterpart loses its link. */
  function ReleaseCore(c: Core, e: EndpointId, rid: ReservationId): Core {
    var c1 := c.(refs := c.refs - {e});
    if rid !in c.pairs || e !in Members(c.pairs[rid]) then c1
    else
      var p := Cleared(c.pairs[rid], e);
      var c2 := c1.(peer := c.peer - {e} - Members(p));
      if p.active then c2.(pairs := c.pairs - {rid}, active := Dec(c.active))
      else if Members(p) == {} then c2.(pairs := c.pairs - {rid}, pending := Dec(c.pending))
      else c2.(pairs := c.pairs[rid := p])
  }

  function ReleaseAllCore(c: Core, info: map<EndpointId, Info>, order: seq<EndpointId>): Core
    requires forall e | e in order :: e in info
    decreases |order|
  {
    if order == [] then c else ReleaseAllCore(ReleaseCore(c, order[0], info[order[0]].rid), info, order[1..])
  }

  // ---------- tombstones ----------

  /** A live tombstone blocks admission unless the pair is active or awaits a replacement. */
  predicate Blocked(t: Table, rid: ReservationId, now: int) {
    && rid in t.tombs.consumed && t.tombs.consumed[rid] > now
    && (rid !in t.core.pairs || (!t.core.pairs[rid].active && !t.core.pairs[rid].replacementPending))
  }

  function UnexpiredMarks(consumed: map<ReservationId, int>, now: int): map<ReservationId, int> {
    map rid | rid in consumed && consumed[rid] > now :: consumed[rid]
  }

  /** Admission forgets an expired tombstone of its own reservation. */
  function ForgetOwn(b: Tombs, rid: ReservationId, now: int): Tombs {
    if rid in b.consumed && b.consumed[rid] <= now then b.(clock := now, consumed := b.consumed - {rid}) else b.(clock := now)
  }

  /** Only a full tombstone table is swept. */
  function Swept(b: Tombs, now: int): Tombs {
    if |b.consumed| >= MAX_CONSUMED then b.(consumed := UnexpiredMarks(b.consumed, now)) else b
  }

  // ---------- steps ----------

  datatype Admission = Rejected | Waiting(displaced: set<EndpointId>) | Paired(other: EndpointId)

  /** Role-slot admission once upgrade slot, closed flag, terminal flag and tombstone are done. */
  function AdmitInto(t: Table, e: EndpointId, rid: ReservationId, role: Role, now: int): (r: (Table, Admission))
    ensures r.0.staging == t.staging
    ensures if r.1.Paired? then r.0.core.pairing == Some(Pairing(rid, e, r.1.other, now)) && rid in r.0.core.pairs
            else r.0.core.pairing == t.core.pairing
    ensures r.0.tombs.clock == t.tombs.clock
  {
    var c := t.core;
    if rid !in c.pairs then
      if c.pending >= t.staging.max then (t, Rejected)
      else (t.(core := OpenPair(c, rid, role, e)), Waiting({}))
    else if Slot(c.pairs[rid], role).Some? then
      if !c.pairs[rid].active then (t.(core := ReplaceWaiting(c, rid, role, e)), Waiting({Slot(c.pairs[rid], role).value}))
      else (t.(core := ReplaceActive(c, rid, role, e)), Waiting(Members(c.pairs[rid])))
    else if Other(c.pairs[rid], role).None? then
      (t.(core := c.(pairs := c.pairs[rid := Fill(c.pairs[rid], role, e)], refs := c.refs + {e})), Waiting({}))
    else if c.active >= t.staging.max then (t, Rejected)
    else
      var b := Swept(t.tombs, now);
      if |b.consumed| >= MAX_CONSUMED then (t.(tombs := b), Rejected)
      else (t.(tombs := b, core := PairUp(c, rid, role, e, now)), Paired(Other(c.pairs[rid], role).value))
  }

  function Admit(t: Table, e: EndpointId, terminal: bool, now: int): (r: (Table, Admission))
    requires e in t.staging.info
    ensures r.0.staging == RemoveUpgrade(t.staging, e)
    ensures r.1.Paired? ==> r.0.core.pairing.Some? && r.0.core.pairing.value.rid in r.0.core.pairs
    ensures r.0.tombs.clock == now
  {
    var info := t.staging.info[e];
    var g := RemoveUpgrade(t.staging, e);
    if t.staging.closed || terminal || info.role.None? || Blocked(t, info.rid, now) then
      (t.(staging := g, tombs := t.tombs.(clock := now)), Rejected)
    else
      AdmitInto(t.(staging := g, tombs := ForgetOwn(t.tombs, info.rid, now)), e, info.rid, info.role.value, now)
  }

  /** The pair is active from now on and its tombstone runs from its admission time. */
  function Commit(t: Table): Table
    requires t.core.pairing.Some? && t.core.pairing.value.rid in t.core.pairs
  {
    var g := t.core.pairing.value;
    t.(core := CommitCore(t.core),
       tombs := t.tombs.(consumed := t.tombs.consumed[g.rid := g.now + CONSUMED_RETENTION],
                         activatedAt := t.tombs.activatedAt[g.rid := g.now]))
  }

  function Release(t: Table, e: EndpointId): Table
    requires e in t.staging.info
  {
    t.(staging := RemoveUpgrade(t.staging, e), core := ReleaseCore(t.core, e, t.staging.info[e].rid))
  }

  function OwnedLeases(g: Staging, device: DeviceId, cutoff: int): set<LeaseId> {
    set l | l in g.leases && g.leases[l].device == device && Older(g.leases[l].generation, cutoff)
  }

  /** The device's endpoints in reach of the cutoff, admitted or not. */
  function Owned(t: Table, device: DeviceId, cutoff: int): set<EndpointId> {
    set e | e in t.core.refs + t.staging.upgrades && e in t.staging.info
            && t.staging.info[e].device == device && Older(t.staging.info[e].generation, cutoff)
  }

  /** Those endpoints and the counterparts of the admitted ones. */
  function Targets(t: Table, device: DeviceId, cutoff: int): set<EndpointId> {
    Owned(t, device, cutoff)
    + (set e | e in Owned(t, device, cutoff) && e in t.core.refs && e in t.core.peer :: t.core.peer[e])
  }

  function CloseEndpoints(t: Table, leaseOrder: seq<LeaseId>, order: seq<EndpointId>): Table
    requires forall e | e in order :: e in t.staging.info
  {
    t.(staging := RemoveUpgrades(DropLeases(t.staging, leaseOrder), order),
       core := ReleaseAllCore(t.core, t.staging.info, order))
  }

  datatype TableLabel =
    | DoBeginUpgrade(lease: LeaseId, device: DeviceId, generation: int)
    | DoDropLease(lease: LeaseId)
    | DoStage(lease: LeaseId, e: EndpointId, info: Info)
    | DoAdmit(e: EndpointId, terminal: bool, now: int)
    | DoCommit
    | DoAbort
    | DoRelease(e: EndpointId)
    | DoCloseDevice(device: DeviceId, cutoff: int, leaseOrder: seq<LeaseId>, order: seq<EndpointId>)
    | DoCloseAll(leaseOrder: seq<LeaseId>, order: seq<EndpointId>)
    | DoPumpDone(e: EndpointId)

  /** The endpoint holds no upgrade slot, no device reference and no role slot. */
  predicate Detached(t: Table, e: EndpointId) {
    && e in t.staging.info && e !in t.staging.upgrades && e !in t.core.refs
    && (t.staging.info[e].rid in t.core.pairs ==> e !in Members(t.core.pairs[t.staging.info[e].rid]))
  }

  /** Everything but the end of a pairing needs the registry mutex to be free. An endpoint is
      staged under a fresh identity and is admitted from its upgrade slot, unless it has been
      made terminal meanwhile. A pump ends only after its endpoint was released. */
  ghost predicate Enabled(t: Table, l: TableLabel) {
    match l
    case DoCommit => t.core.pairing.Some? && t.core.pairing.value.rid in t.core.pairs
    case DoAbort => t.core.pairing.Some?
    case DoBeginUpgrade(lease, _, _) => t.core.pairing.None? && lease !in t.staging.leases
    case DoDropLease(lease) => t.core.pairing.None?
    case DoStage(_, e, _) => t.core.pairing.None? && e !in t.staging.info
    case DoAdmit(e, terminal, now) =>
      t.core.pairing.None? && e in t.staging.info && (terminal || e in t.staging.upgrades) && t.tombs.clock <= now
    case DoRelease(e) => t.core.pairing.None? && e in t.staging.info
    case DoCloseDevice(d, cutoff, leaseOrder, order) =>
      && t.core.pairing.None? && (forall e | e in order :: e in t.staging.info)
      && Enumerates(leaseOrder, OwnedLeases(t.staging, d, cutoff)) && Enumerates(order, Targets(t, d, cutoff))
    case DoCloseAll(leaseOrder, order) =>
      && t.core.pairing.None? && (forall e | e in order :: e in t.staging.info)
      && Enumerates(leaseOrder, t.staging.leases.Keys) && Enumerates(order, t.staging.pump)
    case DoPumpDone(e) => t.core.pairing.None? && Detached(t, e)
  }

  ghost function Step(t: Table, l: TableLabel): Table
    requires Enabled(t, l)
  {
    match l
    case DoBeginUpgrade(lease, d, n) => t.(staging := BeginUpgrade(t.staging, lease, d, n))
    case DoDropLease(lease) => t.(staging := DropLease(t.staging, lease))
    case DoStage(lease, e, info) => t.(staging := Stage(t.staging, lease, e, info))
    case DoAdmit(e, terminal, now) => Admit(t, e, terminal, now).0
    case DoCommit => Commit(t)
    case DoAbort => t.(core := AbortCore(t.core))
    case DoRelease(e) => Release(t, e)
    case DoCloseDevice(_, _, leaseOrder, order) => CloseEndpoints(t, leaseOrder, order)
    case DoCloseAll(leaseOrder, order) => CloseEndpoints(t.(staging := t.staging.(closed := true)), leaseOrder, order)
    case DoPumpDone(e) => t.(staging := t.staging.(pump := t.staging.pump - {e}))
  }
}
