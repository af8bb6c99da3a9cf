/** Publishing and resolving discovery over the lease store. A publish reads presence, then
    discovery, and only then writes; other connections act in between. */
module DiscoveryPublish {
  import opened Options
  import opened Leases

  // ---------- content ----------

  /** Whether two lists hold the same strings, each as often, in any order. */
  method SameStringSet(a: seq<Blob>, b: seq<Blob>) returns (same: bool)
    ensures same <==> multiset(a) == multiset(b)
  {
    if |a| != |b| {
      assert |multiset(a)| != |multiset(b)|;
      return false;
    }
    var counts := CountEach(a);
    var i := 0;
    while i < |b|
      invariant 0 <= i <= |b|
      invariant Left(counts, a, b[..i])
    {
      Prefix(b, i);
      if Count(counts, b[i]) == 0 {
        Surplus(counts, a, b, i);
        return false;
      }
      SpendOne(counts, a, b[..i], b[i]);
      counts := counts[b[i] := counts[b[i]] - 1];
      i := i + 1;
    }
    assert b[..i] == b;
    SubmultisetOfSameSize(multiset(b), multiset(a));
    same := true;
  }

  /** The counts are what is left of `a` after taking away `taken`. */
  ghost predicate Left(counts: map<Blob, nat>, a: seq<Blob>, taken: seq<Blob>) {
    forall x: Blob :: Count(counts, x) + multiset(taken)[x] == multiset(a)[x]
  }

  lemma Prefix(b: seq<Blob>, i: nat)
    requires i < |b|
    ensures b[..i + 1] == b[..i] + [b[i]]
  {
  }

  lemma SpendOne(counts: map<Blob, nat>, a: seq<Blob>, taken: seq<Blob>, x: Blob)
    requires Left(counts, a, taken) && Count(counts, x) > 0
    ensures Left(counts[x := counts[x] - 1], a, taken + [x])
  {
  }

  /** A string of `b` beyond those of `a` tells the multisets apart. */
  lemma Surplus(counts: map<Blob, nat>, a: seq<Blob>, b: seq<Blob>, i: nat)
    requires i < |b| && Left(counts, a, b[..i]) && Count(counts, b[i]) == 0
    ensures multiset(a) != multiset(b)
  {
    assert b == b[..i] + [b[i]] + b[i + 1..];
    assert multiset(b)[b[i]] > multiset(b[..i])[b[i]];
  }

  method CountEach(a: seq<Blob>) returns (counts: map<Blob, nat>)
    ensures forall x: Blob :: Count(counts, x) == multiset(a)[x]
  {
    counts := map[];
    var i := 0;
    while i < |a|
      invariant 0 <= i <= |a|
      invariant forall x: Blob :: Count(counts, x) == multiset(a[..i])[x]
    {
      counts := counts[a[i] := Count(counts, a[i]) + 1];
      assert a[..i + 1] == a[..i] + [a[i]];
      i := i + 1;
    }
    assert a[..i] == a;
  }

  function Count(counts: map<Blob, nat>, x: Blob): nat { if x in counts then counts[x] else 0 }

  lemma SubmultisetOfSameSize(small: multiset<Blob>, large: multiset<Blob>)
    requires small <= large && |small| == |large|
    ensures small == large
  {
    assert large == small + (large - small);
  }

  predicate SameContent(a: Discovery, b: Discovery) {
    multiset(a.candidates) == multiset(b.candidates) && multiset(a.capabilities) == multiset(b.capabilities)
  }

  // ---------- one publish ----------

  datatype Refusal = NoRevision | Invalid | NotOwner | Stale | Immutable
  datatype Hint = PeerOnline | PeerUpdated | NoHint

  /** Semantic limits of a snapshot beyond revision and epoch are a caller's parameter. */
  function Screen(d: Discovery, withinLimits: bool): Option<Refusal> {
    if d.revision == 0 then Some(NoRevision)
    else if !HasEpoch(d) || !withinLimits then Some(Invalid)
    else None
  }

  /** The revision rule against the snapshot read before. */
  function Compare(was: Option<Discovery>, d: Discovery): Option<Refusal> {
    if was.Some? && was.value.epoch == d.epoch then
      if d.revision < was.value.revision then Some(Stale)
      else if d.revision == was.value.revision && !SameContent(was.value, d) then Some(Immutable)
      else None
    else None
  }

  predicate WasOnline(owner: ConnId, was: Option<Discovery>) {
    was.Some? && Ready(was.value) && HasEpoch(was.value) && owner == was.value.owner
  }

  function HintFor(owner: ConnId, was: Option<Discovery>, d: Discovery): Hint {
    if !WasOnline(owner, was) then PeerOnline
    else if was.value.epoch != d.epoch || was.value.revision != d.revision then PeerUpdated
    else NoHint
  }

  /** A publish in flight: what it has read so far. */
  datatype Flight = Flight(device: DeviceId, d: Discovery, owner: ConnId, was: Option<Option<Discovery>>)

  datatype Sys = Sys(store: Store, flights: map<ConnId, Flight>)

  datatype Label =
    | Call(op: Op, now: int)
    | Begin(conn: ConnId, device: DeviceId, d: Discovery, withinLimits: bool, now: int)
    | ReadOld(conn: ConnId, now: int)
    | Write(conn: ConnId, ttl: int, now: int)

  /** A connection handles its frames one after the other, so it neither takes nor renews its lease
      while a publish of its own is in flight; discovery is written by publishes only. */
  predicate Can(s: Sys, l: Label) {
    match l
    case Call(op, _) => !op.TakeDiscovery? && ((op.TakePresence? || op.RenewPresence?) ==> op.conn !in s.flights)
    case Begin(conn, _, _, _, _) => conn !in s.flights
    case ReadOld(conn, _) => conn in s.flights && s.flights[conn].was.None?
    case Write(conn, _, _) => conn in s.flights && s.flights[conn].was.Some?
  }

  function Stored(s: Store, device: DeviceId): Option<Discovery> {
    if device in s.discovery then Some(s.discovery[device].snapshot) else None
  }

  function Do(s: Sys, l: Label): Sys
    requires Can(s, l)
  {
    match l
    case Call(op, now) => s.(store := Apply(s.store, op, now))
    case Begin(conn, device, d, withinLimits, now) =>
      if Screen(d, withinLimits).Some? then s
      else
        var store := Apply(s.store, GetPresence(device), now);
        if device !in store.presence then s.(store := store)
        else Sys(store, s.flights[conn := Flight(device, d, store.presence[device].owner, None)])
    case ReadOld(conn, now) =>
      var f := s.flights[conn];
      var store := Apply(s.store, GetDiscovery(f.device), now);
      var was := Stored(store, f.device);
      if Compare(was, f.d).Some? then Sys(store, s.flights - {conn})
      else Sys(store, s.flights[conn := f.(was := Some(was))])
    case Write(conn, ttl, now) =>
      var f := s.flights[conn];
      Sys(Apply(s.store, TakeDiscovery(f.device, conn, f.d, ttl), now), s.flights - {conn})
  }

  /** The publish is written and announces this hint. */
  predicate Writes(s: Sys, l: Label) {
    l.Write? && Can(s, l) && Owns(s.store, s.flights[l.conn].device, l.conn, l.now)
  }

  function Announced(s: Sys, l: Label): Hint
    requires Writes(s, l)
  {
    HintFor(s.flights[l.conn].owner, s.flights[l.conn].was.value, s.flights[l.conn].d)
  }

  // ---------- what a flight knows ----------

  /** As long as the publisher owns the lease, it owned it when it began, and whatever is stored is
      what it read and was allowed to follow. */
  predicate FlightOk(s: Store, conn: ConnId, f: Flight) {
    && HasEpoch(f.d) && Ready(f.d)
    && (f.was.Some? ==> Compare(f.was.value, f.d).None?)
    && (f.device in s.presence && s.presence[f.device].owner == conn ==>
          f.owner == conn && (f.was.Some? && f.device in s.discovery ==> f.was.value == Some(s.discovery[f.device].snapshot)))
  }

  ghost predicate FlightsOk(s: Sys) { forall c | c in s.flights :: FlightOk(s.store, c, s.flights[c]) }

  lemma CallKeepsFlight(s: Store, op: Op, now: int, conn: ConnId, f: Flight)
    requires FlightOk(s, conn, f) && !op.TakeDiscovery? && ((op.TakePresence? || op.RenewPresence?) ==> op.conn != conn)
    ensures FlightOk(Apply(s, op, now), conn, f)
  {
  }

  lemma WriteKeepsFlight(s: Store, writer: ConnId, device: DeviceId, d: Discovery, ttl: int, now: int, conn: ConnId, f: Flight)
    requires FlightOk(s, conn, f) && writer != conn
    ensures FlightOk(Apply(s, TakeDiscovery(device, writer, d, ttl), now), conn, f)
  {
  }

  lemma FlightStep(s: Sys, l: Label)
    requires FlightsOk(s) && Can(s, l)
    ensures FlightsOk(Do(s, l))
  {
    var s' := Do(s, l);
    forall c | c in s'.flights
      ensures FlightOk(s'.store, c, s'.flights[c])
    {
      match l
      case Call(op, now) => CallKeepsFlight(s.store, op, now, c, s.flights[c]);
      case Begin(conn, device, d, _, now) =>
        if c != conn {
          CallKeepsFlight(s.store, GetPresence(device), now, c, s.flights[c]);
        }
      case ReadOld(conn, now) =>
        CallKeepsFlight(s.store, GetDiscovery(s.flights[conn].device), now, c, s.flights[c]);
      case Write(conn, ttl, now) =>
        WriteKeepsFlight(s.store, conn, s.flights[conn].device, s.flights[conn].d, ttl, now, c, s.flights[c]);
    }
  }

  // ---------- runs ----------

  ghost predicate IsRun(states: seq<Sys>, labels: seq<Label>) {
    && |states| == |labels| + 1 && states[0] == Sys(EMPTY, map[])
    && forall i | 0 <= i < |labels| :: Can(states[i], labels[i]) && states[i + 1] == Do(states[i], labels[i])
  }

  lemma {:induction false} ReachableFlights(states: seq<Sys>, labels: seq<Label>, n: nat)
    requires IsRun(states, labels) && n <= |labels|
    ensures FlightsOk(states[n])
  {
    hide FlightsOk, Do, Can;
    if n == 0 {
      NoFlights();
    } else {
      ReachableFlights(states, labels, n - 1);
      FlightStep(states[n - 1], labels[n - 1]);
    }
  }

  lemma NoFlights()
    ensures FlightsOk(Sys(EMPTY, map[]))
  {
  }

  /** Within one epoch the revision never falls, and an equal revision means equal content. */
  predicate Follows(a: Discovery, b: Discovery) {
    a.epoch == b.epoch ==> a.revision <= b.revision && (a.revision == b.revision ==> SameContent(a, b))
  }

  /** The revision rule refuses exactly the snapshots that may not follow the one read. */
  lemma RefusesExactlyTheRest(was: Option<Discovery>, d: Discovery)
    ensures Compare(was, d).None? <==> was.None? || Follows(was.value, d)
    ensures Compare(was, d) == Some(Stale) <==> was.Some? && was.value.epoch == d.epoch && d.revision < was.value.revision
  {
  }

  lemma StepFollows(s: Sys, l: Label, device: DeviceId)
    requires FlightsOk(s) && Can(s, l) && device in s.store.discovery && device in Do(s, l).store.discovery
    ensures Follows(s.store.discovery[device].snapshot, Do(s, l).store.discovery[device].snapshot)
  {
    if l.Write? {
      var f := s.flights[l.conn];
      assert FlightOk(s.store, l.conn, f);
    }
  }

  /** While a device's entry stays stored, its snapshots of one epoch never lower the revision, and
      equal revisions carry equal candidates and capabilities, whatever connections interleave. */
  lemma {:induction false} RevisionsNeverFall(states: seq<Sys>, labels: seq<Label>, i: nat, n: nat, device: DeviceId)
    requires IsRun(states, labels) && i <= n <= |labels|
    requires forall k | i <= k <= n :: device in states[k].store.discovery
    requires forall k | i <= k <= n ::
      states[k].store.discovery[device].snapshot.epoch == states[i].store.discovery[device].snapshot.epoch
    ensures Follows(states[i].store.discovery[device].snapshot, states[n].store.discovery[device].snapshot)
  {
    hide Do, Can;
    if i < n {
      RevisionsNeverFall(states, labels, i, n - 1, device);
      ReachableFlights(states, labels, n - 1);
      assert device in states[n - 1].store.discovery && device in states[n].store.discovery;
      StepFollows(states[n - 1], labels[n - 1], device);
    }
  }

  /** What reads at this time call ready: both leases seen, one owner, a complete snapshot. */
  predicate Visible(s: Store, device: DeviceId, now: int) {
    Online(s, device, now) && HasEpoch(s.discovery[device].snapshot)
  }

  /** What a write at this time calls for: a device that becomes visible is online, a visible one
      whose epoch or revision changes is updated, and nothing else is announced. */
  function DueHint(before: Store, after: Store, device: DeviceId, now: int): Hint {
    if !Visible(after, device, now) then NoHint
    else if !Visible(before, device, now) then PeerOnline
    else
      var was, written := before.discovery[device].snapshot, after.discovery[device].snapshot;
      if was.epoch != written.epoch || was.revision != written.revision then PeerUpdated else NoHint
  }

  /** A hint is announced exactly on becoming ready or on a change of epoch or revision, if and only
      if an online entry the publisher read is still seen when it writes. A negative lifetime, under
      which the written entry itself is never seen, calls for no hint. */
  lemma HintsAreExact(states: seq<Sys>, labels: seq<Label>, n: nat)
    requires IsRun(states, labels) && n < |labels| && Writes(states[n], labels[n])
    ensures var s, l, f := states[n], labels[n], states[n].flights[labels[n].conn];
      var missed := WasOnline(f.owner, f.was.value) && !SeenPublished(s.store, f.device, l.now);
      && (l.ttl >= 0 ==> (Announced(s, l) == DueHint(s.store, states[n + 1].store, f.device, l.now) <==> !missed))
      && (l.ttl < 0 ==> DueHint(s.store, states[n + 1].store, f.device, l.now) == NoHint)
  {
    ReachableFlights(states, labels, n);
    assert FlightOk(states[n].store, labels[n].conn, states[n].flights[labels[n].conn]);
    assert states[n + 1] == Do(states[n], labels[n]);
  }

  lemma Extend(states: seq<Sys>, labels: seq<Label>, l: Label, s': Sys) returns (states': seq<Sys>, labels': seq<Label>)
    requires IsRun(states, labels) && Can(states[|labels|], l) && Do(states[|labels|], l) == s'
    ensures IsRun(states', labels') && |labels'| == |labels| + 1 && states'[|labels'|] == s'
  {
    hide Do, Can;
    states', labels' := states + [s'], labels + [l];
  }

  const SAMPLE := Discovery(1, Epoch(1, 1), 1, [], [])

  function SampleStore(leaseEnd: int, stored: bool): Store {
    Store(map[1 := Lease(1, leaseEnd)], if stored then map[1 := Entry(SAMPLE, 10)] else map[])
  }

  function SampleFlight(was: Option<Option<Discovery>>): map<ConnId, Flight> { map[1 := Flight(1, SAMPLE, 1, was)] }

  lemma FirstPublish() returns (states: seq<Sys>, labels: seq<Label>)
    ensures IsRun(states, labels) && states[|labels|] == Sys(SampleStore(10, true), map[])
  {
    hide IsRun;
    states, labels := StartOfRun();
    states, labels := Extend(states, labels, Call(TakePresence(1, 1, 10), 0), Sys(SampleStore(10, false), map[]));
    states, labels := Extend(states, labels, Begin(1, 1, SAMPLE, true, 0), Sys(SampleStore(10, false), SampleFlight(None)));
    assert SampleStore(10, false).discovery - {1} == map[];
    states, labels := Extend(states, labels, ReadOld(1, 0), Sys(SampleStore(10, false), SampleFlight(Some(None))));
    assert SampleFlight(Some(None)) - {1} == map[];
    states, labels := Extend(states, labels, Write(1, 10, 0), Sys(SampleStore(10, true), map[]));
  }

  lemma StartOfRun() returns (states: seq<Sys>, labels: seq<Label>)
    ensures IsRun(states, labels) && labels == [] && states[0] == Sys(EMPTY, map[])
  {
    states, labels := [Sys(EMPTY, map[])], [];
  }

  /** The exception happens: the lease was renewed but the discovery entry was not, the entry
      expires between the publisher's read and its write, and the device comes back unannounced,
      whether some read has dropped the expired entry (`dropped`) or it is still stored. */
  lemma HintCanBeMissed(dropped: bool) returns (states: seq<Sys>, labels: seq<Label>, l: Label)
    ensures IsRun(states, labels) && Writes(states[|labels|], l)
    ensures 1 in states[|labels|].store.discovery <==> !dropped
    ensures Announced(states[|labels|], l) == NoHint
    ensures var s := states[|labels|]; DueHint(s.store, Do(s, l).store, s.flights[l.conn].device, l.now) == PeerOnline
  {
    hide IsRun;
    states, labels := FirstPublish();
    states, labels := Extend(states, labels, Call(RenewPresence(1, 1, 10), 5), Sys(SampleStore(15, true), map[]));
    states, labels := Extend(states, labels, Begin(1, 1, SAMPLE, true, 9), Sys(SampleStore(15, true), SampleFlight(None)));
    states, labels := Extend(states, labels, ReadOld(1, 9), Sys(SampleStore(15, true), SampleFlight(Some(Some(SAMPLE)))));
    if dropped {
      assert SampleStore(15, true).discovery - {1} == map[];
      states, labels := Extend(states, labels, Call(GetDiscovery(1), 11), Sys(SampleStore(15, false), SampleFlight(Some(Some(SAMPLE)))));
    }
    l := Write(1, 10, 12);
  }

  // ---------- resolving ----------

  /** The store as one read of a resolve finds it, and whether the backend fails that read. */
  datatype Moment = Moment(store: Store, now: int, fails: bool)

  datatype Status = Unknown | Offline | NotReady | IsReady(d: Discovery)

  /** The outcome of one presence, discovery, presence round; None when the owner changed. */
  function Round(first: Moment, middle: Moment, last: Moment, device: DeviceId): Option<Status> {
    if first.fails then Some(Unknown)
    else if !SeenPresent(first.store, device, first.now) then Some(Offline)
    else if middle.fails || last.fails then Some(Unknown)
    else if !SeenPresent(last.store, device, last.now) then Some(Offline)
    else if first.store.presence[device].owner == 0 || last.store.presence[device].owner != first.store.presence[device].owner then None
    else if !Publishes(middle, device, first.store.presence[device].owner) then Some(NotReady)
    else Some(IsReady(middle.store.discovery[device].snapshot))
  }

  function RoundAt(moments: seq<Moment>, k: nat, device: DeviceId): Option<Status>
    requires |moments| == 6 && k < 2
  {
    Round(moments[3 * k], moments[3 * k + 1], moments[3 * k + 2], device)
  }

  /** The discovery seen at this moment is complete and belongs to `owner`. */
  predicate Publishes(m: Moment, device: DeviceId, owner: ConnId) {
    && SeenPublished(m.store, device, m.now)
    && var d := m.store.discovery[device].snapshot; Ready(d) && HasEpoch(d) && d.owner != 0 && d.owner == owner
  }

  /** resolvePeer: at most two rounds of three separate reads. */
  method ResolvePeer(moments: seq<Moment>, device: DeviceId) returns (status: Status)
    requires |moments| == 6
    ensures status == (
      if RoundAt(moments, 0, device).Some? then RoundAt(moments, 0, device).value
      else if RoundAt(moments, 1, device).Some? then RoundAt(moments, 1, device).value
      else Unknown)
    ensures status.IsReady? ==> exists k :: 0 <= k < 2 && StableReady(moments, k, device, status.d)
  {
    var attempt := 0;
    while attempt < 2
      invariant 0 <= attempt <= 2
      invariant forall k | 0 <= k < attempt :: RoundAt(moments, k, device).None?
    {
      var first, middle, last := moments[3 * attempt], moments[3 * attempt + 1], moments[3 * attempt + 2];
      assert RoundAt(moments, attempt, device) == Round(first, middle, last, device);
      if first.fails {
        return Unknown;
      }
      if !SeenPresent(first.store, device, first.now) {
        return Offline;
      }
      if middle.fails || last.fails {
        return Unknown;
      }
      if !SeenPresent(last.store, device, last.now) {
        return Offline;
      }
      var owner := first.store.presence[device].owner;
      if owner != 0 && last.store.presence[device].owner != 0 && last.store.presence[device].owner == owner {
        if !SeenPublished(middle.store, device, middle.now) {
          return NotReady;
        }
        var found := middle.store.discovery[device].snapshot;
        if !Ready(found) || !HasEpoch(found) || found.owner == 0 || owner != found.owner {
          return NotReady;
        }
        assert StableReady(moments, attempt, device, found);
        return IsReady(found);
      }
      attempt := attempt + 1;
    }
    assert RoundAt(moments, 0, device).None? && RoundAt(moments, 1, device).None?;
    status := Unknown;
  }

  /** The same connection owned the lease at both presence reads of the round and published the
      snapshot that was read between them. */
  predicate StableReady(moments: seq<Moment>, k: nat, device: DeviceId, d: Discovery)
    requires |moments| == 6 && k < 2
  {
    var first, middle, last := moments[3 * k], moments[3 * k + 1], moments[3 * k + 2];
    && SeenPresent(first.store, device, first.now) && SeenPublished(middle.store, device, middle.now)
    && SeenPresent(last.store, device, last.now)
    && first.store.presence[device].owner == last.store.presence[device].owner == d.owner != 0
    && middle.store.discovery[device].snapshot == d && Ready(d) && HasEpoch(d)
  }

  // ---------- resolving during a run ----------

  /** The six reads of a resolve happen at these states of a run, in this order. */
  ghost predicate ReadsOf(moments: seq<Moment>, states: seq<Sys>, at: seq<nat>) {
    && |moments| == |at| == 6
    && (forall i | 0 <= i < 6 :: at[i] < |states| && moments[i].store == states[at[i]].store)
    && (forall i, j | 0 <= i <= j < 6 :: at[i] <= at[j])
  }

  /** A connection other than `conn` takes the device's lease over. */
  predicate TakesOver(l: Label, device: DeviceId, conn: ConnId) {
    l.Call? && l.op.TakePresence? && l.op.device == device && l.op.conn != conn
  }

  /** `conn` takes the lease or renews it after it lapsed. */
  predicate Regains(l: Label, device: DeviceId, conn: ConnId) {
    l.Call? && (l.op.TakePresence? || l.op.RenewPresence?) && l.op.device == device && l.op.conn == conn
  }

  lemma {:induction false} LostUntilRegained(states: seq<Sys>, labels: seq<Label>, k: nat, z: nat, device: DeviceId, conn: ConnId)
    requires IsRun(states, labels) && k < z <= |labels| && TakesOver(labels[k], device, conn)
    requires forall j | k < j < z :: !Regains(labels[j], device, conn)
    ensures device in states[z].store.presence ==> states[z].store.presence[device].owner != conn
  {
    if z > k + 1 {
      LostUntilRegained(states, labels, k, z - 1, device, conn);
      OwnerStep(states[z - 1], labels[z - 1], device, conn);
    }
  }

  lemma OwnerStep(s: Sys, l: Label, device: DeviceId, conn: ConnId)
    requires Can(s, l) && !Regains(l, device, conn)
    requires device in s.store.presence ==> s.store.presence[device].owner != conn
    ensures device in Do(s, l).store.presence ==> Do(s, l).store.presence[device].owner != conn
  {
  }

  /** In any run, whatever is interleaved with the reads, a READY answer names a connection that
      owned the lease at both presence reads; if another connection took the lease over between
      them, the named one regained it before the second read. */
  lemma ReadyUnderTakeover(states: seq<Sys>, labels: seq<Label>, at: seq<nat>, moments: seq<Moment>, k: nat,
                           device: DeviceId, d: Discovery, step: nat)
    requires IsRun(states, labels) && ReadsOf(moments, states, at) && k < 2 && RoundAt(moments, k, device) == Some(IsReady(d))
    requires at[3 * k] <= step < at[3 * k + 2] && TakesOver(labels[step], device, d.owner)
    ensures StableReady(moments, k, device, d)
    ensures exists j :: step < j < at[3 * k + 2] && Regains(labels[j], device, d.owner)
  {
    if forall j | step < j < at[3 * k + 2] :: !Regains(labels[j], device, d.owner) {
      LostUntilRegained(states, labels, step, at[3 * k + 2], device, d.owner);
    }
  }
}
