/** Durable enrollment and revocation, and the credentials issued under it. Times are nanoseconds
    since the Unix epoch, enrollment generations microseconds. */
module Enrollment {
  import opened Options
  import opened UnixTime

  type DeviceId = nat
  type PublicKey = nat

  /** The zero time of the source, 1 January of year 1, in microseconds. */
  const ZERO_TIME: int := -62_135_596_800 * 1_000_000

  datatype Device = Device(key: PublicKey, protocol: nat, generation: int)
  datatype Tombstone = Tombstone(expiresAt: int, floor: Option<int>)
  datatype Durable = Durable(enrolled: map<DeviceId, Device>, revoked: map<DeviceId, Tombstone>)
  datatype Limits = Limits(maxEnrolled: nat, maxRevoked: nat, ttl: int, protocol: nat)

  datatype PutResult = Enrolled(generation: int) | IdentityConflict | ResourceLimit
  datatype RevokeResult = Revoked(generation: int) | NotEnrolled | Capacity

  /** A generation later than the base, and otherwise the candidate time; a zero candidate is
      replaced by the clock. */
  function NextGeneration(candidate: int, clock: int, base: Option<int>): (g: int)
    ensures base.Some? ==> g > base.value
  {
    var next := if Micros(candidate) == ZERO_TIME then Micros(clock) else Micros(candidate);
    if base.Some? && next <= base.value then base.value + 1 else next
  }

  /** What the next generation has to exceed: the current one, or the floor left by a revocation. */
  function Base(s: Durable, device: DeviceId): Option<int> {
    if device in s.enrolled then Some(s.enrolled[device].generation)
    else if device in s.revoked then s.revoked[device].floor
    else None
  }

  function PutOutcome(s: Durable, caps: Limits, device: DeviceId, key: PublicKey, protocol: nat, candidate: int, clock: int): PutResult {
    if device in s.enrolled && (s.enrolled[device].key != key || protocol < s.enrolled[device].protocol) then IdentityConflict
    else if device !in s.enrolled && |s.enrolled| >= caps.maxEnrolled then ResourceLimit
    else Enrolled(NextGeneration(candidate, clock, Base(s, device)))
  }

  function Put(s: Durable, caps: Limits, device: DeviceId, key: PublicKey, protocol: nat, candidate: int, clock: int): Durable {
    var r := PutOutcome(s, caps, device, key, protocol, candidate, clock);
    if r.Enrolled? then Durable(s.enrolled[device := Device(key, protocol, r.generation)], s.revoked - {device}) else s
  }

  function UnexpiredTombstones(revoked: map<DeviceId, Tombstone>, now: int): map<DeviceId, Tombstone> {
    map d | d in revoked && now < revoked[d].expiresAt :: revoked[d]
  }

  /** The three times are the clock readings of one revocation: deadline, pruning, floor. */
  datatype Clocks = Clocks(deadline: int, prune: int, floor: int)

  function RevokeOutcome(s: Durable, caps: Limits, device: DeviceId, t: Clocks): RevokeResult {
    if device !in s.enrolled then NotEnrolled
    else if device !in UnexpiredTombstones(s.revoked, t.prune) && |UnexpiredTombstones(s.revoked, t.prune)| >= caps.maxRevoked then Capacity
    else Revoked(s.enrolled[device].generation)
  }

  function Later(a: int, b: int): int { if a < b then b else a }

  function Revoke(s: Durable, caps: Limits, device: DeviceId, t: Clocks): Durable {
    match RevokeOutcome(s, caps, device, t)
    case NotEnrolled => s
    case Capacity => s.(revoked := UnexpiredTombstones(s.revoked, t.prune))
    case Revoked(generation) =>
      var kept := UnexpiredTombstones(s.revoked, t.prune);
      var deadline := t.deadline + caps.ttl;
      var tomb := Tombstone(if device in kept then Later(kept[device].expiresAt, deadline) else deadline,
                            Some(NextGeneration(t.floor, t.floor, Some(generation))));
      Durable(s.enrolled - {device}, kept[device := tomb])
  }

  predicate IsRevoked(s: Durable, device: DeviceId, now: int) { device in s.revoked && now < s.revoked[device].expiresAt }

  /** An expired tombstone is dropped when it is looked at. */
  function DropExpired(s: Durable, device: DeviceId, now: int): Durable {
    if device in s.revoked && !IsRevoked(s, device, now) then s.(revoked := s.revoked - {device}) else s
  }

  // ---------- credentials ----------

  datatype Credential = Credential(device: DeviceId, key: PublicKey, generation: int, expiresAt: int)


  predicate Expired(c: Credential, now: int) { c.expiresAt <= Seconds(now) }

  /** The durable half of admission: unexpired at one time, and at a later one not revoked and
      still the current enrollment. */
  predicate ClaimsCurrent(s: Durable, caps: Limits, c: Credential, checked: int, read: int) {
    && !Expired(c, checked) && !IsRevoked(s, c.device, read)
    && c.device in s.enrolled && s.enrolled[c.device].key == c.key
    && s.enrolled[c.device].generation == c.generation && s.enrolled[c.device].protocol == caps.protocol
  }

  // ---------- runs ----------

  /** issued: every credential with its time of issue. dead: those issued before a successful
      revocation of their device. */
  datatype Sys = Sys(durable: Durable, issued: map<Credential, int>, dead: set<Credential>, clock: int)

  datatype Label =
    | DoEnroll(device: DeviceId, key: PublicKey, protocol: nat, candidate: int, now: int)
    | DoRefresh(device: DeviceId, now: int)
    | DoRevoke(device: DeviceId, t: Clocks)
    | DoCheck(device: DeviceId, now: int)

  predicate Can(s: Sys, l: Label) {
    match l
    case DoRevoke(_, t) => s.clock <= t.deadline <= t.prune <= t.floor
    case _ => s.clock <= l.now
  }

  function Fresh(device: DeviceId, key: PublicKey, generation: int, ttl: int, now: int): Credential {
    Credential(device, key, generation, Seconds(now + ttl))
  }

  function Issue(s: Sys, caps: Limits, device: DeviceId, now: int): Sys
    requires device in s.durable.enrolled
  {
    var d := s.durable.enrolled[device];
    if d.generation <= 0 then s.(clock := now)
    else s.(issued := s.issued[Fresh(device, d.key, d.generation, caps.ttl, now) := now], clock := now)
  }

  function Of(issued: map<Credential, int>, device: DeviceId): set<Credential> { set c | c in issued && c.device == device }

  /** Enrolling and refreshing issue a credential in the same step. */
  function Do(s: Sys, caps: Limits, l: Label): Sys {
    match l
    case DoEnroll(device, key, protocol, candidate, now) =>
      var s1 := s.(durable := Put(s.durable, caps, device, key, protocol, candidate, now));
      if PutOutcome(s.durable, caps, device, key, protocol, candidate, now).Enrolled? then Issue(s1, caps, device, now)
      else s1.(clock := now)
    case DoRefresh(device, now) =>
      var s1 := s.(durable := DropExpired(s.durable, device, now));
      if device in s.durable.enrolled && s.durable.enrolled[device].protocol == caps.protocol && !IsRevoked(s.durable, device, now)
      then Issue(s1, caps, device, now)
      else s1.(clock := now)
    case DoRevoke(device, t) =>
      s.(durable := Revoke(s.durable, caps, device, t), clock := t.floor,
         dead := if RevokeOutcome(s.durable, caps, device, t).Revoked? then s.dead + Of(s.issued, device) else s.dead)
    case DoCheck(device, now) => s.(durable := DropExpired(s.durable, device, now), clock := now)
  }

  /** Why a credential that was issued is harmless or current: it has expired, or the enrollment is
      at least as new (newer, once it is dead), or the tombstone outlasts it and floors above it. */
  predicate Accounted(s: Durable, ttl: int, clock: int, dead: bool, c: Credential, issuedAt: int) {
    && issuedAt <= clock && c.expiresAt == Seconds(issuedAt + ttl)
    && (|| Expired(c, clock)
        || (c.device in s.enrolled && c.generation <= s.enrolled[c.device].generation
            && (dead ==> c.generation < s.enrolled[c.device].generation))
        || (c.device !in s.enrolled && Tombstoned(s, ttl, c, issuedAt)))
  }

  predicate Tombstoned(s: Durable, ttl: int, c: Credential, issuedAt: int) {
    && c.device in s.revoked && issuedAt + ttl <= s.revoked[c.device].expiresAt
    && s.revoked[c.device].floor.Some? && c.generation <= s.revoked[c.device].floor.value
  }

  ghost predicate AllAccounted(s: Sys, ttl: int) {
    && s.dead <= s.issued.Keys
    && forall c | c in s.issued :: Accounted(s.durable, ttl, s.clock, c in s.dead, c, s.issued[c])
  }

  lemma SecondsGrow(a: int, b: int)
    requires a <= b
    ensures Seconds(a) <= Seconds(b)
  {
  }

  /** A tombstone is dropped only when every credential it covered has expired. */
  lemma DroppedMeansExpired(s: Durable, ttl: int, c: Credential, issuedAt: int, now: int)
    requires Tombstoned(s, ttl, c, issuedAt) && c.expiresAt == Seconds(issuedAt + ttl)
    requires s.revoked[c.device].expiresAt <= now
    ensures Expired(c, now)
  {
    SecondsGrow(issuedAt + ttl, now);
  }

  lemma CheckAccounts(s: Durable, ttl: int, clock: int, dead: bool, c: Credential, issuedAt: int, device: DeviceId, now: int)
    requires Accounted(s, ttl, clock, dead, c, issuedAt) && clock <= now
    ensures Accounted(DropExpired(s, device, now), ttl, now, dead, c, issuedAt)
  {
    SecondsGrow(clock, now);
    if c.device !in s.enrolled && c.device == device && Tombstoned(s, ttl, c, issuedAt) && s.revoked[device].expiresAt <= now {
      DroppedMeansExpired(s, ttl, c, issuedAt, now);
    }
  }

  lemma PutAccounts(s: Durable, caps: Limits, clock: int, dead: bool, c: Credential, issuedAt: int, l: Label)
    requires l.DoEnroll? && Accounted(s, caps.ttl, clock, dead, c, issuedAt) && clock <= l.now
    ensures Accounted(Put(s, caps, l.device, l.key, l.protocol, l.candidate, l.now), caps.ttl, l.now, dead, c, issuedAt)
  {
    SecondsGrow(clock, l.now);
  }

  lemma RevokeAccounts(s: Durable, caps: Limits, clock: int, dead: bool, c: Credential, issuedAt: int, device: DeviceId, t: Clocks)
    requires Accounted(s, caps.ttl, clock, dead, c, issuedAt) && clock <= t.deadline <= t.prune <= t.floor
    ensures Accounted(Revoke(s, caps, device, t), caps.ttl, t.floor,
                      dead || (c.device == device && RevokeOutcome(s, caps, device, t).Revoked?), c, issuedAt)
  {
    SecondsGrow(clock, t.floor);
    SecondsGrow(t.prune, t.floor);
    if c.device !in s.enrolled && Tombstoned(s, caps.ttl, c, issuedAt) && s.revoked[c.device].expiresAt <= t.prune {
      DroppedMeansExpired(s, caps.ttl, c, issuedAt, t.prune);
    }
  }

  lemma IssueAccounts(s: Sys, caps: Limits, device: DeviceId, now: int)
    requires AllAccounted(s.(clock := now), caps.ttl) && device in s.durable.enrolled
    requires forall c | c in s.dead && c.device == device :: Expired(c, now) || c.generation < s.durable.enrolled[device].generation
    ensures AllAccounted(Issue(s, caps, device, now), caps.ttl)
  {
    var s' := Issue(s, caps, device, now);
    forall c | c in s'.issued
      ensures Accounted(s'.durable, caps.ttl, now, c in s'.dead, c, s'.issued[c])
    {
      if c in s.issued {
        assert Accounted(s.durable, caps.ttl, now, c in s.dead, c, s.issued[c]);
      }
    }
  }

  lemma DeadAreOld(s: Sys, ttl: int, device: DeviceId)
    requires AllAccounted(s, ttl) && device in s.durable.enrolled
    ensures forall c | c in s.dead && c.device == device :: Expired(c, s.clock) || c.generation < s.durable.enrolled[device].generation
  {
    forall c | c in s.dead && c.device == device
      ensures Expired(c, s.clock) || c.generation < s.durable.enrolled[device].generation
    {
      assert Accounted(s.durable, ttl, s.clock, true, c, s.issued[c]);
    }
  }

  lemma StepAccounts(s: Sys, caps: Limits, l: Label)
    requires AllAccounted(s, caps.ttl) && Can(s, l)
    ensures AllAccounted(Do(s, caps, l), caps.ttl)
  {
    match l
    case DoEnroll(device, key, protocol, candidate, now) =>
      var s1 := s.(durable := Put(s.durable, caps, device, key, protocol, candidate, now), clock := now);
      forall c | c in s.issued
        ensures Accounted(s1.durable, caps.ttl, now, c in s.dead, c, s.issued[c])
      {
        PutAccounts(s.durable, caps, s.clock, c in s.dead, c, s.issued[c], l);
      }
      if PutOutcome(s.durable, caps, device, key, protocol, candidate, now).Enrolled? {
        DeadAreOld(s1, caps.ttl, device);
        IssueAccounts(s.(durable := s1.durable), caps, device, now);
      }
    case DoRefresh(device, now) =>
      CheckStepAccounts(s, caps, device, now);
      var s1 := s.(durable := DropExpired(s.durable, device, now), clock := now);
      if device in s.durable.enrolled {
        DeadAreOld(s1, caps.ttl, device);
        IssueAccounts(s.(durable := s1.durable), caps, device, now);
      }
    case DoRevoke(device, t) =>
      forall c | c in s.issued
        ensures Accounted(Revoke(s.durable, caps, device, t), caps.ttl, t.floor, c in Do(s, caps, l).dead, c, s.issued[c])
      {
        RevokeAccounts(s.durable, caps, s.clock, c in s.dead, c, s.issued[c], device, t);
      }
    case DoCheck(device, now) => CheckStepAccounts(s, caps, device, now);
  }

  lemma CheckStepAccounts(s: Sys, caps: Limits, device: DeviceId, now: int)
    requires AllAccounted(s, caps.ttl) && s.clock <= now
    ensures AllAccounted(s.(durable := DropExpired(s.durable, device, now), clock := now), caps.ttl)
  {
    forall c | c in s.issued
      ensures Accounted(DropExpired(s.durable, device, now), caps.ttl, now, c in s.dead, c, s.issued[c])
    {
      CheckAccounts(s.durable, caps.ttl, s.clock, c in s.dead, c, s.issued[c], device, now);
    }
  }

  ghost predicate IsRun(caps: Limits, states: seq<Sys>, labels: seq<Label>) {
    && |states| == |labels| + 1
    && states[0].durable == Durable(map[], map[]) && states[0].issued == map[] && states[0].dead == {}
    && forall i | 0 <= i < |labels| :: Can(states[i], labels[i]) && states[i + 1] == Do(states[i], caps, labels[i])
  }

  lemma {:induction false} ReachableAccounts(caps: Limits, states: seq<Sys>, labels: seq<Label>, n: nat)
    requires IsRun(caps, states, labels) && n <= |labels|
    ensures AllAccounted(states[n], caps.ttl)
  {
    hide Do, Can, Accounted;
    if n > 0 {
      ReachableAccounts(caps, states, labels, n - 1);
      StepAccounts(states[n - 1], caps, labels[n - 1]);
    }
  }

  lemma {:induction false} DeadStayDead(caps: Limits, states: seq<Sys>, labels: seq<Label>, i: nat, n: nat, c: Credential)
    requires IsRun(caps, states, labels) && i <= n <= |labels| && c in states[i].dead
    ensures c in states[n].dead
  {
    hide Put, Revoke, PutOutcome, RevokeOutcome;
    if i < n {
      DeadStayDead(caps, states, labels, i, n - 1, c);
    }
  }

  /** After a successful revocation no credential issued before it is accepted ever again, by any
      later state of any run of enrollments, refreshes, revocations and prunes. */
  lemma RevokedCredentialsStayRejected(caps: Limits, states: seq<Sys>, labels: seq<Label>, i: nat, n: nat, c: Credential,
                                       checked: int, read: int)
    requires IsRun(caps, states, labels) && i < n <= |labels|
    requires labels[i].DoRevoke? && RevokeOutcome(states[i].durable, caps, labels[i].device, labels[i].t).Revoked?
    requires c in states[i].issued && c.device == labels[i].device
    requires states[n].clock <= checked <= read
    ensures !ClaimsCurrent(states[n].durable, caps, c, checked, read)
  {
    hide Put, Revoke, PutOutcome, RevokeOutcome;
    assert c in Of(states[i].issued, labels[i].device);
    assert states[i + 1] == Do(states[i], caps, labels[i]);
    DeadStayDead(caps, states, labels, i + 1, n, c);
    ReachableAccounts(caps, states, labels, n);
    assert Accounted(states[n].durable, caps.ttl, states[n].clock, true, c, states[n].issued[c]);
    SecondsGrow(states[n].clock, checked);
  }

  /** A credential issued in the latest step is accepted until it expires, if the device's protocol
      is the served one: re-enrollment lifts an earlier revocation at once. */
  lemma IssuedIsAccepted(caps: Limits, s: Sys, l: Label, checked: int, read: int)
    requires l.DoEnroll? && PutOutcome(s.durable, caps, l.device, l.key, l.protocol, l.candidate, l.now).Enrolled? && l.protocol == caps.protocol
    ensures var s' := Do(s, caps, l); var c := Fresh(l.device, l.key, s'.durable.enrolled[l.device].generation, caps.ttl, l.now);
      && (c.generation > 0 ==> c in s'.issued)
      && (ClaimsCurrent(s'.durable, caps, c, checked, read) <==> Seconds(checked) < Seconds(l.now + caps.ttl))
  {
  }

  /** Whether the device is enrolled or its tombstone still stands, a new enrollment gets a strictly
      larger generation than every credential of the device that has not expired. */
  lemma FloorForcesNewGeneration(caps: Limits, states: seq<Sys>, labels: seq<Label>, n: nat, c: Credential,
                                 key: PublicKey, protocol: nat, candidate: int, now: int)
    requires IsRun(caps, states, labels) && n <= |labels| && c in states[n].issued && !Expired(c, states[n].clock)
    requires PutOutcome(states[n].durable, caps, c.device, key, protocol, candidate, now).Enrolled?
    ensures PutOutcome(states[n].durable, caps, c.device, key, protocol, candidate, now).generation > c.generation
  {
    ReachableAccounts(caps, states, labels, n);
    assert Accounted(states[n].durable, caps.ttl, states[n].clock, c in states[n].dead, c, states[n].issued[c]);
  }

  // ---------- the store updated in place ----------

  class EnrollmentStore {
    var enrolled: map<DeviceId, Device>
    var revoked: map<DeviceId, Tombstone>
    const caps: Limits

    ghost function State(): Durable
      reads this
    {
      Durable(enrolled, revoked)
    }

    constructor (caps: Limits)
      ensures State() == Durable(map[], map[]) && this.caps == caps
    {
      enrolled, revoked := map[], map[];
      this.caps := caps;
    }

    method PutEnrollment(device: DeviceId, key: PublicKey, protocol: nat, candidate: int, clock: int) returns (r: PutResult)
      modifies this
      ensures r == PutOutcome(old(State()), caps, device, key, protocol, candidate, clock)
      ensures State() == Put(old(State()), caps, device, key, protocol, candidate, clock)
    {
      var base := None;
      if device in enrolled {
        if enrolled[device].key != key {
          return IdentityConflict;
        }
        if protocol < enrolled[device].protocol {
          return IdentityConflict;
        }
        base := Some(enrolled[device].generation);
      } else if |enrolled| >= caps.maxEnrolled {
        return ResourceLimit;
      } else if device in revoked && revoked[device].floor.Some? {
        base := revoked[device].floor;
      }
      var generation := NextGeneration(candidate, clock, base);
      enrolled := enrolled[device := Device(key, protocol, generation)];
      revoked := revoked - {device};
      r := Enrolled(generation);
    }

    method PruneExpired(now: int)
      modifies this`revoked
      ensures revoked == UnexpiredTombstones(old(revoked), now)
    {
      var rest := revoked.Keys;
      while rest != {}
        invariant rest <= old(revoked).Keys
        invariant revoked == map d | d in old(revoked) && (d in rest || now < old(revoked)[d].expiresAt) :: old(revoked)[d]
        decreases rest
      {
        var d :| d in rest;
        if now >= revoked[d].expiresAt {
          revoked := revoked - {d};
        }
        rest := rest - {d};
      }
    }

    /** Writes or extends a tombstone; a full table refuses instead of evicting. */
    method WriteRevocation(device: DeviceId, deadline: int, now: int) returns (written: bool)
      modifies this`revoked
      ensures var kept := UnexpiredTombstones(old(revoked), now);
        && written == (device in kept || |kept| < caps.maxRevoked)
        && revoked == if !written then kept
                      else if device in kept then kept[device := kept[device].(expiresAt := Later(kept[device].expiresAt, deadline))]
                      else kept[device := Tombstone(deadline, None)]
    {
      PruneExpired(now);
      if device in revoked {
        if deadline > revoked[device].expiresAt {
          revoked := revoked[device := revoked[device].(expiresAt := deadline)];
        }
        assert revoked == UnexpiredTombstones(old(revoked), now)[device := revoked[device]];
        return true;
      }
      if |revoked| >= caps.maxRevoked {
        return false;
      }
      revoked := revoked[device := Tombstone(deadline, None)];
      written := true;
    }

    method RevokeEnrollment(device: DeviceId, t: Clocks) returns (r: RevokeResult)
      modifies this
      ensures r == RevokeOutcome(old(State()), caps, device, t)
      ensures State() == Revoke(old(State()), caps, device, t)
    {
      if device !in enrolled {
        return NotEnrolled;
      }
      var written := WriteRevocation(device, t.deadline + caps.ttl, t.prune);
      if !written {
        return Capacity;
      }
      var generation := enrolled[device].generation;
      revoked := revoked[device := revoked[device].(floor := Some(NextGeneration(t.floor, t.floor, Some(generation))))];
      enrolled := enrolled - {device};
      r := Revoked(generation);
    }

    method CheckRevoked(device: DeviceId, now: int) returns (found: bool)
      modifies this`revoked
      ensures found == IsRevoked(old(State()), device, now)
      ensures State() == DropExpired(old(State()), device, now)
    {
      if device !in revoked {
        return false;
      }
      if now >= revoked[device].expiresAt {
        revoked := revoked - {device};
        return false;
      }
      found := true;
    }
  }
}
