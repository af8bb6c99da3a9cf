/** When enrollment generations of a device only ever rise: across re-enrollment, revocation and
    the pruning of tombstones. */
module EnrollmentGenerations {
  import opened Options
  import opened UnixTime
  import opened Enrollment

  /** The generation a step enrolls a device under. */
  function EnrolledBy(s: Sys, caps: Limits, l: Label, device: DeviceId): Option<int> {
    if l.DoEnroll? && l.device == device then
      var r := PutOutcome(s.durable, caps, l.device, l.key, l.protocol, l.candidate, l.now);
      if r.Enrolled? then Some(r.generation) else None
    else None
  }

  /** How often the device was enrolled, and its latest generation. */
  datatype Past = Past(count: nat, last: int)

  function PastOf(caps: Limits, states: seq<Sys>, labels: seq<Label>, n: nat, device: DeviceId): Past
    requires n <= |labels| <= |states|
  {
    if n == 0 then Past(0, 0)
    else Advance(states[n - 1], caps, labels[n - 1], PastOf(caps, states, labels, n - 1, device), device)
  }

  function Advance(s: Sys, caps: Limits, l: Label, p: Past, device: DeviceId): Past {
    var g := EnrolledBy(s, caps, l, device);
    if g.Some? then Past(p.count + 1, g.value) else p
  }

  // ---------- exactly when a generation falls ----------

  /** What the store knows of the past: the current generation is the latest one, and the floor of
      a tombstone lies above it. */
  predicate Latest(s: Durable, p: Past, device: DeviceId) {
    if device in s.enrolled then device !in s.revoked && p.count > 0 && s.enrolled[device].generation == p.last
    else if device in s.revoked then p.count > 0 && s.revoked[device].floor.Some? && p.last < s.revoked[device].floor.value
    else true
  }

  lemma LatestStep(s: Sys, caps: Limits, l: Label, p: Past, device: DeviceId)
    requires Latest(s.durable, p, device)
    ensures Latest(Do(s, caps, l).durable, Advance(s, caps, l, p, device), device)
  {
    if l.DoRevoke? {
      LatestRevoke(s.durable, caps, p, device, l.device, l.t);
    }
    hide Revoke, RevokeOutcome;
  }

  lemma LatestRevoke(s: Durable, caps: Limits, p: Past, device: DeviceId, gone: DeviceId, t: Clocks)
    requires Latest(s, p, device)
    ensures Latest(Revoke(s, caps, gone, t), p, device)
  {
  }

  lemma {:induction false} RunsKnowLatest(caps: Limits, states: seq<Sys>, labels: seq<Label>, n: nat, device: DeviceId)
    requires IsRun(caps, states, labels) && n <= |labels|
    ensures Latest(states[n].durable, PastOf(caps, states, labels, n, device), device)
  {
    hide Can, Do, EnrolledBy;
    if n > 0 {
      RunsKnowLatest(caps, states, labels, n - 1, device);
      LatestStep(states[n - 1], caps, labels[n - 1], PastOf(caps, states, labels, n - 1, device), device);
    }
  }

  /** The store remembers nothing of a device that was enrolled before, and the candidate it now
      enrolls under is not above the latest generation. */
  predicate Forgotten(s: Durable, l: Label, p: Past)
    requires l.DoEnroll?
  {
    p.count > 0 && l.device !in s.enrolled && l.device !in s.revoked && NextGeneration(l.candidate, l.now, None) <= p.last
  }

  /** In every run an enrollment of a device that was enrolled before fails to rise if and only if
      the store has forgotten the device and the candidate is not above the latest generation. */
  lemma FallsExactlyWhenForgotten(caps: Limits, states: seq<Sys>, labels: seq<Label>, n: nat, device: DeviceId)
    requires IsRun(caps, states, labels) && n < |labels| && EnrolledBy(states[n], caps, labels[n], device).Some?
    requires PastOf(caps, states, labels, n, device).count > 0
    ensures EnrolledBy(states[n], caps, labels[n], device).value <= PastOf(caps, states, labels, n, device).last
       <==> Forgotten(states[n].durable, labels[n], PastOf(caps, states, labels, n, device))
  {
    hide Do;
    RunsKnowLatest(caps, states, labels, n, device);
  }

  /** Step `k` enrolls the device although the store has forgotten a generation not below. */
  predicate FallsAt(caps: Limits, states: seq<Sys>, labels: seq<Label>, k: nat, device: DeviceId)
    requires k < |labels| <= |states|
  {
    EnrolledBy(states[k], caps, labels[k], device).Some? && Forgotten(states[k].durable, labels[k], PastOf(caps, states, labels, k, device))
  }

  /** No step from `i` on falls from a generation at or above `base`. */
  ghost predicate NoFallFrom(caps: Limits, states: seq<Sys>, labels: seq<Label>, i: nat, n: nat, device: DeviceId, base: int)
    requires i <= n <= |labels| <= |states|
  {
    forall k | i <= k < n && FallsAt(caps, states, labels, k, device) :: PastOf(caps, states, labels, k, device).last < base
  }

  /** As long as nothing falls from the latest generation or above, it never falls, and every
      further enrollment raises it. */
  lemma {:induction false} GenerationsRise(caps: Limits, states: seq<Sys>, labels: seq<Label>, i: nat, n: nat, device: DeviceId)
    requires IsRun(caps, states, labels) && i <= n <= |labels| && PastOf(caps, states, labels, i, device).count > 0
    requires NoFallFrom(caps, states, labels, i, n, device, PastOf(caps, states, labels, i, device).last)
    ensures PastOf(caps, states, labels, n, device).count >= PastOf(caps, states, labels, i, device).count
    ensures PastOf(caps, states, labels, i, device).last <= PastOf(caps, states, labels, n, device).last
    ensures PastOf(caps, states, labels, n, device).count > PastOf(caps, states, labels, i, device).count ==>
      PastOf(caps, states, labels, i, device).last < PastOf(caps, states, labels, n, device).last
  {
    hide Do, PutOutcome, Forgotten;
    if i < n {
      GenerationsRise(caps, states, labels, i, n - 1, device);
      if EnrolledBy(states[n - 1], caps, labels[n - 1], device).Some? {
        FallsExactlyWhenForgotten(caps, states, labels, n - 1, device);
      }
    }
  }

  /** The latest generation is one a step enrolled the device under. */
  lemma {:induction false} LatestWasEnrolled(caps: Limits, states: seq<Sys>, labels: seq<Label>, n: nat, device: DeviceId) returns (i: nat)
    requires n <= |labels| <= |states| && PastOf(caps, states, labels, n, device).count > 0
    ensures i < n && EnrolledBy(states[i], caps, labels[i], device) == Some(PastOf(caps, states, labels, n, device).last)
  {
    hide EnrolledBy;
    if EnrolledBy(states[n - 1], caps, labels[n - 1], device).Some? {
      i := n - 1;
    } else {
      i := LatestWasEnrolled(caps, states, labels, n - 1, device);
    }
  }

  /** Every later enrollment of the device gets a larger generation. */
  ghost predicate Rising(caps: Limits, states: seq<Sys>, labels: seq<Label>, n: nat, device: DeviceId)
    requires n <= |labels| <= |states|
  {
    forall i, j | 0 <= i < j < n && EnrolledBy(states[i], caps, labels[i], device).Some? && EnrolledBy(states[j], caps, labels[j], device).Some? ::
      EnrolledBy(states[i], caps, labels[i], device).value < EnrolledBy(states[j], caps, labels[j], device).value
  }

  /** In every run, generations of a device strictly rise if and only if no enrollment finds the
      device forgotten with a candidate not above its latest generation. */
  lemma GenerationsRiseExactly(caps: Limits, states: seq<Sys>, labels: seq<Label>, n: nat, device: DeviceId)
    requires IsRun(caps, states, labels) && n <= |labels|
    ensures Rising(caps, states, labels, n, device) <==> forall k | 0 <= k < n :: !FallsAt(caps, states, labels, k, device)
  {
    hide Do, Can, EnrolledBy, FallsAt;
    if forall k | 0 <= k < n :: !FallsAt(caps, states, labels, k, device) {
      forall i, j | 0 <= i < j < n && EnrolledBy(states[i], caps, labels[i], device).Some? && EnrolledBy(states[j], caps, labels[j], device).Some?
        ensures EnrolledBy(states[i], caps, labels[i], device).value < EnrolledBy(states[j], caps, labels[j], device).value
      {
        assert j < |labels|;
        PairRises(caps, states, labels, i, j, device);
      }
    }
    if Rising(caps, states, labels, n, device) {
      forall k | 0 <= k < n
        ensures !FallsAt(caps, states, labels, k, device)
      {
        RisingNeverFalls(caps, states, labels, n, k, device);
      }
    }
  }

  lemma PairRises(caps: Limits, states: seq<Sys>, labels: seq<Label>, i: nat, j: nat, device: DeviceId)
    requires IsRun(caps, states, labels) && i < j < |labels|
    requires EnrolledBy(states[i], caps, labels[i], device).Some? && EnrolledBy(states[j], caps, labels[j], device).Some?
    requires forall k | 0 <= k <= j :: !FallsAt(caps, states, labels, k, device)
    ensures EnrolledBy(states[i], caps, labels[i], device).value < EnrolledBy(states[j], caps, labels[j], device).value
  {
    hide Do, Forgotten, PutOutcome;
    assert PastOf(caps, states, labels, i + 1, device).last == EnrolledBy(states[i], caps, labels[i], device).value;
    GenerationsRise(caps, states, labels, i + 1, j, device);
    assert !FallsAt(caps, states, labels, j, device);
    FallsExactlyWhenForgotten(caps, states, labels, j, device);
  }

  lemma RisingNeverFalls(caps: Limits, states: seq<Sys>, labels: seq<Label>, n: nat, k: nat, device: DeviceId)
    requires IsRun(caps, states, labels) && k < n <= |labels| && Rising(caps, states, labels, n, device)
    ensures !FallsAt(caps, states, labels, k, device)
  {
    hide Do, PutOutcome;
    if FallsAt(caps, states, labels, k, device) {
      FallsExactlyWhenForgotten(caps, states, labels, k, device);
      var i := LatestWasEnrolled(caps, states, labels, k, device);
    }
  }

  lemma StepEnrolls(s: Sys, caps: Limits, l: Label, device: DeviceId)
    ensures device in Do(s, caps, l).durable.enrolled && device !in s.durable.enrolled ==> EnrolledBy(s, caps, l, device).Some?
  {
  }

  lemma {:induction false} OnlyEnrollingEnrolls(caps: Limits, states: seq<Sys>, labels: seq<Label>, i: nat, n: nat, device: DeviceId)
    requires IsRun(caps, states, labels) && i <= n <= |labels| && device !in states[i].durable.enrolled
    ensures PastOf(caps, states, labels, n, device).count >= PastOf(caps, states, labels, i, device).count
    ensures device in states[n].durable.enrolled ==>
      PastOf(caps, states, labels, n, device).count > PastOf(caps, states, labels, i, device).count
  {
    hide Do, EnrolledBy;
    if i < n {
      OnlyEnrollingEnrolls(caps, states, labels, i, n - 1, device);
      StepEnrolls(states[n - 1], caps, labels[n - 1], device);
    }
  }

  lemma {:induction false} CountsGrow(caps: Limits, states: seq<Sys>, labels: seq<Label>, i: nat, n: nat, device: DeviceId)
    requires i <= n <= |labels| <= |states|
    ensures PastOf(caps, states, labels, i, device).count <= PastOf(caps, states, labels, n, device).count
  {
    if i < n {
      CountsGrow(caps, states, labels, i, n - 1, device);
    }
  }

  /** A credential bound to a generation that was current before a revocation, whenever it is issued
      and however long it lasts, is accepted after the revocation only if the store has forgotten
      the device meanwhile and enrolled it under a generation that is not above. */
  lemma LateIssueStaysRejected(caps: Limits, states: seq<Sys>, labels: seq<Label>, a: nat, i: nat, n: nat, c: Credential,
                               checked: int, read: int)
    requires IsRun(caps, states, labels) && a <= i < n <= |labels|
    requires c.device in states[a].durable.enrolled && states[a].durable.enrolled[c.device].generation == c.generation
    requires labels[i].DoRevoke? && labels[i].device == c.device && RevokeOutcome(states[i].durable, caps, c.device, labels[i].t).Revoked?
    ensures ClaimsCurrent(states[n].durable, caps, c, checked, read) ==> exists k :: a <= k < n && FallsAt(caps, states, labels, k, c.device)
  {
    hide PutOutcome, FallsAt, NextGeneration;
    RunsKnowLatest(caps, states, labels, a, c.device);
    RunsKnowLatest(caps, states, labels, n, c.device);
    assert states[i + 1] == Do(states[i], caps, labels[i]);
    OnlyEnrollingEnrolls(caps, states, labels, i + 1, n, c.device);
    CountsGrow(caps, states, labels, a, i + 1, c.device);
    if forall k | a <= k < n :: !FallsAt(caps, states, labels, k, c.device) {
      GenerationsRise(caps, states, labels, a, n, c.device);
    }
  }

  // ---------- a margin that prevents falls ----------

  /** Candidates are clock readings at most `lag` old, and the credential lifetime exceeds that lag
      plus two microseconds per enrollment of the device. */
  ghost predicate Honest(labels: seq<Label>, lag: int) {
    forall i | 0 <= i < |labels| && labels[i].DoEnroll? ::
      labels[i].now - lag <= labels[i].candidate <= labels[i].now && Micros(labels[i].candidate) != ZERO_TIME
  }

  predicate Roomy(caps: Limits, count: nat, lag: int) { lag >= 0 && lag + (2 * count + 1) * MICROSECOND <= caps.ttl }

  /** A generation leads the clock by at most two microseconds per enrollment, and the tombstone
      keeps it until the clock has caught up. */
  predicate Behind(s: Durable, ttl: int, clock: int, p: Past, device: DeviceId) {
    if device in s.enrolled then
      device !in s.revoked && p.count > 0 && s.enrolled[device].generation == p.last && p.last <= Micros(clock) + 2 * p.count
    else if p.count == 0 then device !in s.revoked
    else if device in s.revoked then
      && s.revoked[device].floor.Some? && p.last < s.revoked[device].floor.value <= Micros(clock) + 2 * p.count + 1
      && p.last <= Micros(s.revoked[device].expiresAt - ttl) + 2 * p.count
    else p.last <= Micros(clock - ttl) + 2 * p.count
  }

  lemma MicrosGrow(a: int, b: int)
    requires a <= b
    ensures Micros(a) <= Micros(b)
  {
  }

  lemma MicrosGap(a: int, b: int, k: int)
    requires a + (k + 1) * MICROSECOND <= b
    ensures Micros(a) + k < Micros(b)
  {
    MicrosGrow(a + (k + 1) * MICROSECOND, b);
    assert Micros(a + (k + 1) * MICROSECOND) == Micros(a) + (k + 1);
  }

  lemma BehindDrop(s: Durable, ttl: int, clock: int, p: Past, device: DeviceId, dropped: DeviceId, now: int)
    requires Behind(s, ttl, clock, p, device) && clock <= now
    ensures Behind(DropExpired(s, dropped, now), ttl, now, p, device)
  {
    MicrosGrow(clock, now);
    MicrosGrow(clock - ttl, now - ttl);
    if device == dropped && device in s.revoked && s.revoked[device].expiresAt <= now {
      MicrosGrow(s.revoked[device].expiresAt - ttl, now - ttl);
    }
  }

  lemma BehindRevoke(s: Durable, caps: Limits, clock: int, p: Past, device: DeviceId, gone: DeviceId, t: Clocks)
    requires Behind(s, caps.ttl, clock, p, device) && clock <= t.deadline <= t.prune <= t.floor
    ensures Behind(Revoke(s, caps, gone, t), caps.ttl, t.floor, p, device)
  {
    MicrosGrow(clock, t.deadline);
    MicrosGrow(clock, t.floor);
    MicrosGrow(clock - caps.ttl, t.floor - caps.ttl);
    if device in s.revoked && device !in s.enrolled {
      BehindDropped(s, caps.ttl, clock, p, device, t.prune, t.floor);
    }
  }

  lemma BehindDropped(s: Durable, ttl: int, clock: int, p: Past, device: DeviceId, prune: int, now: int)
    requires Behind(s, ttl, clock, p, device) && device in s.revoked && device !in s.enrolled && clock <= prune <= now
    ensures s.revoked[device].expiresAt <= prune ==> p.last <= Micros(now - ttl) + 2 * p.count
  {
    if s.revoked[device].expiresAt <= prune {
      MicrosGrow(s.revoked[device].expiresAt - ttl, now - ttl);
    }
  }

  /** The generation a successful enrollment gets exceeds every earlier one of the device. */
  lemma EnrollRises(s: Sys, caps: Limits, l: Label, p: Past, lag: int)
    requires l.DoEnroll? && Behind(s.durable, caps.ttl, s.clock, p, l.device) && s.clock <= l.now
    requires l.now - lag <= l.candidate <= l.now && Micros(l.candidate) != ZERO_TIME && Roomy(caps, p.count, lag)
    requires EnrolledBy(s, caps, l, l.device).Some?
    ensures p.count > 0 ==> p.last < EnrolledBy(s, caps, l, l.device).value
    ensures EnrolledBy(s, caps, l, l.device).value <= Micros(l.now) + 2 * (p.count + 1)
  {
    MicrosGrow(l.candidate, l.now);
    MicrosGrow(s.clock, l.now);
    if p.count > 0 && l.device !in s.durable.enrolled && l.device !in s.durable.revoked {
      MicrosGrow(s.clock - caps.ttl, l.now - caps.ttl);
      MicrosGap(l.now - caps.ttl, l.candidate, 2 * p.count);
    }
  }

  lemma BehindEnroll(s: Sys, caps: Limits, l: Label, p: Past, device: DeviceId, lag: int)
    requires l.DoEnroll? && Behind(s.durable, caps.ttl, s.clock, p, device) && s.clock <= l.now
    requires l.now - lag <= l.candidate <= l.now && Micros(l.candidate) != ZERO_TIME && Roomy(caps, p.count, lag)
    ensures Behind(Do(s, caps, l).durable, caps.ttl, l.now, Advance(s, caps, l, p, device), device)
  {
    MicrosGrow(s.clock, l.now);
    MicrosGrow(s.clock - caps.ttl, l.now - caps.ttl);
    if EnrolledBy(s, caps, l, device).Some? {
      EnrollRises(s, caps, l, p, lag);
    }
  }

  lemma BehindStep(s: Sys, caps: Limits, l: Label, p: Past, device: DeviceId, lag: int)
    requires Behind(s.durable, caps.ttl, s.clock, p, device) && Can(s, l) && Roomy(caps, p.count, lag)
    requires l.DoEnroll? ==> l.now - lag <= l.candidate <= l.now && Micros(l.candidate) != ZERO_TIME
    ensures Behind(Do(s, caps, l).durable, caps.ttl, Do(s, caps, l).clock, Advance(s, caps, l, p, device), device)
  {
    hide Behind, Put, Revoke, PutOutcome, RevokeOutcome, DropExpired;
    match l
    case DoEnroll(_, _, _, _, now) => BehindEnroll(s, caps, l, p, device, lag);
    case DoRefresh(d, now) => BehindDrop(s.durable, caps.ttl, s.clock, p, device, d, now);
    case DoRevoke(d, t) => BehindRevoke(s.durable, caps, s.clock, p, device, d, t);
    case DoCheck(d, now) => BehindDrop(s.durable, caps.ttl, s.clock, p, device, d, now);
  }

  lemma {:induction false} RunsStayBehind(caps: Limits, states: seq<Sys>, labels: seq<Label>, n: nat, device: DeviceId, lag: int)
    requires IsRun(caps, states, labels) && n <= |labels| && Honest(labels, lag)
    requires Roomy(caps, PastOf(caps, states, labels, n, device).count, lag)
    ensures Behind(states[n].durable, caps.ttl, states[n].clock, PastOf(caps, states, labels, n, device), device)
  {
    hide Can, Do, EnrolledBy;
    if n > 0 {
      RunsStayBehind(caps, states, labels, n - 1, device, lag);
      BehindStep(states[n - 1], caps, labels[n - 1], PastOf(caps, states, labels, n - 1, device), device, lag);
    }
  }

  /** With honest candidates and that margin nothing ever falls, so generations rise. */
  lemma MarginPreventsFalls(caps: Limits, states: seq<Sys>, labels: seq<Label>, n: nat, device: DeviceId, lag: int)
    requires IsRun(caps, states, labels) && n <= |labels| && Honest(labels, lag)
    requires Roomy(caps, PastOf(caps, states, labels, n, device).count, lag)
    ensures forall k | 0 <= k < n :: !FallsAt(caps, states, labels, k, device)
    ensures Rising(caps, states, labels, n, device)
  {
    hide Do, Can, EnrolledBy, FallsAt, Behind;
    forall k | 0 <= k < n
      ensures !FallsAt(caps, states, labels, k, device)
    {
      CountsGrow(caps, states, labels, k, n, device);
      MarginAt(caps, states, labels, k, device, lag);
    }
    GenerationsRiseExactly(caps, states, labels, n, device);
  }

  lemma MarginAt(caps: Limits, states: seq<Sys>, labels: seq<Label>, k: nat, device: DeviceId, lag: int)
    requires IsRun(caps, states, labels) && k < |labels| && Honest(labels, lag)
    requires Roomy(caps, PastOf(caps, states, labels, k, device).count, lag)
    ensures !FallsAt(caps, states, labels, k, device)
  {
    hide Do, Behind, PutOutcome;
    RunsStayBehind(caps, states, labels, k, device, lag);
    if EnrolledBy(states[k], caps, labels[k], device).Some? && PastOf(caps, states, labels, k, device).count > 0 {
      EnrollRises(states[k], caps, labels[k], PastOf(caps, states, labels, k, device), lag);
      FallsExactlyWhenForgotten(caps, states, labels, k, device);
    }
  }

  // ---------- when generations fall ----------

  const TIGHT := Limits(1, 1, 1_000, 2)
  /** Two microseconds before the first second is over. */
  const START: int := 999_998_000

  const HASTE := DoEnroll(1, 7, 2, START, START)
  const HASTY_REVOKE := DoRevoke(1, Clocks(START, START, START))
  const LOOK := DoCheck(1, START + 1_000)
  const RETURN := DoEnroll(1, 7, 2, START + 1_000, START + 1_000)

  predicate EnrolledUnder(s: Sys, generation: int) { s.durable == Durable(map[1 := Device(7, 2, generation)], map[]) }
  predicate Gone(s: Sys) { s.durable == Durable(map[], map[]) }

  lemma FirstEnroll(s: Sys, t: int)
    requires Gone(s) && t >= 1_000
    ensures EnrolledUnder(Do(s, TIGHT, DoEnroll(1, 7, 2, t, t)), Micros(t)) && Do(s, TIGHT, DoEnroll(1, 7, 2, t, t)).clock == t
    ensures Fresh(1, 7, Micros(t), TIGHT.ttl, t) in Do(s, TIGHT, DoEnroll(1, 7, 2, t, t)).issued
  {
    assert s.durable.revoked - {1} == map[];
    assert Put(s.durable, TIGHT, 1, 7, 2, t, t) == Durable(map[1 := Device(7, 2, Micros(t))], map[]);
  }

  lemma EnrollAgain(s: Sys, generation: int)
    requires EnrolledUnder(s, generation) && generation >= 999_998
    ensures EnrolledUnder(Do(s, TIGHT, HASTE), generation + 1) && Do(s, TIGHT, HASTE).clock == START
    ensures EnrolledBy(s, TIGHT, HASTE, 1) == Some(generation + 1)
  {
    assert s.durable.revoked - {1} == map[];
    assert Put(s.durable, TIGHT, 1, 7, 2, START, START) == Durable(map[1 := Device(7, 2, generation + 1)], map[]);
  }

  lemma RevokeAndPrune(s: Sys, generation: int)
    requires EnrolledUnder(s, generation)
    ensures var s1 := Do(s, TIGHT, HASTY_REVOKE);
      s1.clock == START && Gone(Do(s1, TIGHT, LOOK)) && Do(s1, TIGHT, LOOK).clock == START + 1_000
  {
    var t := HASTY_REVOKE.t;
    assert UnexpiredTombstones(s.durable.revoked, t.prune) == map[];
    assert s.durable.enrolled - {1} == map[];
    var tombs := Revoke(s.durable, TIGHT, 1, t).revoked;
    assert tombs.Keys == {1} && tombs[1].expiresAt == START + 1_000;
    assert tombs - {1} == map[];
  }

  /** Generations can fall: three enrollments within one microsecond, a revocation, and a new
      enrollment once the tombstone of a one-microsecond credential lifetime is pruned take the
      device from generation 1000000 to 999999, and the credential of the new one is accepted. */
  lemma GenerationCanFall(s0: Sys) returns (states: seq<Sys>, labels: seq<Label>)
    requires s0 == Sys(Durable(map[], map[]), map[], {}, 0)
    ensures IsRun(TIGHT, states, labels) && Honest(labels, 0) && |labels| == 6
    ensures EnrolledBy(states[2], TIGHT, labels[2], 1) == Some(1_000_000)
    ensures EnrolledUnder(states[3], 1_000_000) && EnrolledUnder(states[6], 999_999)
    ensures var c := Fresh(1, 7, 999_999, TIGHT.ttl, START + 1_000);
      c in states[6].issued && states[6].clock == START + 1_000 && ClaimsCurrent(states[6].durable, TIGHT, c, START + 1_000, START + 1_000)
  {
    hide EnrolledBy, Do, Gone;
    assert Gone(s0) by {
      NothingYet(s0);
    }
    var s1 := Do(s0, TIGHT, HASTE);
    FirstEnroll(s0, START);
    var s2 := Do(s1, TIGHT, HASTE);
    EnrollAgain(s1, 999_998);
    var s3 := Do(s2, TIGHT, HASTE);
    EnrollAgain(s2, 999_999);
    var s4 := Do(s3, TIGHT, HASTY_REVOKE);
    RevokeAndPrune(s3, 1_000_000);
    var s5 := Do(s4, TIGHT, LOOK);
    FirstEnroll(s5, START + 1_000);
    states := [s0, s1, s2, s3, s4, s5, Do(s5, TIGHT, RETURN)];
    labels := [HASTE, HASTE, HASTE, HASTY_REVOKE, LOOK, RETURN];
  }

  lemma NothingYet(s: Sys)
    requires s.durable == Durable(map[], map[])
    ensures Gone(s)
  {
  }
}
