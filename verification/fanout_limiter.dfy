/** The device-scoped token bucket in front of discovery publication. Tokens are reals: one per
    five seconds, at most four. */
module FanoutLimiters {
  import opened FiniteSets

  type DeviceId = nat

  const BURST: real := 4.0
  const REFILL: int := 5_000_000_000
  const RETENTION: int := 600_000_000_000

  datatype Budget = Budget(tokens: real, updatedAt: int, lastUsed: int)
  type Budgets = map<DeviceId, Budget>

  function Refilled(span: int): real { span as real / REFILL as real }

  function Capped(tokens: real): real { if tokens > BURST then BURST else tokens }

  /** The tokens a device has at a time; an unknown device has a full bucket. */
  function Credit(b: Budgets, device: DeviceId, now: int): real {
    if device in b then Capped(b[device].tokens + Refilled(now - b[device].updatedAt)) else BURST
  }

  function WithoutIdle(b: Budgets, now: int): Budgets {
    map d | d in b && now - b[d].lastUsed < RETENTION :: b[d]
  }

  /** What is left when `device` asks: idle budgets go only when a new one is needed. */
  function Kept(b: Budgets, device: DeviceId, now: int): Budgets {
    if device in b || device == 0 then b else WithoutIdle(b, now)
  }

  predicate Admitted(b: Budgets, max: nat, device: DeviceId, now: int) {
    device != 0 && (device in b || |WithoutIdle(b, now)| < max)
  }

  predicate Allows(b: Budgets, max: nat, device: DeviceId, now: int) {
    Admitted(b, max, device, now) && Credit(b, device, now) >= 1.0
  }

  function After(b: Budgets, max: nat, device: DeviceId, now: int): Budgets {
    if !Admitted(b, max, device, now) then Kept(b, device, now)
    else
      var credit := Credit(b, device, now);
      Kept(b, device, now)[device := Budget(if credit >= 1.0 then credit - 1.0 else credit, now, now)]
  }

  // ---------- what every call keeps ----------

  /** Budgets hold between nothing and a full bucket, were settled at their last use, and are no
      more than the table may hold. */
  ghost predicate Sound(b: Budgets, max: nat, clock: int) {
    && |b| <= max
    && forall d | d in b :: 0.0 <= b[d].tokens <= BURST && b[d].updatedAt == b[d].lastUsed <= clock
  }

  lemma RefilledSum(a: int, b: int)
    ensures Refilled(a + b) == Refilled(a) + Refilled(b)
  {
  }

  lemma RefilledGrows(a: int, b: int)
    requires a <= b
    ensures Refilled(a) <= Refilled(b)
  {
  }

  lemma CallKeepsSound(b: Budgets, max: nat, device: DeviceId, clock: int, now: int)
    requires Sound(b, max, clock) && clock <= now
    ensures Sound(After(b, max, device, now), max, now)
  {
    var kept := Kept(b, device, now);
    SubsetSize(kept.Keys, b.Keys);
    assert |kept| <= max;
    if device in b {
      RefilledGrows(0, now - b[device].updatedAt);
    }
    if Admitted(b, max, device, now) {
      assert kept[device := Budget(0.0, now, now)].Keys == kept.Keys + {device};
      assert After(b, max, device, now).Keys == kept.Keys + {device};
    }
  }

  /** Dropping a budget that was idle for the retention changes no token decision, at no later
      time: its bucket was full again. */
  lemma DroppingIdleIsHarmless(b: Budgets, max: nat, clock: int, device: DeviceId, now: int, later: int)
    requires Sound(b, max, clock) && clock <= now <= later
    ensures Credit(WithoutIdle(b, now), device, later) == Credit(b, device, later)
  {
    if device in b && now - b[device].lastUsed >= RETENTION {
      RefilledGrows(RETENTION, later - b[device].updatedAt);
      assert Refilled(RETENTION) == 120.0;
    }
  }

  // ---------- what is granted ----------

  /** A known device is allowed again one refill after its last call, whatever it did before. */
  lemma OneRefillSuffices(b: Budgets, max: nat, clock: int, device: DeviceId, now: int)
    requires Sound(b, max, clock) && clock <= now && device in b && device != 0
    requires now - b[device].lastUsed >= REFILL
    ensures Allows(b, max, device, now)
  {
    RefilledGrows(REFILL, now - b[device].updatedAt);
    assert Refilled(REFILL) == 1.0;
  }

  /** A device the table has room for gets four publishes at one instant and not a fifth. */
  lemma BurstIsFour(b: Budgets, max: nat, device: DeviceId, now: int)
    requires device !in b && Admitted(b, max, device, now)
    ensures var b1 := After(b, max, device, now); var b2 := After(b1, max, device, now);
      var b3 := After(b2, max, device, now); var b4 := After(b3, max, device, now);
      && Allows(b, max, device, now) && Allows(b1, max, device, now) && Allows(b2, max, device, now)
      && Allows(b3, max, device, now) && !Allows(b4, max, device, now)
  {
    assert Refilled(0) == 0.0;
    var b1 := After(b, max, device, now);
    assert b1[device] == Budget(3.0, now, now);
    var b2 := After(b1, max, device, now);
    assert b2[device] == Budget(2.0, now, now);
    var b3 := After(b2, max, device, now);
    assert b3[device] == Budget(1.0, now, now);
    assert After(b3, max, device, now)[device] == Budget(0.0, now, now);
  }

  // ---------- the rate ----------

  /** A publish attempt, or the forgetting of a device whose enrollment is gone. */
  datatype Call = Call(device: DeviceId, now: int, forget: bool)

  function Forgotten(b: Budgets, device: DeviceId): Budgets { if device == 0 then b else b - {device} }

  function Next(b: Budgets, max: nat, c: Call): Budgets {
    if c.forget then Forgotten(b, c.device) else After(b, max, c.device, c.now)
  }

  predicate Grants(b: Budgets, max: nat, c: Call, device: DeviceId) {
    !c.forget && c.device == device && Allows(b, max, device, c.now)
  }

  ghost predicate IsRun(max: nat, states: seq<Budgets>, calls: seq<Call>) {
    && |states| == |calls| + 1 && states[0] == map[]
    && (forall i | 0 <= i < |calls| :: states[i + 1] == Next(states[i], max, calls[i]))
    && (forall i, j | 0 <= i <= j < |calls| :: calls[i].now <= calls[j].now)
  }

  function Granted(max: nat, states: seq<Budgets>, calls: seq<Call>, device: DeviceId, i: nat, j: nat): nat
    requires i <= j <= |calls| <= |states|
  {
    if i == j then 0
    else Granted(max, states, calls, device, i, j - 1) + if Grants(states[j - 1], max, calls[j - 1], device) then 1 else 0
  }

  lemma NextKeepsSound(b: Budgets, max: nat, clock: int, c: Call)
    requires Sound(b, max, clock) && clock <= c.now
    ensures Sound(Next(b, max, c), max, c.now)
  {
    if c.forget {
      SubsetSize(Forgotten(b, c.device).Keys, b.Keys);
    } else {
      CallKeepsSound(b, max, c.device, clock, c.now);
    }
  }

  lemma {:induction false} RunsAreSound(max: nat, states: seq<Budgets>, calls: seq<Call>, n: nat, clock: int)
    requires IsRun(max, states, calls) && n <= |calls|
    requires if n == 0 then true else calls[n - 1].now <= clock
    ensures Sound(states[n], max, clock)
  {
    if n > 0 {
      assert n > 1 ==> calls[n - 2].now <= calls[n - 1].now;
      RunsAreSound(max, states, calls, n - 1, calls[n - 1].now);
      NextKeepsSound(states[n - 1], max, calls[n - 1].now, calls[n - 1]);
    }
  }

  /** A call leaves other devices' credit as it was and takes one token for a grant. */
  lemma CallCredit(b: Budgets, max: nat, clock: int, c: Call, device: DeviceId)
    requires Sound(b, max, clock) && clock <= c.now && !(c.forget && c.device == device)
    ensures Credit(Next(b, max, c), device, c.now) == Credit(b, device, c.now) - if Grants(b, max, c, device) then 1.0 else 0.0
  {
    DroppingIdleIsHarmless(b, max, clock, device, c.now, c.now);
    assert Refilled(0) == 0.0;
    if device in b {
      RefilledGrows(0, c.now - b[device].updatedAt);
    }
  }

  lemma CreditGrowth(b: Budgets, device: DeviceId, now: int, later: int)
    requires now <= later
    ensures Credit(b, device, later) <= Credit(b, device, now) + Refilled(later - now)
  {
    RefilledGrows(0, later - now);
    assert Refilled(0) == 0.0;
    if device in b {
      RefilledSum(now - b[device].updatedAt, later - now);
    }
  }

  lemma CreditBounds(b: Budgets, max: nat, clock: int, device: DeviceId, now: int)
    requires Sound(b, max, clock) && clock <= now
    ensures 0.0 <= Credit(b, device, now) <= BURST
  {
    if device in b {
      RefilledGrows(0, now - b[device].updatedAt);
      assert Refilled(0) == 0.0;
    }
  }

  ghost predicate NotForgotten(calls: seq<Call>, device: DeviceId, i: nat, j: nat)
    requires i <= j <= |calls|
  {
    forall k | i <= k < j :: !(calls[k].forget && calls[k].device == device)
  }

  /** Grants between two calls are paid for by the credit at the first one and the refill since. */
  lemma {:induction false} GrantsArePaid(max: nat, states: seq<Budgets>, calls: seq<Call>, device: DeviceId, i: nat, j: nat)
    requires IsRun(max, states, calls) && i < j <= |calls| && NotForgotten(calls, device, i, j)
    ensures Granted(max, states, calls, device, i, j) as real
         <= Credit(states[i], device, calls[i].now) + Refilled(calls[j - 1].now - calls[i].now)
            - Credit(states[j], device, calls[j - 1].now)
    decreases j
  {
    hide Grants, Credit, Sound, Next, Refilled;
    var last := calls[j - 1];
    assert j - 1 > 0 ==> calls[j - 2].now <= last.now;
    RunsAreSound(max, states, calls, j - 1, last.now);
    CallCredit(states[j - 1], max, last.now, last, device);
    if j - 1 == i {
      assert Granted(max, states, calls, device, i, i) == 0;
      RefilledSum(0, 0);
    } else {
      GrantsArePaid(max, states, calls, device, i, j - 1);
      CreditGrowth(states[j - 1], device, calls[j - 2].now, last.now);
      RefilledSum(calls[j - 2].now - calls[i].now, last.now - calls[j - 2].now);
    }
  }

  /** In any stretch of calls of any run, across reconnects and prunes, a device that is not
      forgotten is allowed at most four publishes plus one per five seconds of the stretch; the
      table never exceeds its cap. */
  lemma RateIsBounded(max: nat, states: seq<Budgets>, calls: seq<Call>, device: DeviceId, i: nat, j: nat)
    requires IsRun(max, states, calls) && i < j <= |calls| && NotForgotten(calls, device, i, j)
    ensures Granted(max, states, calls, device, i, j) as real <= BURST + Refilled(calls[j - 1].now - calls[i].now)
    ensures |states[j]| <= max
  {
    hide Next, Refilled;
    RunsAreSound(max, states, calls, i, calls[i].now) by {
      assert i > 0 ==> calls[i - 1].now <= calls[i].now;
    }
    RunsAreSound(max, states, calls, j, calls[j - 1].now);
    CreditBounds(states[i], max, calls[i].now, device, calls[i].now);
    CreditBounds(states[j], max, calls[j - 1].now, device, calls[j - 1].now);
    GrantsArePaid(max, states, calls, device, i, j);
  }

  // ---------- the table updated in place ----------

  class FanoutLimiter {
    var budgets: Budgets
    const maxDevices: nat

    constructor (max: nat)
      ensures budgets == map[] && maxDevices == max
    {
      budgets, maxDevices := map[], max;
    }

    method Prune(now: int)
      modifies this`budgets
      ensures budgets == WithoutIdle(old(budgets), now)
    {
      var rest := budgets.Keys;
      while rest != {}
        invariant rest <= old(budgets).Keys
        invariant budgets == map d | d in old(budgets) && (d in rest || now - old(budgets)[d].lastUsed < RETENTION) :: old(budgets)[d]
        decreases rest
      {
        var d :| d in rest;
        if now - budgets[d].lastUsed >= RETENTION {
          budgets := budgets - {d};
        }
        rest := rest - {d};
      }
    }

    method Allow(device: DeviceId, now: int, ghost clock: int) returns (allowed: bool)
      requires Sound(budgets, maxDevices, clock) && clock <= now
      modifies this`budgets
      ensures allowed == Allows(old(budgets), maxDevices, device, now)
      ensures budgets == After(old(budgets), maxDevices, device, now)
      ensures Sound(budgets, maxDevices, now)
    {
      CallKeepsSound(budgets, maxDevices, device, clock, now);
      if device == 0 {
        return false;
      }
      var budget: Budget;
      if device in budgets {
        budget := budgets[device];
      } else {
        Prune(now);
        if |budgets| >= maxDevices {
          return false;
        }
        budget := Budget(BURST, now, now);
      }
      var elapsed := now - budget.updatedAt;
      if elapsed > 0 {
        budget := budget.(tokens := Capped(budget.tokens + elapsed as real / REFILL as real), updatedAt := now);
      }
      budget := budget.(lastUsed := now);
      if budget.tokens < 1.0 {
        budgets := budgets[device := budget];
        return false;
      }
      budgets := budgets[device := budget.(tokens := budget.tokens - 1.0)];
      allowed := true;
    }

    method Forget(device: DeviceId)
      modifies this`budgets
      ensures budgets == Forgotten(old(budgets), device)
    {
      if device == 0 {
        return;
      }
      budgets := budgets - {device};
    }
  }
}
