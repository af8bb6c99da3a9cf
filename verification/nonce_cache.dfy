/** Replay protection: the naive book of consumed nonces, and the indexed cache that answers
    exactly like it while pruning only a few devices per call. */
module ReplayNonces {
  import opened UnixTime

  type DeviceId = nat
  type Nonce = nat
  type Nonces = map<Nonce, int>
  type Book = map<DeviceId, Nonces>

  const MAX_NONCES_PER_DEVICE: nat := 128
  const MAX_PRUNES_PER_CONSUME: nat := 8

  /** Entries that have not expired; an entry is kept through the very instant of its expiry. */
  function Live(m: Nonces, now: int): Nonces {
    map n | n in m && m[n] >= now :: m[n]
  }

  function Of(book: Book, device: DeviceId): Nonces { if device in book then book[device] else map[] }

  function LiveOf(book: Book, device: DeviceId, now: int): Nonces { Live(Of(book, device), now) }

  /** The naive answer: reject a closed replay window, a live nonce, or a full device. */
  predicate Rejects(book: Book, now: int, device: DeviceId, nonce: Nonce, expiresAt: int) {
    expiresAt <= now || nonce in LiveOf(book, device, now) || |LiveOf(book, device, now)| >= MAX_NONCES_PER_DEVICE
  }

  /** The naive book never prunes anything. */
  function Record(book: Book, now: int, device: DeviceId, nonce: Nonce, expiresAt: int): Book {
    if Rejects(book, now, device, nonce, expiresAt) then book
    else book[device := Of(book, device)[nonce := expiresAt]]
  }

  /** Both hold the same unexpired nonces of every device. */
  ghost predicate Agree(a: Book, b: Book, now: int) {
    forall d: DeviceId :: LiveOf(a, d, now) == LiveOf(b, d, now)
  }

  lemma LiveLater(m: Nonces, now: int, later: int)
    requires now <= later
    ensures Live(Live(m, now), later) == Live(m, later)
  {
  }

  /** Agreement at one instant is agreement at every later one. */
  lemma AgreeLater(a: Book, b: Book, now: int, later: int)
    requires Agree(a, b, now) && now <= later
    ensures Agree(a, b, later)
  {
    forall d: DeviceId
      ensures LiveOf(a, d, later) == LiveOf(b, d, later)
    {
      assert LiveOf(a, d, now) == LiveOf(b, d, now);
      LiveLater(Of(a, d), now, later);
      LiveLater(Of(b, d), now, later);
    }
  }

  lemma AgreeRecord(a: Book, b: Book, now: int, device: DeviceId, nonce: Nonce, expiresAt: int)
    requires Agree(a, b, now)
    ensures Agree(a[device := Of(a, device)[nonce := expiresAt]], b[device := Of(b, device)[nonce := expiresAt]], now)
  {
    var a', b' := a[device := Of(a, device)[nonce := expiresAt]], b[device := Of(b, device)[nonce := expiresAt]];
    forall d: DeviceId
      ensures LiveOf(a', d, now) == LiveOf(b', d, now)
    {
      assert LiveOf(a, d, now) == LiveOf(b, d, now);
      LivePut(Of(a, device), nonce, expiresAt, now);
      LivePut(Of(b, device), nonce, expiresAt, now);
    }
  }

  lemma LivePut(m: Nonces, nonce: Nonce, expiresAt: int, now: int)
    ensures Live(m[nonce := expiresAt], now) == if expiresAt >= now then Live(m, now)[nonce := expiresAt] else Live(m, now) - {nonce}
  {
  }

  // ---------- runs ----------

  /** One call of ConsumeNonce; calls of a run carry non-decreasing times. */
  datatype Consume = Consume(now: int, device: DeviceId, nonce: Nonce, expiresAt: int)

  ghost predicate IsRun(books: seq<Book>, calls: seq<Consume>) {
    && |books| == |calls| + 1
    && (forall i | 0 <= i < |calls| ::
          books[i + 1] == Record(books[i], calls[i].now, calls[i].device, calls[i].nonce, calls[i].expiresAt))
    && (forall i, j | 0 <= i <= j < |calls| :: calls[i].now <= calls[j].now)
  }

  predicate Accepted(book: Book, c: Consume) { !Rejects(book, c.now, c.device, c.nonce, c.expiresAt) }

  /** A recorded nonce stays recorded, with its expiry, until it expires. */
  lemma {:induction false} RecordedUntilExpiry(books: seq<Book>, calls: seq<Consume>, i: nat, j: nat)
    requires IsRun(books, calls) && i < j < |calls| && Accepted(books[i], calls[i])
    requires calls[j].now <= calls[i].expiresAt
    ensures calls[i].nonce in Of(books[j], calls[i].device) && Of(books[j], calls[i].device)[calls[i].nonce] == calls[i].expiresAt
    decreases j
  {
    if j > i + 1 {
      RecordedUntilExpiry(books, calls, i, j - 1);
      assert calls[j - 1].now <= calls[j].now;
      assert calls[i].nonce in LiveOf(books[j - 1], calls[i].device, calls[j - 1].now);
    }
  }

  /** The same device, nonce and expiry is accepted at most once in any run. */
  lemma AcceptedAtMostOnce(books: seq<Book>, calls: seq<Consume>, i: nat, j: nat)
    requires IsRun(books, calls) && i < j < |calls|
    requires calls[j].device == calls[i].device && calls[j].nonce == calls[i].nonce && calls[j].expiresAt == calls[i].expiresAt
    requires Accepted(books[i], calls[i])
    ensures !Accepted(books[j], calls[j])
  {
    if calls[j].now < calls[j].expiresAt {
      RecordedUntilExpiry(books, calls, i, j);
      assert calls[j].nonce in LiveOf(books[j], calls[j].device, calls[j].now);
    }
  }

  // ---------- signed proofs ----------

  const FRESHNESS_S: int := 300
  const SLACK_S: int := 1

  predicate TimestampFresh(timestamp: int, now: int) {
    Seconds(now) - FRESHNESS_S <= timestamp <= Seconds(now) + FRESHNESS_S
  }

  function NonceExpiry(timestamp: int): int { (timestamp + FRESHNESS_S + SLACK_S) * SECOND }

  /** A proof that is still fresh has not outlived its nonce. */
  lemma NonceOutlivesFreshness(timestamp: int, now: int)
    requires TimestampFresh(timestamp, now)
    ensures now < NonceExpiry(timestamp)
  {
  }

  /** A fresh proof consumed at the instant it is checked is accepted exactly when its nonce is
      not live and the device has a free nonce. */
  lemma FreshProofAccepted(book: Book, now: int, device: DeviceId, nonce: Nonce, timestamp: int)
    requires TimestampFresh(timestamp, now)
    ensures Rejects(book, now, device, nonce, NonceExpiry(timestamp)) <==>
      nonce in LiveOf(book, device, now) || |LiveOf(book, device, now)| >= MAX_NONCES_PER_DEVICE
  {
    NonceOutlivesFreshness(timestamp, now);
  }

  /** Without the slack the oldest fresh timestamp would be refused, whatever the book holds, at
      every instant of its last second; every later timestamp is unaffected. */
  lemma SlackIsNeeded(timestamp: int, now: int)
    requires TimestampFresh(timestamp, now)
    ensures (timestamp + FRESHNESS_S) * SECOND <= now <==> timestamp == Seconds(now) - FRESHNESS_S
  {
    if timestamp > Seconds(now) - FRESHNESS_S {
      assert (Seconds(now) + 1) * SECOND > now;
    }
  }

  /** One authentication attempt with a signed proof: checked for freshness at one time, consumed
      at the same or a later one. */
  datatype Proof = Proof(device: DeviceId, timestamp: int, nonce: Nonce)

  ghost predicate ConsumesProof(c: Consume, p: Proof) {
    c.device == p.device && c.nonce == p.nonce && c.expiresAt == NonceExpiry(p.timestamp)
  }

  /** A signed proof is accepted at most once in any run. */
  lemma ProofAcceptedAtMostOnce(books: seq<Book>, calls: seq<Consume>, p: Proof, i: nat, j: nat)
    requires IsRun(books, calls) && i < |calls| && j < |calls|
    requires ConsumesProof(calls[i], p) && Accepted(books[i], calls[i])
    requires ConsumesProof(calls[j], p) && Accepted(books[j], calls[j])
    ensures i == j
  {
    if i < j {
      AcceptedAtMostOnce(books, calls, i, j);
    } else if j < i {
      AcceptedAtMostOnce(books, calls, j, i);
    }
  }
}

module NonceCaches {
  import opened Options
  import opened ReplayNonces
  import opened ExpiryIndexes

  /** `least` is the smallest expiry in the map. */
  ghost predicate Least(m: Nonces, least: int) {
    && (exists n :: n in m && m[n] == least)
    && (forall n | n in m :: least <= m[n])
  }

  /** The cache map with one device reduced to its live nonces. */
  function PrunedDevice(book: Book, device: DeviceId, now: int): Book {
    if LiveOf(book, device, now) == map[] then book - {device} else book[device := LiveOf(book, device, now)]
  }

  lemma PruneAgrees(book: Book, device: DeviceId, now: int, naive: Book)
    requires Agree(book, naive, now)
    ensures Agree(PrunedDevice(book, device, now), naive, now)
  {
    var pruned := PrunedDevice(book, device, now);
    forall d: DeviceId
      ensures LiveOf(pruned, d, now) == LiveOf(naive, d, now)
    {
      assert LiveOf(book, d, now) == LiveOf(naive, d, now);
      LiveLater(Of(book, d), now, now);
    }
  }

  /** One heap entry per device with nonces, keyed by the earliest expiry of its map. */
  ghost predicate Indexed(nonces: Book, expiries: map<DeviceId, int>) {
    && expiries.Keys == nonces.Keys
    && forall d | d in nonces :: Least(nonces[d], expiries[d])
  }

  lemma NothingExpired(nonces: Book, expiries: map<DeviceId, int>, device: DeviceId, now: int)
    requires Indexed(nonces, expiries) && (device in expiries ==> now <= expiries[device])
    ensures PrunedDevice(nonces, device, now) == nonces
  {
    if device in nonces {
      assert Least(nonces[device], expiries[device]);
      assert LiveOf(nonces, device, now) == nonces[device];
      var n :| n in nonces[device];
      assert n in LiveOf(nonces, device, now);
    } else {
      assert LiveOf(nonces, device, now) == map[];
      assert nonces - {device} == nonces;
    }
  }

  class NonceCache {
    var nonces: Book
    const expiries: ExpiryIndex<DeviceId>
    /** The naive book this cache stands for, and the time of the latest call. */
    ghost var book: Book
    ghost var clock: int

    ghost predicate Valid()
      reads this, expiries
    {
      && expiries.Valid()
      && Indexed(nonces, expiries.expiries)
      && Agree(nonces, book, clock)
    }

    constructor ()
      ensures Valid() && fresh(expiries) && book == map[]
    {
      expiries := new ExpiryIndex(d => d as int);
      nonces, book, clock := map[], map[], 0;
    }

    /** Keeps the live entries of one device map and finds their earliest expiry. */
    method SplitExpired(m: Nonces, now: int) returns (live: Nonces, next: Option<int>)
      ensures live == Live(m, now)
      ensures if live == map[] then next == None else next.Some? && Least(live, next.value)
    {
      live, next := m, None;
      var rest := m.Keys;
      while rest != {}
        invariant rest <= m.Keys
        invariant live == map n | n in m && (n in rest || m[n] >= now) :: m[n]
        invariant next.None? <==> forall n | n in live :: n in rest
        invariant next.Some? ==> exists n :: n in live && n !in rest && live[n] == next.value
        invariant next.Some? ==> forall n | n in live && n !in rest :: next.value <= live[n]
        decreases rest
      {
        var n :| n in rest;
        rest := rest - {n};
        if m[n] < now {
          live := live - {n};
        } else if next.None? || m[n] < next.value {
          next := Some(m[n]);
          assert n in live && n !in rest && live[n] == next.value;
        }
      }
    }

    /** Drops one device's expired nonces and re-indexes what is left. */
    method PruneDevice(device: DeviceId, now: int) returns (pruned: bool)
      requires Valid() && clock == now
      modifies this`nonces, expiries
      ensures Valid() && nonces == PrunedDevice(old(nonces), device, now)
      ensures pruned == (device in old(expiries.expiries) && old(expiries.expiries)[device] < now)
    {
      var expired := Expired(device, now);
      if !expired {
        NothingExpired(nonces, expiries.expiries, device, now);
        return false;
      }
      PruneAgrees(nonces, device, now, book);
      var removed := expiries.Remove(device);
      var live, next := SplitExpired(nonces[device], now);
      if live == map[] {
        nonces := nonces - {device};
      } else {
        nonces := nonces[device := live];
        var added := expiries.Add(device, next.value);
      }
      pruned := true;
    }

    method Expired(device: DeviceId, now: int) returns (expired: bool)
      requires expiries.Valid()
      ensures expired == (device in expiries.expiries && expiries.expiries[device] < now)
    {
      expired := device in expiries.index && expiries.heap[expiries.index[device]].expiresAt < now;
    }

    /** Prunes at most `budget` devices, always the one with the earliest expiry next. */
    method PruneExpired(now: int, budget: nat) returns (pruned: nat)
      requires Valid() && clock == now
      modifies this`nonces, expiries
      ensures Valid() && pruned <= budget
      ensures pruned < budget ==> forall d | d in expiries.expiries :: now <= expiries.expiries[d]
    {
      pruned := 0;
      while pruned < budget
        invariant Valid() && clock == now && pruned <= budget
      {
        var front := expiries.OldestExpired(now - 1);
        if front.None? {
          break;
        }
        var done := PruneDevice(front.value, now);
        if !done {
          break;
        }
        pruned := pruned + 1;
      }
    }

    method Track(device: DeviceId, nonce: Nonce, expiresAt: int)
      requires expiries.Valid() && nonce !in Of(nonces, device)
      requires Indexed(nonces, expiries.expiries)
      modifies this`nonces, expiries
      ensures expiries.Valid() && Indexed(nonces, expiries.expiries)
      ensures nonces == old(nonces)[device := Of(old(nonces), device)[nonce := expiresAt]]
    {
      if device !in nonces {
        nonces := nonces[device := map[nonce := expiresAt]];
        var added := expiries.Add(device, expiresAt);
        assert nonces[device][nonce] == expiresAt;
        return;
      }
      LeastPut(nonces[device], expiries.expiries[device], nonce, expiresAt);
      var grown: Nonces := nonces[device][nonce := expiresAt];
      nonces := nonces[device := grown];
      if expiresAt < expiries.heap[expiries.index[device]].expiresAt {
        expiries.Rekey(device, expiresAt);
      }
    }

    /** Answers like the naive book for every sequence of calls with non-decreasing times. */
    method ConsumeNonce(now: int, device: DeviceId, nonce: Nonce, expiresAt: int) returns (replayed: bool)
      requires Valid() && clock <= now
      modifies this, expiries
      ensures Valid() && clock == now
      ensures replayed == Rejects(old(book), now, device, nonce, expiresAt)
      ensures book == Record(old(book), now, device, nonce, expiresAt)
    {
      hide Indexed, Agree, BackPointers, HeapOrdered, Contents, PrunedDevice, Live;
      AgreeLater(nonces, book, clock, now);
      clock := now;
      var pruned := PruneExpired(now, MAX_PRUNES_PER_CONSUME);
      ghost var before := nonces;
      var own := PruneDevice(device, now);
      OwnIsLive(before, nonces, device, now, book);
      if expiresAt <= now {
        return true;
      }
      if device in nonces && nonce in nonces[device] {
        return true;
      }
      if device in nonces && |nonces[device]| >= MAX_NONCES_PER_DEVICE {
        return true;
      }
      AgreeRecord(nonces, book, now, device, nonce, expiresAt);
      Track(device, nonce, expiresAt);
      book := book[device := Of(book, device)[nonce := expiresAt]];
      replayed := false;
    }
  }

  lemma OwnIsLive(before: Book, nonces: Book, device: DeviceId, now: int, naive: Book)
    requires nonces == PrunedDevice(before, device, now) && Agree(nonces, naive, now)
    ensures Of(nonces, device) == LiveOf(naive, device, now)
  {
    LiveLater(Of(before, device), now, now);
    assert LiveOf(nonces, device, now) == LiveOf(naive, device, now);
  }

  lemma LeastPut(m: Nonces, least: int, nonce: Nonce, expiresAt: int)
    requires Least(m, least) && nonce !in m
    ensures Least(m[nonce := expiresAt], if expiresAt < least then expiresAt else least)
  {
    var m' := m[nonce := expiresAt];
    var n :| n in m && m[n] == least;
    assert m'[n] == least && m'[nonce] == expiresAt;
  }
}
