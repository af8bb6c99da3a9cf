/** Bounded one-shot correlation state of the control plane. The attempt routes and the
    reservation gates have the same shape: a main map, a reverse index by connection, an exact
    expiry heap, a global cap and a cap per connection. */
module CorrelationRegistries {
  import opened Options
  import opened ExpiryIndexes
  import opened FiniteSets

  type DeviceId = nat
  /** Connection ids are opaque; 0 is the empty id. */
  type ConnId = nat

  datatype Correlation = Correlation(
    initiator: DeviceId, initiatorConn: ConnId,
    target: DeviceId, targetConn: ConnId, expiresAt: int)

  predicate Live(c: Correlation, now: int) { now < c.expiresAt }

  /** Both devices and both connections are named. */
  predicate Addressed(c: Correlation) {
    c.initiator != 0 && c.initiatorConn != 0 && c.target != 0 && c.targetConn != 0
  }

  predicate Names(c: Correlation, conn: ConnId) {
    conn != 0 && (c.initiatorConn == conn || c.targetConn == conn)
  }

  function Bucket<K(!new)>(m: map<K, Correlation>, conn: ConnId): set<K> {
    set k | k in m && Names(m[k], conn)
  }

  ghost predicate AllLive<K(!new)>(m: map<K, Correlation>, ks: set<K>, now: int) {
    forall k | k in ks && k in m :: Live(m[k], now)
  }

  /** `m'` is `m` after dropping some entries, every one of them already expired. */
  ghost predicate OnlyExpiredDropped<K(!new)>(m: map<K, Correlation>, m': map<K, Correlation>, now: int) {
    && m'.Keys <= m.Keys
    && (forall k | k in m' :: m'[k] == m[k])
    && (forall k | k in m && k !in m' :: !Live(m[k], now))
  }

  /** `m'` holds the new entry beside entries of `m`; whatever else is missing had expired. */
  ghost predicate Added<K(!new)>(m: map<K, Correlation>, m': map<K, Correlation>, key: K, c: Correlation, now: int) {
    && key in m' && m'[key] == c
    && (key in m ==> !Live(m[key], now))
    && OnlyExpiredDropped(m - {key}, m' - {key}, now)
  }

  /** Taking a just-added entry back leaves only expired entries missing. */
  lemma RolledBack<K(!new)>(m: map<K, Correlation>, m': map<K, Correlation>, key: K, c: Correlation, now: int)
    requires Added(m, m', key, c, now)
    ensures OnlyExpiredDropped(m, m' - {key}, now)
  {
    assert forall k | k in m' - {key} :: k in m - {key} && (m' - {key})[k] == (m - {key})[k];
    assert forall k | k in m && k != key && k !in m' - {key} :: k in m - {key};
  }

  /** A new key beside what is left after expired entries are gone. */
  lemma Inserted<K(!new)>(m: map<K, Correlation>, m': map<K, Correlation>, key: K, c: Correlation, now: int)
    requires OnlyExpiredDropped(m, m', now) && key !in m
    ensures key !in m' && Added(m, m'[key := c], key, c, now)
  {
    assert m'[key := c] - {key} == m' && m - {key} == m;
  }

  lemma NothingDropped<K(!new)>(m: map<K, Correlation>, now: int)
    ensures OnlyExpiredDropped(m, m, now)
  {
  }

  /** Clearing an expired leftover first changes nothing about the outcome of an addition. */
  lemma AfterClearing<K(!new)>(m: map<K, Correlation>, m': map<K, Correlation>, key: K, c: Correlation, now: int)
    requires key in m ==> !Live(m[key], now)
    ensures OnlyExpiredDropped(m, m - {key}, now)
    ensures Added(m - {key}, m', key, c, now) ==> Added(m, m', key, c, now)
    ensures OnlyExpiredDropped(m - {key}, m', now) ==> OnlyExpiredDropped(m, m', now)
  {
    assert m - {key} - {key} == m - {key};
    assert forall k | k in m - {key} :: k in m && (m - {key})[k] == m[k];
  }

  /** A connection can take one more entry: it has a free slot or holds an expired entry. */
  ghost predicate ConnectionHasRoom<K(!new)>(m: map<K, Correlation>, conn: ConnId, now: int, maxPerConn: nat) {
    conn == 0 || |Bucket(m, conn)| < maxPerConn || !AllLive(m, Bucket(m, conn), now)
  }

  /** The exact admission condition of a new entry, in terms of the state before the call. */
  ghost predicate HasRoom<K(!new)>(m: map<K, Correlation>, c: Correlation, now: int, maxTotal: nat, maxPerConn: nat) {
    && (|m| < maxTotal || !AllLive(m, m.Keys, now))
    && ConnectionHasRoom(m, c.initiatorConn, now, maxPerConn)
    && ConnectionHasRoom(m, c.targetConn, now, maxPerConn)
  }

  function ExpiryOf<K(!new)>(m: map<K, Correlation>): map<K, int> {
    map k | k in m :: m[k].expiresAt
  }

  function At<K>(byConn: map<ConnId, set<K>>, conn: ConnId): set<K> {
    if conn in byConn then byConn[conn] else {}
  }

  /** The reverse index lists exactly the entries naming each connection, with no empty bucket. */
  ghost predicate ReverseIndexExact<K(!new)>(m: map<K, Correlation>, byConn: map<ConnId, set<K>>) {
    && (forall c: ConnId :: At(byConn, c) == Bucket(m, c))
    && (forall c | c in byConn :: byConn[c] != {})
  }

  function Unlinked<K>(byConn: map<ConnId, set<K>>, conn: ConnId, key: K): (r: map<ConnId, set<K>>)
    ensures forall c: ConnId :: At(r, c) == if c == conn then At(byConn, c) - {key} else At(byConn, c)
    ensures (forall c | c in byConn :: byConn[c] != {}) ==> forall c | c in r :: r[c] != {}
  {
    var refs := At(byConn, conn) - {key};
    if refs == {} then byConn - {conn} else byConn[conn := refs]
  }

  function Linked<K>(byConn: map<ConnId, set<K>>, conn: ConnId, key: K): (r: map<ConnId, set<K>>)
    ensures forall c: ConnId :: At(r, c) == if c == conn && conn != 0 then At(byConn, c) + {key} else At(byConn, c)
    ensures (forall c | c in byConn :: byConn[c] != {}) ==> forall c | c in r :: r[c] != {}
  {
    if conn == 0 then byConn else byConn[conn := At(byConn, conn) + {key}]
  }

  ghost predicate WithinCaps<K(!new)>(m: map<K, Correlation>, maxTotal: nat, maxPerConn: nat) {
    && |m| <= maxTotal
    && (forall c: ConnId :: |Bucket(m, c)| <= maxPerConn)
  }

  lemma BucketAfterAdd<K(!new)>(m: map<K, Correlation>, key: K, e: Correlation, conn: ConnId)
    requires key !in m
    ensures Bucket(m[key := e], conn) == Bucket(m, conn) + if Names(e, conn) then {key} else {}
  {
    var m' := m[key := e];
    assert forall k :: k in m' <==> k in m || k == key;
    assert forall k | k in m :: m'[k] == m[k];
  }

  lemma UnlinkedExact<K(!new)>(m: map<K, Correlation>, byConn: map<ConnId, set<K>>, key: K)
    requires key in m && ReverseIndexExact(m, byConn)
    ensures ReverseIndexExact(m - {key}, Unlinked(Unlinked(byConn, m[key].initiatorConn, key), m[key].targetConn, key))
  {
    var r := Unlinked(Unlinked(byConn, m[key].initiatorConn, key), m[key].targetConn, key);
    forall c: ConnId
      ensures At(r, c) == Bucket(m - {key}, c)
    {
      assert Bucket(m - {key}, c) == Bucket(m, c) - {key};
    }
  }

  lemma LinkedExact<K(!new)>(m: map<K, Correlation>, byConn: map<ConnId, set<K>>, key: K, e: Correlation)
    requires key !in m && ReverseIndexExact(m, byConn)
    ensures ReverseIndexExact(m[key := e], Linked(Linked(byConn, e.initiatorConn, key), e.targetConn, key))
  {
    var r1 := Linked(byConn, e.initiatorConn, key);
    var r := Linked(r1, e.targetConn, key);
    var m' := m[key := e];
    forall c: ConnId
      ensures At(r, c) == Bucket(m', c)
    {
      BucketAfterAdd(m, key, e, c);
      assert At(byConn, c) == Bucket(m, c);
      assert At(r1, c) == if c == e.initiatorConn && c != 0 then At(byConn, c) + {key} else At(byConn, c);
    }
  }

  lemma AddKeepsCaps<K(!new)>(m: map<K, Correlation>, key: K, e: Correlation, maxTotal: nat, maxPerConn: nat)
    requires key !in m && WithinCaps(m, maxTotal, maxPerConn)
    requires |m| < maxTotal
    requires forall conn | Names(e, conn) :: |Bucket(m, conn)| < maxPerConn
    ensures WithinCaps(m[key := e], maxTotal, maxPerConn)
  {
    var m' := m[key := e];
    forall c: ConnId
      ensures |Bucket(m', c)| <= maxPerConn
    {
      BucketAfterAdd(m, key, e, c);
    }
    assert m'.Keys == m.Keys + {key};
  }

  lemma SubmapKeepsCaps<K(!new)>(m: map<K, Correlation>, m': map<K, Correlation>, maxTotal: nat, maxPerConn: nat)
    requires WithinCaps(m, maxTotal, maxPerConn)
    requires m'.Keys <= m.Keys && forall k | k in m' :: m'[k] == m[k]
    ensures WithinCaps(m', maxTotal, maxPerConn)
  {
    SubsetSize(m'.Keys, m.Keys);
    forall c: ConnId
      ensures |Bucket(m', c)| <= maxPerConn
    {
      SubsetSize(Bucket(m', c), Bucket(m, c));
    }
  }

  /** Main map, reverse index and expiry map describe the same entries, within the caps. */
  ghost predicate Consistent<K(!new)>(m: map<K, Correlation>, byConn: map<ConnId, set<K>>, exp: map<K, int>,
                                      maxTotal: nat, maxPerConn: nat) {
    ReverseIndexExact(m, byConn) && exp == ExpiryOf(m) && WithinCaps(m, maxTotal, maxPerConn)
  }

  function Unlink<K>(byConn: map<ConnId, set<K>>, e: Correlation, key: K): map<ConnId, set<K>> {
    Unlinked(Unlinked(byConn, e.initiatorConn, key), e.targetConn, key)
  }

  function Link<K>(byConn: map<ConnId, set<K>>, e: Correlation, key: K): map<ConnId, set<K>> {
    Linked(Linked(byConn, e.initiatorConn, key), e.targetConn, key)
  }

  lemma ExpiryOfRemove<K(!new)>(m: map<K, Correlation>, key: K)
    ensures ExpiryOf(m - {key}) == ExpiryOf(m) - {key}
  {
  }

  lemma ExpiryOfAdd<K(!new)>(m: map<K, Correlation>, key: K, e: Correlation)
    ensures ExpiryOf(m[key := e]) == ExpiryOf(m)[key := e.expiresAt]
  {
  }

  lemma RemoveConsistent<K(!new)>(m: map<K, Correlation>, byConn: map<ConnId, set<K>>, exp: map<K, int>,
                                  maxTotal: nat, maxPerConn: nat, key: K)
    requires Consistent(m, byConn, exp, maxTotal, maxPerConn)
    ensures key in m ==> Consistent(m - {key}, Unlink(byConn, m[key], key), exp - {key}, maxTotal, maxPerConn)
    ensures key !in m ==> m - {key} == m && exp - {key} == exp
  {
    if key in m {
      UnlinkedExact(m, byConn, key);
      SubmapKeepsCaps(m, m - {key}, maxTotal, maxPerConn);
      ExpiryOfRemove(m, key);
    }
  }

  lemma AddConsistent<K(!new)>(m: map<K, Correlation>, byConn: map<ConnId, set<K>>, exp: map<K, int>,
                               maxTotal: nat, maxPerConn: nat, key: K, e: Correlation)
    requires Consistent(m, byConn, exp, maxTotal, maxPerConn) && key !in m
    requires |m| < maxTotal
    requires forall conn | Names(e, conn) :: |Bucket(m, conn)| < maxPerConn
    ensures Consistent(m[key := e], Link(byConn, e, key), exp[key := e.expiresAt], maxTotal, maxPerConn)
  {
    LinkedExact(m, byConn, key, e);
    AddKeepsCaps(m, key, e, maxTotal, maxPerConn);
    ExpiryOfAdd(m, key, e);
  }

  /** Whether a connection has room does not depend on which expired entries are gone already. */
  lemma RoomIgnoresDrops<K(!new)>(m: map<K, Correlation>, m': map<K, Correlation>, now: int, conn: ConnId, maxPerConn: nat)
    requires OnlyExpiredDropped(m, m', now) && |Bucket(m, conn)| <= maxPerConn
    ensures ConnectionHasRoom(m', conn, now, maxPerConn) <==> ConnectionHasRoom(m, conn, now, maxPerConn)
    ensures |m'| <= |m|
    ensures |Bucket(m', conn)| <= |Bucket(m, conn)|
  {
    SubsetSize(m'.Keys, m.Keys);
    SubsetSize(Bucket(m', conn), Bucket(m, conn));
    if !AllLive(m, Bucket(m, conn), now) && Bucket(m', conn) == Bucket(m, conn) {
      assert !AllLive(m', Bucket(m', conn), now);
    }
    if AllLive(m, Bucket(m, conn), now) {
      assert Bucket(m', conn) == Bucket(m, conn);
    }
  }

  lemma RemoveOneMore<K, V>(m: map<K, V>, all: set<K>, rest: set<K>, key: K)
    requires key in rest && rest <= all
    ensures m - (all - rest) - {key} == m - (all - (rest - {key}))
  {
    assert all - (rest - {key}) == (all - rest) + {key};
  }

  class CorrelationRegistry<K(!new, ==)> {
    var entries: map<K, Correlation>
    var byConnection: map<ConnId, set<K>>
    const expiries: ExpiryIndex<K>
    const maxTotal: nat
    const maxPerConn: nat

    ghost predicate Valid()
      reads this, expiries
    {
      expiries.Valid() && Consistent(entries, byConnection, expiries.expiries, maxTotal, maxPerConn)
    }

    constructor (maxTotal: nat, maxPerConn: nat)
      ensures Valid() && fresh(expiries) && entries == map[]
      ensures this.maxTotal == maxTotal && this.maxPerConn == maxPerConn
    {
      entries, byConnection := map[], map[];
      this.maxTotal, this.maxPerConn := maxTotal, maxPerConn;
      expiries := new ExpiryIndex<K>(_ => 0);
    }

    method Remove(key: K)
      requires Valid()
      modifies this, expiries
      ensures Valid()
      ensures entries == old(entries) - {key}
    {
      hide Consistent, BackPointers, HeapOrdered, Contents, Unlink;
      RemoveConsistent(entries, byConnection, expiries.expiries, maxTotal, maxPerConn, key);
      if key in entries {
        byConnection := Unlink(byConnection, entries[key], key);
        entries := entries - {key};
      }
      var _ := expiries.Remove(key);
    }

    /** Removes up to `limit` expired entries, oldest first. */
    method Prune(now: int, limit: nat) returns (pruned: nat)
      requires Valid()
      modifies this, expiries
      ensures Valid()
      ensures OnlyExpiredDropped(old(entries), entries, now)
      ensures pruned <= limit && |entries| == |old(entries)| - pruned
      ensures pruned < limit ==> AllLive(entries, entries.Keys, now)
    {
      pruned := 0;
      while pruned < limit
        invariant Valid()
        invariant OnlyExpiredDropped(old(entries), entries, now)
        invariant pruned <= limit && |entries| == |old(entries)| - pruned
      {
        var oldest := expiries.OldestExpired(now);
        if oldest.None? {
          assert forall k | k in entries :: expiries.expiries[k] == entries[k].expiresAt;
          break;
        }
        assert expiries.expiries[oldest.value] == entries[oldest.value].expiresAt;
        assert |entries - {oldest.value}| == |entries| - 1 by {
          assert (entries - {oldest.value}).Keys == entries.Keys - {oldest.value};
        }
        Remove(oldest.value);
        pruned := pruned + 1;
      }
    }

    /** Looks through one bucket only and frees its first expired entry. */
    method ReleaseExpiredSlot(conn: ConnId, now: int) returns (freed: bool)
      requires Valid()
      modifies this, expiries
      ensures Valid()
      ensures OnlyExpiredDropped(old(entries), entries, now)
      ensures freed <==> |Bucket(entries, conn)| < maxPerConn
      ensures freed <==> |Bucket(old(entries), conn)| < maxPerConn || !AllLive(old(entries), Bucket(old(entries), conn), now)
    {
      var refs := At(byConnection, conn);
      var rest, checked := refs, 0;
      while rest != {} && checked < maxPerConn
        invariant Valid() && entries == old(entries)
        invariant rest <= refs && |rest| == |refs| - checked
        invariant forall k | k in refs && k !in rest :: Live(entries[k], now)
        decreases rest
      {
        var key :| key in rest;
        rest, checked := rest - {key}, checked + 1;
        if !Live(entries[key], now) {
          Remove(key);
          assert Bucket(entries, conn) == refs - {key};
          break;
        }
      }
      freed := |At(byConnection, conn)| < maxPerConn;
    }

    /** Recovers at most one expired global slot, never a live one. */
    method RecoverGlobalSlot(now: int) returns (room: bool)
      requires Valid()
      modifies this, expiries
      ensures Valid()
      ensures OnlyExpiredDropped(old(entries), entries, now)
      ensures room <==> |old(entries)| < maxTotal || !AllLive(old(entries), old(entries).Keys, now)
      ensures room <==> |entries| < maxTotal
    {
      if |entries| >= maxTotal {
        var pruned := Prune(now, 1);
        SubsetSize(entries.Keys, old(entries).Keys);
        assert pruned == 1 ==> entries.Keys != old(entries).Keys;
      }
      room := |entries| < maxTotal;
    }

    /** Recovers at most one expired slot of one endpoint, never a live one. */
    method RecoverConnectionSlot(conn: ConnId, now: int) returns (room: bool)
      requires Valid()
      modifies this, expiries
      ensures Valid()
      ensures OnlyExpiredDropped(old(entries), entries, now)
      ensures room <==> ConnectionHasRoom(old(entries), conn, now, maxPerConn)
      ensures room ==> conn == 0 || |Bucket(entries, conn)| < maxPerConn
    {
      room := true;
      if conn != 0 && |At(byConnection, conn)| >= maxPerConn {
        room := ReleaseExpiredSlot(conn, now);
      }
    }

    /** The capacity decision shared by attempts and gates. */
    method MakeRoom(c: Correlation, now: int) returns (room: bool)
      requires Valid()
      modifies this, expiries
      ensures Valid()
      ensures OnlyExpiredDropped(old(entries), entries, now)
      ensures room <==> HasRoom(old(entries), c, now, maxTotal, maxPerConn)
      ensures room ==> |entries| < maxTotal
      ensures room ==> forall conn | Names(c, conn) :: |Bucket(entries, conn)| < maxPerConn
    {
      room := RecoverGlobalSlot(now);
      if room {
        RoomIgnoresDrops(old(entries), entries, now, c.initiatorConn, maxPerConn);
        RoomIgnoresDrops(old(entries), entries, now, c.targetConn, maxPerConn);
        ghost var m1 := entries;
        room := RecoverConnectionSlot(c.initiatorConn, now);
        RoomIgnoresDrops(m1, entries, now, c.targetConn, maxPerConn);
        if room && c.targetConn != c.initiatorConn {
          ghost var m2 := entries;
          room := RecoverConnectionSlot(c.targetConn, now);
          RoomIgnoresDrops(m2, entries, now, c.initiatorConn, maxPerConn);
        }
      }
    }

    method Insert(key: K, c: Correlation)
      requires Valid() && key !in entries
      requires |entries| < maxTotal
      requires forall conn | Names(c, conn) :: |Bucket(entries, conn)| < maxPerConn
      modifies this, expiries
      ensures Valid()
      ensures entries == old(entries)[key := c]
    {
      hide BackPointers, HeapOrdered, Contents, Link;
      assert key !in expiries.expiries;
      hide Consistent;
      AddConsistent(entries, byConnection, expiries.expiries, maxTotal, maxPerConn, key, c);
      byConnection := Link(byConnection, c, key);
      entries := entries[key := c];
      var _ := expiries.Add(key, c.expiresAt);
    }

    /** Adds an attempt; an empty id, an existing key, an entry already expired or a full table is
        refused. `named` says whether the attempt id is not empty. */
    method Add(key: K, named: bool, c: Correlation, now: int) returns (added: bool)
      requires Valid()
      modifies this, expiries
      ensures Valid()
      ensures added <==> named && Live(c, now) && key !in old(entries) && HasRoom(old(entries), c, now, maxTotal, maxPerConn)
      ensures added ==> Added(old(entries), entries, key, c, now)
      ensures !added ==> OnlyExpiredDropped(old(entries), entries, now)
    {
      hide Consistent, BackPointers, HeapOrdered, Contents, OnlyExpiredDropped, Added, HasRoom;
      NothingDropped(entries, now);
      if !named || !Live(c, now) || key in entries {
        return false;
      }
      var room := MakeRoom(c, now);
      if !room {
        return false;
      }
      Inserted(old(entries), entries, key, c, now);
      Insert(key, c);
      added := true;
    }

    /** Adds a gate; an empty id of either side is refused too, and an expired gate under the same
        key gives way. */
    method AddGate(key: K, named: bool, c: Correlation, now: int) returns (added: bool)
      requires Valid()
      modifies this, expiries
      ensures Valid()
      ensures added <==> named && Addressed(c) && Live(c, now) && (key in old(entries) ==> !Live(old(entries)[key], now))
                         && HasRoom(old(entries) - {key}, c, now, maxTotal, maxPerConn)
      ensures added ==> Added(old(entries), entries, key, c, now)
      ensures !added ==> OnlyExpiredDropped(old(entries), entries, now)
    {
      hide Consistent, BackPointers, HeapOrdered, Contents, OnlyExpiredDropped, Added, HasRoom;
      NothingDropped(entries, now);
      if !named || !Addressed(c) || !Live(c, now) {
        return false;
      }
      var present := ContainsLive(key, now);
      if present {
        return false;
      }
      AfterClearing(old(entries), entries, key, c, now);
      added := Add(key, true, c, now);
      AfterClearing(old(entries), entries, key, c, now);
    }

    /** Whether a live entry exists; an expired one is removed on the way. */
    method ContainsLive(key: K, now: int) returns (present: bool)
      requires Valid()
      modifies this, expiries
      ensures Valid()
      ensures present <==> key in old(entries) && Live(old(entries)[key], now)
      ensures entries == if present then old(entries) else old(entries) - {key}
    {
      present := key in entries;
      if present && !Live(entries[key], now) {
        Remove(key);
        present := false;
      }
    }

    /** One-shot consumption: the entry is gone afterwards whether or not it was live. */
    method Take(key: K, now: int) returns (taken: Option<Correlation>)
      requires Valid()
      modifies this, expiries
      ensures Valid()
      ensures entries == old(entries) - {key}
      ensures taken == if key in old(entries) && Live(old(entries)[key], now) then Some(old(entries)[key]) else None
    {
      taken := None;
      if key in entries {
        taken := if Live(entries[key], now) then Some(entries[key]) else None;
        Remove(key);
      }
    }

    /** Drops every entry naming the connection, on either side. */
    method RemoveConnection(conn: ConnId)
      requires Valid()
      modifies this, expiries
      ensures Valid()
      ensures entries == old(entries) - Bucket(old(entries), conn)
    {
      var keys := At(byConnection, conn);
      var rest := keys;
      while rest != {}
        invariant Valid()
        invariant rest <= keys
        invariant entries == old(entries) - (keys - rest)
        decreases rest
      {
        var key :| key in rest;
        Remove(key);
        RemoveOneMore(old(entries), keys, rest, key);
        rest := rest - {key};
      }
      assert keys - rest == keys;
    }

    method Reset()
      modifies this, expiries
      ensures Valid() && entries == map[]
    {
      entries, byConnection := map[], map[];
      expiries.Reset();
    }
  }
}
