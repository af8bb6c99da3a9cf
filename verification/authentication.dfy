/** Authenticating a request and refreshing a credential: ordered checks over the durable store
    and the replay cache. Signatures are given as verified or not. */
module Authentication {
  import opened Options
  import opened UnixTime
  import E = Enrollment
  import N = ReplayNonces
  import opened NonceCaches

  /** A request as presented: its credential, whether the credential's signature verified, the
      signed timestamp and nonce, and whether the device's proof over them verified. */
  datatype Request = Request(c: E.Credential, signed: bool, timestamp: int, nonce: N.Nonce, proven: bool)

  /** What is checked of a request before the durable store is asked. */
  predicate Presented(r: Request, now: int) {
    && r.signed && r.c.generation > 0 && !E.Expired(r.c, now)
    && r.timestamp > 0 && N.TimestampFresh(r.timestamp, now) && r.proven
  }

  /** Everything but the nonce. */
  predicate Genuine(s: E.Durable, caps: E.Limits, r: Request, now: int) {
    Presented(r, now) && E.ClaimsCurrent(s, caps, r.c, now, now)
  }

  predicate NonceRejected(book: N.Book, device: N.DeviceId, nonce: N.Nonce, timestamp: int, now: int) {
    N.Rejects(book, now, device, nonce, N.NonceExpiry(timestamp))
  }

  function NonceRecorded(book: N.Book, device: N.DeviceId, nonce: N.Nonce, timestamp: int, now: int): N.Book {
    N.Record(book, now, device, nonce, N.NonceExpiry(timestamp))
  }

  /** What a refresh request must show besides a free nonce. */
  predicate Refreshable(s: E.Durable, caps: E.Limits, device: E.DeviceId, key: E.PublicKey, timestamp: int, proven: bool, now: int) {
    && timestamp > 0 && N.TimestampFresh(timestamp, now)
    && device in s.enrolled && s.enrolled[device].protocol == caps.protocol && !E.IsRevoked(s, device, now)
    && s.enrolled[device].key == key && proven
  }

  class Authenticator {
    const store: E.EnrollmentStore
    const cache: NonceCache

    ghost predicate Valid()
      reads cache, cache.expiries
    {
      cache.Valid()
    }

    constructor (store: E.EnrollmentStore, cache: NonceCache)
      requires cache.Valid()
      ensures this.store == store && this.cache == cache && Valid()
    {
      this.store, this.cache := store, cache;
    }

    /** The durable half of admission. */
    method EnrollmentClaimsCurrent(c: E.Credential, checked: int, read: int) returns (ok: bool)
      modifies store
      ensures ok == E.ClaimsCurrent(old(store.State()), store.caps, c, checked, read)
      ensures store.State() == if E.Expired(c, checked) then old(store.State()) else E.DropExpired(old(store.State()), c.device, read)
    {
      if c.expiresAt <= Seconds(checked) {
        return false;
      }
      var revoked := store.CheckRevoked(c.device, read);
      if c.device !in store.enrolled {
        return false;
      }
      var device := store.enrolled[c.device];
      ok := !revoked && device.key == c.key && c.generation == device.generation && device.protocol == store.caps.protocol;
    }

    /** Accepts a genuine request with an unused nonce, and nothing else; only a genuine request
        spends its nonce. The nonce is consumed at the same time or later than the checks. */
    method AuthenticateRequest(r: Request, now: int, consumeAt: int) returns (ok: bool)
      requires Valid() && cache.clock <= consumeAt && now <= consumeAt
      modifies store, cache, cache.expiries
      ensures Valid()
      ensures ok <==> Genuine(old(store.State()), store.caps, r, now)
                      && !NonceRejected(old(cache.book), r.c.device, r.nonce, r.timestamp, consumeAt)
      ensures cache.book == if Genuine(old(store.State()), store.caps, r, now)
                            then NonceRecorded(old(cache.book), r.c.device, r.nonce, r.timestamp, consumeAt) else old(cache.book)
      ensures store.State() == if Presented(r, now) then E.DropExpired(old(store.State()), r.c.device, now) else old(store.State())
    {
      hide N.Rejects, N.Record, Indexed, N.Agree;
      if !r.signed || r.c.generation <= 0 || E.Expired(r.c, now) {
        return false;
      }
      if r.timestamp <= 0 || !N.TimestampFresh(r.timestamp, now) || !r.proven {
        return false;
      }
      var current := EnrollmentClaimsCurrent(r.c, now, now);
      if !current {
        return false;
      }
      var replayed := cache.ConsumeNonce(consumeAt, r.c.device, r.nonce, N.NonceExpiry(r.timestamp));
      ok := !replayed;
    }

    /** Issues a new credential of the current generation, or nothing. */
    method RefreshCredential(device: E.DeviceId, key: E.PublicKey, timestamp: int, nonce: N.Nonce, proven: bool,
                             now: int, consumeAt: int, issueAt: int)
      returns (credential: Option<E.Credential>)
      requires Valid() && cache.clock <= consumeAt && now <= consumeAt <= issueAt
      modifies store, cache, cache.expiries
      ensures Valid()
      ensures credential.Some? <==>
        && Refreshable(old(store.State()), store.caps, device, key, timestamp, proven, now)
        && !NonceRejected(old(cache.book), device, nonce, timestamp, consumeAt)
        && old(store.State()).enrolled[device].generation > 0
      ensures credential.Some? ==>
        credential.value == E.Fresh(device, key, old(store.State()).enrolled[device].generation, store.caps.ttl, issueAt)
      ensures cache.book == if Refreshable(old(store.State()), store.caps, device, key, timestamp, proven, now)
                            then NonceRecorded(old(cache.book), device, nonce, timestamp, consumeAt) else old(cache.book)
      ensures store.State() == if timestamp > 0 && N.TimestampFresh(timestamp, now) && device in old(store.State()).enrolled
                                  && old(store.State()).enrolled[device].protocol == store.caps.protocol
                               then E.DropExpired(old(store.State()), device, now) else old(store.State())
    {
      hide N.Rejects, N.Record, Indexed, N.Agree;
      credential := None;
      if timestamp <= 0 || !N.TimestampFresh(timestamp, now) {
        return;
      }
      if device !in store.enrolled || store.enrolled[device].protocol != store.caps.protocol {
        return;
      }
      var revoked := store.CheckRevoked(device, now);
      if revoked || store.enrolled[device].key != key || !proven {
        return;
      }
      var replayed := cache.ConsumeNonce(consumeAt, device, nonce, N.NonceExpiry(timestamp));
      if replayed || store.enrolled[device].generation <= 0 {
        return;
      }
      credential := Some(E.Fresh(device, key, store.enrolled[device].generation, store.caps.ttl, issueAt));
    }
  }
}
