/** A shortened link: a fixed code, target and lifetime, plus an access
    counter that every redirect bumps. */
module ShortUrls {
  import opened Wrappers

  /** Points in time and time spans, in ticks of 100 nanoseconds. */
  type Instant = int
  type Span = int

  /** An entry with an expiry time is expired from that time on; one
      without never expires. */
  predicate ExpiredAt(expiresAt: Option<Instant>, now: Instant) {
    expiresAt.Some? && expiresAt.value <= now
  }

  /** Expiry is permanent: once expired, expired at every later time. */
  lemma ExpiryIsMonotone(expiresAt: Option<Instant>, now: Instant, later: Instant)
    requires now <= later && ExpiredAt(expiresAt, now)
    ensures ExpiredAt(expiresAt, later)
  {
  }

  /** Without an expiry time an entry is never expired; with one, it is
      expired exactly from that instant on. */
  lemma ExpiryBoundary(expiresAt: Option<Instant>, now: Instant)
    ensures expiresAt.None? ==> !ExpiredAt(expiresAt, now)
    ensures expiresAt.Some? ==> (ExpiredAt(expiresAt, now) <==> now >= expiresAt.value)
    ensures expiresAt.Some? ==> ExpiredAt(expiresAt, expiresAt.value) && !ExpiredAt(expiresAt, expiresAt.value - 1)
  {
  }

  class ShortUrl {
    const code: string
    const originalUrl: string
    const createdAt: Instant
    const expiresAt: Option<Instant>
    var accessCount: int
    var lastAccessedAt: Option<Instant>

    /** A new entry has not been visited yet. */
    constructor (code: string, originalUrl: string, createdAt: Instant, expiresAt: Option<Instant>)
      ensures this.code == code && this.originalUrl == originalUrl
      ensures this.createdAt == createdAt && this.expiresAt == expiresAt
      ensures accessCount == 0 && lastAccessedAt == None
    {
      this.code := code;
      this.originalUrl := originalUrl;
      this.createdAt := createdAt;
      this.expiresAt := expiresAt;
      accessCount := 0;
      lastAccessedAt := None;
    }

    predicate IsExpired(now: Instant) {
      ExpiredAt(expiresAt, now)
    }

    /** Counts one visit at `timestamp`; code, target and lifetime are
        constants and cannot change. */
    method RegisterAccess(timestamp: Instant)
      modifies this
      ensures accessCount == old(accessCount) + 1
      ensures lastAccessedAt == Some(timestamp)
    {
      accessCount := accessCount + 1;
      lastAccessedAt := Some(timestamp);
    }
  }
}
