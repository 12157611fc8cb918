/** The per-client token bucket of adimpactbot/chatbot.py
    (`_is_chat_rate_limited` over `_chat_rate_store`): each client ip owns a
    bucket holding up to `capacity` tokens that refills continuously at
    `capacity` tokens per 60 seconds; a call takes one token, and a call that
    finds less than one token is limited. Token counts and times are real
    numbers. */
module RateLimit {
  import opened Wrappers

  /** `CHAT_RATE_LIMIT_PER_MIN` when the environment does not set it. */
  const DefaultCapacity := 20
  /** `refill_time`: the seconds over which a whole bucket refills. */
  const RefillSeconds: real := 60.0

  /** The `{"tokens": ..., "last": ...}` dict stored for one ip. */
  datatype Bucket = Bucket(tokens: real, last: real)

  /** Whether a call was limited, and the bucket stored for the ip afterwards. */
  datatype Decision = Decision(limited: bool, bucket: Bucket)

  /** The tokens a bucket holds at `now`: what it held at its last use plus
      the refill since then, capped at `capacity`. */
  function Refilled(b: Bucket, capacity: int, now: real): real {
    var t := b.tokens + (now - b.last) * (capacity as real / RefillSeconds);
    if t < capacity as real then t else capacity as real
  }

  /** One call of `_is_chat_rate_limited` for an ip whose stored bucket is
      `b` (`None` when the ip has none yet). */
  function Check(b: Option<Bucket>, capacity: int, now: real): Decision {
    match b
    case None => Decision(false, Bucket((capacity - 1) as real, now))
    case Some(bucket) =>
      var t := Refilled(bucket, capacity, now);
      if t < 1.0 then Decision(true, Bucket(t, now))
      else Decision(false, Bucket(t - 1.0, now))
  }

  /** A bucket whose token count lies between zero and the capacity. */
  predicate InRange(b: Bucket, capacity: int) {
    0.0 <= b.tokens <= capacity as real
  }

  /** With a capacity of at least one and a clock that does not go back, a
      call keeps the bucket's tokens within `[0, capacity]`, stamps it with
      `now`, and is limited exactly when the refilled count is below one; an
      admitted call takes exactly one token. */
  lemma CheckStaysInRange(b: Option<Bucket>, capacity: int, now: real)
    requires capacity >= 1
    requires b.Some? ==> InRange(b.value, capacity) && b.value.last <= now
    ensures InRange(Check(b, capacity, now).bucket, capacity)
    ensures Check(b, capacity, now).bucket.last == now
    ensures b.Some? ==>
      && 0.0 <= Refilled(b.value, capacity, now) <= capacity as real
      && (Check(b, capacity, now).limited <==> Refilled(b.value, capacity, now) < 1.0)
      && (!Check(b, capacity, now).limited ==>
            Check(b, capacity, now).bucket.tokens == Refilled(b.value, capacity, now) - 1.0)
  {
    if b.Some? {
      var rate := capacity as real / RefillSeconds;
      assert rate > 0.0;
      assert (now - b.value.last) * rate >= 0.0;
    }
  }

  /** The limited-or-not answers of `n` calls from one ip at the same
      instant, starting from the bucket `b`. */
  function Burst(b: Option<Bucket>, capacity: int, now: real, n: nat): (r: seq<bool>)
    ensures |r| == n
    decreases n
  {
    if n == 0 then []
    else
      var d := Check(b, capacity, now);
      [d.limited] + Burst(Some(d.bucket), capacity, now, n - 1)
  }

  /** A bucket last used at `now` and holding `k` whole tokens admits `k`
      more calls at `now` and limits the next one. */
  lemma {:induction false} BurstDrains(k: nat, capacity: int, now: real)
    requires 1 <= capacity && k <= capacity
    ensures var r := Burst(Some(Bucket(k as real, now)), capacity, now, k + 1);
      (forall i :: 0 <= i < k ==> !r[i]) && r[k]
  {
    var r := Burst(Some(Bucket(k as real, now)), capacity, now, k + 1);
    var d := Check(Some(Bucket(k as real, now)), capacity, now);
    assert Refilled(Bucket(k as real, now), capacity, now) == k as real;
    if k > 0 {
      assert d == Decision(false, Bucket((k - 1) as real, now));
      BurstDrains(k - 1, capacity, now);
      assert r == [false] + Burst(Some(Bucket((k - 1) as real, now)), capacity, now, k);
    }
  }

  /** From an ip with no bucket, `capacity` calls at the same instant are
      admitted and the next one is limited. */
  lemma BurstFromNewClient(capacity: int, now: real)
    requires capacity >= 1
    ensures var r := Burst(None, capacity, now, capacity + 1);
      (forall i :: 0 <= i < capacity ==> !r[i]) && r[capacity]
  {
    var r := Burst(None, capacity, now, capacity + 1);
    assert Check(None, capacity, now) == Decision(false, Bucket((capacity - 1) as real, now));
    BurstDrains(capacity - 1, capacity, now);
    assert r == [false] + Burst(Some(Bucket((capacity - 1) as real, now)), capacity, now, capacity);
  }

  /** A limited client is admitted again once `60 / capacity` seconds, the
      time one token takes to refill, have passed since its last call. */
  lemma RefillReadmits(b: Bucket, capacity: int, now: real)
    requires capacity >= 1 && InRange(b, capacity)
    requires now >= b.last + RefillSeconds / capacity as real
    ensures !Check(Some(b), capacity, now).limited
  {
    var rate := capacity as real / RefillSeconds;
    var elapsed := now - b.last;
    assert elapsed * rate >= (RefillSeconds / capacity as real) * rate;
    assert (RefillSeconds / capacity as real) * rate == 1.0;
  }

  /** Exactly one call per refill: a client whose bucket was drained
      below one token is admitted once after `60 / capacity` seconds, and the
      call right after it, at the same instant, is limited again. */
  lemma RefillReadmitsOnce(tokens: real, t: real, capacity: int)
    requires capacity >= 1 && 0.0 <= tokens < 1.0
    ensures Burst(Some(Bucket(tokens, t)), capacity, t + RefillSeconds / capacity as real, 2) == [false, true]
  {
    var now := t + RefillSeconds / capacity as real;
    var rate := capacity as real / RefillSeconds;
    assert (now - t) * rate == 1.0;
    var d := Check(Some(Bucket(tokens, t)), capacity, now);
    assert !d.limited && d.bucket.tokens < 1.0 && d.bucket.last == now;
    assert Check(Some(d.bucket), capacity, now).limited;
  }

  /** With the default `CHAT_RATE_LIMIT_PER_MIN`, a new client gets 20
      messages at once and the 21st is limited. */
  lemma DefaultBurstFromNewClient(now: real)
    ensures var r := Burst(None, DefaultCapacity, now, DefaultCapacity + 1);
      (forall i :: 0 <= i < DefaultCapacity ==> !r[i]) && r[DefaultCapacity]
  {
    BurstFromNewClient(DefaultCapacity, now);
  }

  /** Every stored bucket lies within `[0, capacity]` and none is stamped
      later than `now`. */
  predicate Bounded(store: map<string, Bucket>, capacity: int, now: real) {
    forall ip :: ip in store ==> InRange(store[ip], capacity) && store[ip].last <= now
  }

  /** The store after one call for `ip`. */
  function AfterCall(store: map<string, Bucket>, ip: string, capacity: int, now: real): map<string, Bucket> {
    store[ip := Check(if ip in store then Some(store[ip]) else None, capacity, now).bucket]
  }

  /** Calls made with a clock that does not go back keep every bucket of the
      store within bounds, and leave every other ip's bucket as it was. */
  lemma CallKeepsStoreBounded(store: map<string, Bucket>, ip: string, capacity: int, now: real, later: real)
    requires capacity >= 1 && now <= later && Bounded(store, capacity, now)
    ensures Bounded(AfterCall(store, ip, capacity, later), capacity, later)
    ensures forall other :: other in store && other != ip ==> AfterCall(store, ip, capacity, later)[other] == store[other]
  {
    CheckStaysInRange(if ip in store then Some(store[ip]) else None, capacity, later);
  }

  /** `_chat_rate_store` with the limit it enforces. */
  class RateLimiter {
    const capacity: int
    var store: map<string, Bucket>

    constructor (capacity: int)
      ensures this.capacity == capacity && store == map[]
    {
      this.capacity := capacity;
      store := map[];
    }

    /** `_is_chat_rate_limited(ip)` at the clock reading `now`: the answer and
        the ip's new bucket are those `Check` gives; no other ip's bucket
        changes. */
    method IsChatRateLimited(ip: string, now: real) returns (limited: bool)
      modifies this
      ensures var d := Check(if ip in old(store) then Some(old(store)[ip]) else None, capacity, now);
        limited == d.limited && store == AfterCall(old(store), ip, capacity, now)
    {
      if ip !in store {
        store := store[ip := Bucket((capacity - 1) as real, now)];
        return false;
      }
      var bucket := store[ip];
      var refill := (now - bucket.last) * (capacity as real / RefillSeconds);
      var tokens := bucket.tokens + refill;
      if capacity as real <= tokens {
        tokens := capacity as real;
      }
      assert tokens == Refilled(bucket, capacity, now);
      if tokens < 1.0 {
        store := store[ip := bucket.(tokens := tokens, last := now)];
        return true;
      }
      store := store[ip := bucket.(tokens := tokens - 1.0, last := now)];
      return false;
    }
  }
}
