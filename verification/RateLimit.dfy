/** The token bucket per key (packages/server/src/http/rate-limit.ts). */
module RateLimit {
  import opened Common

  const GC_SIZE: nat := 10_000

  datatype Bucket = Bucket(tokens: int, at: int)

  datatype Limits = Limits(capacity: int, refillMs: int)

  predicate Usable(l: Limits) { l.capacity >= 1 && l.refillMs >= 1 }

  type Buckets = map<Id, Bucket>

  /** Whole refills are added; the fraction is kept, unless the bucket is full. */
  function Refilled(l: Limits, b: Bucket, now: int): Bucket
    requires Usable(l)
  {
    var filled := (now - b.at) / l.refillMs;
    if filled > 0 then
      var tokens := Min(l.capacity, b.tokens + filled);
      Bucket(tokens, if tokens == l.capacity then now else b.at + filled * l.refillMs)
    else b
  }

  function BucketOf(l: Limits, m: Buckets, key: Id, now: int): Bucket
    requires Usable(l)
  {
    Refilled(l, if key in m then m[key] else Bucket(l.capacity, now), now)
  }

  predicate Stale(l: Limits, b: Bucket, now: int) { now - b.at >= l.capacity * l.refillMs }

  /** `#gc` */
  function Collected(l: Limits, m: Buckets, now: int): Buckets
  {
    if |m| < GC_SIZE then m else map k | k in m && !Stale(l, m[k], now) :: m[k]
  }

  /** `take`: 0 grants; otherwise how long to wait. */
  function Take(l: Limits, m: Buckets, key: Id, now: int): (Buckets, int)
    requires Usable(l)
  {
    var b := BucketOf(l, m, key, now);
    if b.tokens < 1 then (m[key := b], l.refillMs - (now - b.at))
    else (Collected(l, m[key := b.(tokens := b.tokens - 1)], now), 0)
  }

  /** The same without ever collecting. */
  function TakeKeeping(l: Limits, m: Buckets, key: Id, now: int): (Buckets, int)
    requires Usable(l)
  {
    var b := BucketOf(l, m, key, now);
    if b.tokens < 1 then (m[key := b], l.refillMs - (now - b.at))
    else (m[key := b.(tokens := b.tokens - 1)], 0)
  }

  /** A stored bucket is never full and never from the future. */
  ghost predicate Stored(l: Limits, b: Bucket, now: int) { 0 <= b.tokens < l.capacity && b.at <= now }

  ghost predicate Sound(l: Limits, m: Buckets, now: int) { forall k {:trigger m[k]} :: k in m ==> Stored(l, m[k], now) }

  /** What a key has saved up, in milliseconds: whole tokens and the fraction of the next one. */
  function Credit(l: Limits, m: Buckets, key: Id, now: int): int
  {
    if key in m then Min(l.capacity * l.refillMs, m[key].tokens * l.refillMs + (now - m[key].at)) else l.capacity * l.refillMs
  }

  lemma {:induction false} TimesMono(a: int, b: int, r: int)
    requires a <= b && r >= 1
    ensures a * r <= b * r
  {}

  /** Whole refills within a span of time, and what they add up to. */
  lemma {:induction false} WholeSpan(capacity: int, tokens: int, r: int, span: int)
    requires r >= 1 && tokens <= capacity && 0 <= span
    ensures var filled := span / r;
            && 0 <= filled && 0 <= span - filled * r < r && (tokens + filled) * r == tokens * r + filled * r
            && (tokens + filled >= capacity ==> capacity * r <= tokens * r + span)
            && (tokens + filled < capacity ==> tokens * r + span < capacity * r)
  {
    var filled := span / r;
    assert (tokens + filled) * r == tokens * r + filled * r;
    if tokens + filled >= capacity {
      TimesMono(capacity, tokens + filled, r);
    } else {
      TimesMono(tokens + filled + 1, capacity, r);
      assert (tokens + filled + 1) * r == (tokens + filled) * r + r;
    }
  }

  /** A refill neither creates nor destroys credit, except what a full bucket cannot hold. */
  lemma {:induction false} RefillCredit(l: Limits, b: Bucket, now: int)
    requires Usable(l) && Stored(l, b, now)
    ensures var f := Refilled(l, b, now);
            && 0 <= f.tokens <= l.capacity && f.at <= now && now - f.at < l.refillMs
            && (f.tokens == l.capacity ==> f.at == now)
            && f.tokens * l.refillMs + (now - f.at) == Min(l.capacity * l.refillMs, b.tokens * l.refillMs + (now - b.at))
  {
    WholeSpan(l.capacity, b.tokens, l.refillMs, now - b.at);
    var filled := (now - b.at) / l.refillMs;
    var f := Refilled(l, b, now);
    if b.tokens + filled >= l.capacity {
      assert f == Bucket(l.capacity, now);
    } else {
      assert f == Bucket(b.tokens + filled, b.at + filled * l.refillMs);
    }
  }

  /** The bucket a request looks at holds exactly the key's credit. */
  lemma {:induction false} BucketCredit(l: Limits, m: Buckets, key: Id, now: int)
    requires Usable(l) && Sound(l, m, now)
    ensures var b := BucketOf(l, m, key, now);
            && 0 <= b.tokens <= l.capacity && b.at <= now && now - b.at < l.refillMs
            && (b.tokens == l.capacity ==> b.at == now)
            && b.tokens * l.refillMs + (now - b.at) == Credit(l, m, key, now)
  {
    if key in m {
      assert Stored(l, m[key], now);
      RefillCredit(l, m[key], now);
    } else {
      assert (now - now) / l.refillMs == 0;
    }
  }

  /** Taking a token costs one refill interval. */
  lemma {:induction false} SpentCredit(l: Limits, b: Bucket, now: int)
    requires Usable(l) && 1 <= b.tokens <= l.capacity && b.at <= now && now - b.at < l.refillMs
    requires b.tokens == l.capacity ==> b.at == now
    ensures var spent := b.(tokens := b.tokens - 1);
            && Stored(l, spent, now) && l.refillMs <= b.tokens * l.refillMs + (now - b.at)
            && Min(l.capacity * l.refillMs, spent.tokens * l.refillMs + (now - b.at)) == b.tokens * l.refillMs + (now - b.at) - l.refillMs
  {
    var r := l.refillMs;
    assert (b.tokens - 1) * r == b.tokens * r - r;
    TimesMono(0, b.tokens - 1, r);
    TimesMono(b.tokens, l.capacity, r);
  }

  lemma {:induction false} PutCredit(l: Limits, m: Buckets, key: Id, b: Bucket, now: int, k: Id)
    requires Sound(l, m, now) && Stored(l, b, now)
    ensures Sound(l, m[key := b], now)
    ensures Credit(l, m[key := b], k, now) ==
            if k == key then Min(l.capacity * l.refillMs, b.tokens * l.refillMs + (now - b.at)) else Credit(l, m, k, now)
  {
    assert k != key ==> (k in m[key := b] <==> k in m) && (k in m ==> m[key := b][k] == m[k]);
  }

  lemma {:induction false} CreditIsCapped(l: Limits, m: Buckets, key: Id, now: int)
    ensures Credit(l, m, key, now) <= l.capacity * l.refillMs
  {}

  /** A request with a token to take. */
  lemma {:induction false} GrantCredit(l: Limits, m: Buckets, key: Id, now: int, k: Id)
    requires Usable(l) && Sound(l, m, now) && BucketOf(l, m, key, now).tokens >= 1
    ensures var m' := Take(l, m, key, now).0;
            && Sound(l, m', now)
            && Credit(l, m', k, now) == Credit(l, m, k, now) - (if k == key then l.refillMs else 0)
            && l.refillMs <= Credit(l, m, key, now)
  {
    var b := BucketOf(l, m, key, now);
    var spent := b.(tokens := b.tokens - 1);
    BucketCredit(l, m, key, now);
    hide BucketOf, Collected, Credit, Sound, Stored;
    SpentCredit(l, b, now);
    PutCredit(l, m, key, spent, now, k);
    CollectedCredit(l, m[key := spent], now, k);
  }

  /** A request without one. */
  lemma {:induction false} RefuseCredit(l: Limits, m: Buckets, key: Id, now: int, k: Id)
    requires Usable(l) && Sound(l, m, now) && BucketOf(l, m, key, now).tokens < 1
    ensures var m' := Take(l, m, key, now).0;
            Sound(l, m', now) && Credit(l, m', k, now) == Credit(l, m, k, now)
  {
    var b := BucketOf(l, m, key, now);
    BucketCredit(l, m, key, now);
    CreditIsCapped(l, m, key, now);
    assert Stored(l, b, now);
    hide BucketOf, Credit, Sound, Stored;
    PutCredit(l, m, key, b, now, k);
  }

  /** What one request does to the credit of every key. */
  lemma {:induction false} TakeCredit(l: Limits, m: Buckets, key: Id, now: int, k: Id)
    requires Usable(l) && Sound(l, m, now)
    ensures var (m', wait) := Take(l, m, key, now);
            && Sound(l, m', now)
            && Credit(l, m', k, now) == Credit(l, m, k, now) - (if k == key && wait == 0 then l.refillMs else 0)
            && (wait == 0 <==> l.refillMs <= Credit(l, m, key, now))
  {
    var b := BucketOf(l, m, key, now);
    BucketCredit(l, m, key, now);
    hide BucketOf, Collected, Credit, Sound;
    if b.tokens >= 1 {
      GrantCredit(l, m, key, now, k);
    } else {
      RefuseCredit(l, m, key, now, k);
    }
  }

  /** Collecting changes nobody's credit. */
  lemma {:induction false} CollectedCredit(l: Limits, m: Buckets, now: int, k: Id)
    requires Usable(l) && Sound(l, m, now)
    ensures Sound(l, Collected(l, m, now), now) && Credit(l, Collected(l, m, now), k, now) == Credit(l, m, k, now)
  {
    if k in m {
      assert Stored(l, m[k], now);
      TimesMono(0, m[k].tokens, l.refillMs);
    }
  }

  /* ---------- runs ---------- */

  datatype Request = Request(key: Id, at: int)

  ghost predicate InOrder(rs: seq<Request>) { forall i, k :: 0 <= i < k < |rs| ==> rs[i].at <= rs[k].at }

  function After(l: Limits, rs: seq<Request>): Buckets
    requires Usable(l)
  {
    if |rs| == 0 then map[] else Take(l, After(l, rs[..|rs| - 1]), rs[|rs| - 1].key, rs[|rs| - 1].at).0
  }

  predicate Granted(l: Limits, rs: seq<Request>, i: nat)
    requires Usable(l) && i < |rs|
  {
    Take(l, After(l, rs[..i]), rs[i].key, rs[i].at).1 == 0
  }

  /** How many of the requests from, up to but not including upTo, were granted for the key. */
  function Grants(l: Limits, rs: seq<Request>, key: Id, from: nat, upTo: nat): nat
    requires Usable(l) && from <= upTo <= |rs|
    decreases upTo
  {
    if from == upTo then 0
    else Grants(l, rs, key, from, upTo - 1) + if rs[upTo - 1].key == key && Granted(l, rs, upTo - 1) then 1 else 0
  }

  lemma {:induction false} SoundAfter(l: Limits, rs: seq<Request>, n: nat)
    requires Usable(l) && InOrder(rs) && n <= |rs|
    ensures n > 0 ==> Sound(l, After(l, rs[..n]), rs[n - 1].at)
  {
    if n > 0 {
      SoundAfter(l, rs, n - 1);
      assert rs[..n][..n - 1] == rs[..n - 1];
      var m := After(l, rs[..n - 1]);
      TakeCredit(l, m, rs[n - 1].key, rs[n - 1].at, rs[n - 1].key);
    }
  }

  /** Every grant costs one refill interval of credit, and credit only comes from time. */
  lemma {:induction false} GrantsCostCredit(l: Limits, rs: seq<Request>, key: Id, from: nat, upTo: nat)
    requires Usable(l) && InOrder(rs) && from < upTo <= |rs|
    ensures Grants(l, rs, key, from, upTo) * l.refillMs + Credit(l, After(l, rs[..upTo]), key, rs[upTo - 1].at)
            <= l.capacity * l.refillMs + (rs[upTo - 1].at - rs[from].at)
    ensures 0 <= Credit(l, After(l, rs[..upTo]), key, rs[upTo - 1].at)
    decreases upTo
  {
    var now := rs[upTo - 1].at;
    var m := After(l, rs[..upTo - 1]);
    OneMoreRequest(l, rs, key, upTo);
    if from < upTo - 1 {
      GrantsCostCredit(l, rs, key, from, upTo - 1);
    } else {
      assert Grants(l, rs, key, from, upTo - 1) == 0;
    }
    var one := if rs[upTo - 1].key == key && Granted(l, rs, upTo - 1) then 1 else 0;
    var before := Grants(l, rs, key, from, upTo - 1);
    hide After, Granted, Credit;
    assert Grants(l, rs, key, from, upTo) == before + one;
    assert (before + one) * l.refillMs == before * l.refillMs + one * l.refillMs;
  }

  /** Credit is never negative, never more than a full bucket, and grows no faster than time. */
  lemma {:induction false} CreditGrows(l: Limits, m: Buckets, key: Id, since: int, now: int)
    requires Usable(l) && Sound(l, m, since) && since <= now
    ensures 0 <= Credit(l, m, key, now) <= l.capacity * l.refillMs
    ensures Credit(l, m, key, now) <= Credit(l, m, key, since) + (now - since)
  {
    TimesMono(0, l.capacity, l.refillMs);
    if key in m {
      assert Stored(l, m[key], since);
      TimesMono(0, m[key].tokens, l.refillMs);
    }
  }

  lemma {:induction false} OneMoreRequest(l: Limits, rs: seq<Request>, key: Id, upTo: nat)
    requires Usable(l) && InOrder(rs) && 0 < upTo <= |rs|
    ensures var now := rs[upTo - 1].at;
            var cost := if rs[upTo - 1].key == key && Granted(l, rs, upTo - 1) then l.refillMs else 0;
            && 0 <= Credit(l, After(l, rs[..upTo]), key, now)
            && Credit(l, After(l, rs[..upTo]), key, now) + cost <= l.capacity * l.refillMs
            && (upTo > 1 ==> Credit(l, After(l, rs[..upTo]), key, now) + cost <= Credit(l, After(l, rs[..upTo - 1]), key, rs[upTo - 2].at) + (now - rs[upTo - 2].at))
  {
    var now := rs[upTo - 1].at;
    var since := if upTo > 1 then rs[upTo - 2].at else now;
    var m := After(l, rs[..upTo - 1]);
    assert rs[..upTo][..upTo - 1] == rs[..upTo - 1];
    assert After(l, rs[..upTo]) == Take(l, m, rs[upTo - 1].key, now).0;
    SoundAfter(l, rs, upTo - 1);
    assert Sound(l, m, since) && since <= now;
    SoundLater(l, m, since, now);
    hide Take, Credit, After, Sound, InOrder;
    CreditGrows(l, m, key, since, now);
    TakeCredit(l, m, rs[upTo - 1].key, now, key);
    assert 0 <= Credit(l, Take(l, m, rs[upTo - 1].key, now).0, key, now) by {
      CreditGrows(l, Take(l, m, rs[upTo - 1].key, now).0, key, now, now);
    }
  }

  lemma {:induction false} SoundLater(l: Limits, m: Buckets, since: int, now: int)
    requires Sound(l, m, since) && since <= now
    ensures Sound(l, m, now)
  {}

  /** In any window of length T, a key gets at most capacity + floor(T / refillMs) grants. */
  lemma {:induction false} WindowBound(l: Limits, rs: seq<Request>, key: Id, from: nat, upTo: nat, T: nat)
    requires Usable(l) && InOrder(rs) && from < upTo <= |rs| && rs[upTo - 1].at - rs[from].at <= T
    ensures Grants(l, rs, key, from, upTo) <= l.capacity + T / l.refillMs
  {
    GrantsCostCredit(l, rs, key, from, upTo);
    hide Grants, Credit, After;
    WholeRefills(Grants(l, rs, key, from, upTo), l.capacity, l.refillMs, T);
  }

  lemma {:induction false} WholeRefills(n: int, c: int, r: int, T: nat)
    requires r >= 1 && n * r <= c * r + T
    ensures n <= c + T / r
  {
    var extra := n - c;
    assert extra * r == n * r - c * r;
    if extra > T / r {
      TimesMono(T / r + 1, extra, r);
    }
  }

  lemma {:induction false} OneRefill(r: int, span: int)
    requires r >= 1 && 0 <= span
    ensures span / r > 0 <==> span >= r
  {}

  /** An empty bucket gives a token again exactly one refill interval after its last refill. */
  lemma {:induction false} EmptyUntil(l: Limits, b: Bucket, later: int)
    requires Usable(l) && b.tokens == 0 && b.at <= later
    ensures Refilled(l, b, later).tokens >= 1 <==> b.at + l.refillMs <= later
  {
    OneRefill(l.refillMs, later - b.at);
  }

  /** The wait is exact: asking again before it is over is refused, from then on it is granted. */
  lemma {:induction false} WaitIsExact(l: Limits, m: Buckets, key: Id, now: int, later: int)
    requires Usable(l) && Sound(l, m, now) && now <= later
    ensures var (m', wait) := Take(l, m, key, now);
            && 0 <= wait <= l.refillMs
            && (wait > 0 ==> (Take(l, m', key, later).1 == 0 <==> now + wait <= later))
  {
    var b := BucketOf(l, m, key, now);
    BucketCredit(l, m, key, now);
    if b.tokens < 1 {
      EmptyUntil(l, b, later);
      assert BucketOf(l, m[key := b], key, later) == Refilled(l, b, later);
      TakesWhen(l, m[key := b], key, later);
    }
    hide Refilled, Credit, Collected;
  }

  lemma {:induction false} TakesWhen(l: Limits, m: Buckets, key: Id, now: int)
    requires Usable(l) && (BucketOf(l, m, key, now).tokens >= 1 || now - BucketOf(l, m, key, now).at < l.refillMs)
    ensures Take(l, m, key, now).1 == 0 <==> BucketOf(l, m, key, now).tokens >= 1
  {
    hide BucketOf, Collected;
  }

  /* ---------- collecting is invisible ---------- */

  /** Two stores that only differ in buckets that have filled up since. */
  ghost predicate SameAnswers(l: Limits, a: Buckets, b: Buckets, now: int)
  {
    forall k {:trigger k in a} {:trigger k in b} ::
      if k in a then k in b && a[k] == b[k] else k in b ==> Stale(l, b[k], now) && 0 <= b[k].tokens < l.capacity
  }

  /** A bucket that had time to fill up answers like a new one. */
  lemma {:induction false} StaleIsFull(l: Limits, b: Bucket, now: int)
    requires Usable(l) && Stale(l, b, now) && 0 <= b.tokens < l.capacity
    ensures Refilled(l, b, now) == Bucket(l.capacity, now)
  {
    var r := l.refillMs;
    if (now - b.at) / r < l.capacity {
      TimesMono((now - b.at) / r + 1, l.capacity, r);
    }
  }

  lemma {:induction false} PutAgree(l: Limits, a: Buckets, b: Buckets, key: Id, put: Bucket, before: int, now: int)
    requires SameAnswers(l, a, b, before) && before <= now
    ensures SameAnswers(l, a[key := put], b[key := put], now)
  {
    forall k {:trigger k in a[key := put]} {:trigger k in b[key := put]}
      ensures if k in a[key := put] then k in b[key := put] && a[key := put][k] == b[key := put][k]
              else k in b[key := put] ==> Stale(l, b[key := put][k], now) && 0 <= b[key := put][k].tokens < l.capacity {
      assert k != key ==> (k in a[key := put] <==> k in a) && (k in b[key := put] <==> k in b);
    }
  }

  lemma {:induction false} CollectAgree(l: Limits, a: Buckets, b: Buckets, now: int)
    requires SameAnswers(l, a, b, now) && Sound(l, a, now)
    ensures SameAnswers(l, Collected(l, a, now), b, now)
  {
    forall k {:trigger k in b} | k in a && k !in Collected(l, a, now) ensures Stale(l, b[k], now) && 0 <= b[k].tokens < l.capacity {
      assert Stored(l, a[k], now);
    }
  }

  lemma {:induction false} TakesAgree(l: Limits, a: Buckets, b: Buckets, key: Id, before: int, now: int)
    requires Usable(l) && SameAnswers(l, a, b, before) && before <= now && Sound(l, a, before) && Sound(l, b, before)
    ensures Take(l, a, key, now).1 == TakeKeeping(l, b, key, now).1
    ensures SameAnswers(l, Take(l, a, key, now).0, TakeKeeping(l, b, key, now).0, now)
    ensures Sound(l, TakeKeeping(l, b, key, now).0, now)
  {
    SoundLater(l, a, before, now);
    SoundLater(l, b, before, now);
    SameBucket(l, a, b, key, before, now);
    BucketCredit(l, b, key, now);
    var bucket := BucketOf(l, b, key, now);
    var put := if bucket.tokens < 1 then bucket else bucket.(tokens := bucket.tokens - 1);
    assert Stored(l, put, now);
    PutAgree(l, a, b, key, put, before, now);
    hide Credit, BucketOf, Collected, SameAnswers, Sound, Stored;
    PutCredit(l, a, key, put, now, key);
    PutCredit(l, b, key, put, now, key);
    CollectAgree(l, a[key := put], b[key := put], now);
  }

  lemma {:induction false} SameBucket(l: Limits, a: Buckets, b: Buckets, key: Id, before: int, now: int)
    requires Usable(l) && SameAnswers(l, a, b, before) && before <= now && Sound(l, b, before)
    ensures BucketOf(l, a, key, now) == BucketOf(l, b, key, now) && Sound(l, b, now)
  {
    if key in b && key !in a {
      StaleIsFull(l, b[key], now);
    }
    assert key !in b ==> key !in a;
  }

  function AfterKeeping(l: Limits, rs: seq<Request>): Buckets
    requires Usable(l)
  {
    if |rs| == 0 then map[] else TakeKeeping(l, AfterKeeping(l, rs[..|rs| - 1]), rs[|rs| - 1].key, rs[|rs| - 1].at).0
  }

  /** Over any run, a limiter that collects answers every request as one that never does. */
  lemma {:induction false} CollectingIsInvisible(l: Limits, rs: seq<Request>, next: Request)
    requires Usable(l) && InOrder(rs + [next])
    ensures Take(l, After(l, rs), next.key, next.at).1 == TakeKeeping(l, AfterKeeping(l, rs), next.key, next.at).1
    ensures SameAnswers(l, Take(l, After(l, rs), next.key, next.at).0, TakeKeeping(l, AfterKeeping(l, rs), next.key, next.at).0, next.at)
    ensures Sound(l, TakeKeeping(l, AfterKeeping(l, rs), next.key, next.at).0, next.at)
  {
    var all := rs + [next];
    if |rs| == 0 {
      TakesAgree(l, map[], map[], next.key, next.at, next.at);
    } else {
      var front, last := rs[..|rs| - 1], rs[|rs| - 1];
      assert front + [last] == rs;
      assert forall i :: 0 <= i < |rs| ==> all[i] == rs[i];
      assert all[|rs| - 1].at <= all[|rs|].at;
      CollectingIsInvisible(l, front, last);
      SoundAfter(l, rs, |rs|);
      assert rs[..|rs|] == rs;
      TakesAgree(l, After(l, rs), AfterKeeping(l, rs), next.key, last.at, next.at);
    }
  }

  /* ---------- the object ---------- */

  class RateLimiter {
    const limits: Limits
    var buckets: Buckets

    constructor (capacity: int, refillMs: int)
      requires capacity >= 1 && refillMs >= 1
      ensures Usable(limits) && limits == Limits(capacity, refillMs) && buckets == map[]
    {
      limits := Limits(capacity, refillMs);
      buckets := map[];
    }

    method TakeToken(key: Id, now: int) returns (wait: int)
      requires Usable(limits)
      modifies this
      ensures (buckets, wait) == Take(limits, old(buckets), key, now)
    {
      var b := if key in buckets then buckets[key] else Bucket(limits.capacity, now);
      var filled := (now - b.at) / limits.refillMs;
      if filled > 0 {
        var tokens := if b.tokens + filled < limits.capacity then b.tokens + filled else limits.capacity;
        b := Bucket(tokens, if tokens == limits.capacity then now else b.at + filled * limits.refillMs);
      }
      if b.tokens < 1 {
        buckets := buckets[key := b];
        return limits.refillMs - (now - b.at);
      }
      buckets := buckets[key := b.(tokens := b.tokens - 1)];
      Collect(now);
      wait := 0;
    }

    method Collect(now: int)
      modifies this
      ensures buckets == Collected(limits, old(buckets), now)
    {
      if |buckets| < GC_SIZE {
        return;
      }
      var full := limits.capacity * limits.refillMs;
      var left := buckets.Keys;
      ghost var was := buckets;
      while left != {}
        invariant left <= was.Keys
        invariant buckets == map k | k in was && (k in left || !Stale(limits, was[k], now)) :: was[k]
      {
        var k :| k in left;
        left := left - {k};
        if now - buckets[k].at >= full {
          buckets := buckets - {k};
        }
      }
    }
  }
}
