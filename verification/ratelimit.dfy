/**
 The ingest rate limiter (services/ingest-service/internal/ratelimit): the token
 bucket arithmetic, and its in-memory and expiring Redis forms.

 float64 quantities are reals: rounding is not modelled. Times are whole milliseconds.
 */
module TokenBucket {
  import opened Common

  datatype Limits = Limits(rate: real, burst: real) {
    predicate Unlimited() { rate <= 0.0 || burst <= 0.0 }
  }

  datatype Bucket = Bucket(tokens: real, ts: int)

  datatype Decision = Decision(allowed: bool, retryMs: int, limit: real, remaining: real)

  function Ceil(x: real): int { -((-x).Floor) }

  function MinReal(a: real, b: real): real { if a <= b then a else b }

  /** Tokens refilled in a span; a clock that went back refills nothing. */
  function Gain(lim: Limits, ms: int): real {
    (ms as real / 1000.0) * lim.rate
  }

  function Refill(s: Bucket, lim: Limits, now: int): real {
    MinReal(lim.burst, s.tokens + Gain(lim, Max(0, now - s.ts)))
  }

  /** `take`. */
  function Take(s: Bucket, lim: Limits, now: int, n: real): (Bucket, Decision) {
    var tokens := Refill(s, lim, now);
    if tokens >= n then
      (Bucket(tokens - n, now), Decision(true, 0, lim.burst, tokens - n))
    else
      var retry := if lim.rate > 0.0 then Ceil((n - tokens) / lim.rate * 1000.0) else 0;
      (Bucket(tokens, now), Decision(false, retry, lim.burst, tokens))
  }

  // ------------------------------------------------------------------
  // Which requests a bucket admits
  // ------------------------------------------------------------------

  /** The bucket before request j of a run that starts full at its first request. */
  function Before(lim: Limits, times: seq<int>, j: nat): Bucket
    requires j < |times|
    decreases j
  {
    if j == 0 then Bucket(lim.burst, times[0]) else Take(Before(lim, times, j - 1), lim, times[j - 1], 1.0).0
  }

  predicate Admits(lim: Limits, times: seq<int>, j: nat)
    requires j < |times|
  {
    Take(Before(lim, times, j), lim, times[j], 1.0).1.allowed
  }

  function Bit(b: bool): nat { if b then 1 else 0 }

  /** Requests admitted among i, ..., j - 1. */
  function Admitted(lim: Limits, times: seq<int>, i: nat, j: nat): nat
    requires i <= j <= |times|
    decreases j - i
  {
    if i == j then 0 else Admitted(lim, times, i, j - 1) + Bit(Admits(lim, times, j - 1))
  }

  /** The sum of the clock's forward steps from request i to request j. */
  function Forward(times: seq<int>, i: nat, j: nat): int
    requires i <= j < |times|
    decreases j - i
  {
    if i == j then 0 else Forward(times, i, j - 1) + Max(0, times[j] - times[j - 1])
  }

  /** What the window from i leaves for request j. */
  function Room(lim: Limits, times: seq<int>, i: nat, j: nat): real
    requires i <= j < |times|
  {
    lim.burst + Gain(lim, Forward(times, i, j)) - Admitted(lim, times, i, j) as real
  }

  function Level(lim: Limits, times: seq<int>, j: nat): real
    requires j < |times|
  {
    Refill(Before(lim, times, j), lim, times[j])
  }

  lemma GainAdd(lim: Limits, a: int, b: int)
    ensures Gain(lim, a + b) == Gain(lim, a) + Gain(lim, b)
  {
    assert ((a + b) as real) == a as real + b as real;
    assert Gain(lim, a + b) == (a as real / 1000.0 + b as real / 1000.0) * lim.rate;
  }

  lemma GainMono(lim: Limits, a: int, b: int)
    requires lim.rate >= 0.0 && a <= b
    ensures Gain(lim, a) <= Gain(lim, b)
  {
    GainAdd(lim, a, b - a);
    assert (b - a) as real / 1000.0 >= 0.0;
  }

  /** One request later, every window has lost the admission and gained the refill. */
  lemma RoomStep(lim: Limits, times: seq<int>, i: nat, j: nat)
    requires i <= j && j + 1 < |times|
    ensures Room(lim, times, i, j + 1)
         == Room(lim, times, i, j) - Bit(Admits(lim, times, j)) as real + Gain(lim, Max(0, times[j + 1] - times[j]))
  {
    GainAdd(lim, Forward(times, i, j), Max(0, times[j + 1] - times[j]));
  }

  lemma LevelStep(lim: Limits, times: seq<int>, j: nat)
    requires j + 1 < |times|
    ensures Level(lim, times, j + 1)
         == MinReal(lim.burst, Level(lim, times, j) - Bit(Admits(lim, times, j)) as real
                               + Gain(lim, Max(0, times[j + 1] - times[j])))
  {
  }

  lemma RoomHere(lim: Limits, times: seq<int>, j: nat)
    requires j < |times|
    ensures Room(lim, times, j, j) == lim.burst
  {
    assert Gain(lim, 0) == 0.0;
  }

  /** The level is the least room of the windows that end here. */
  lemma {:induction false} LevelIsLeastRoom(lim: Limits, times: seq<int>, j: nat) returns (m: nat)
    requires j < |times|
    ensures m <= j && Level(lim, times, j) == Room(lim, times, m, j)
    ensures forall i | 0 <= i <= j :: Level(lim, times, j) <= Room(lim, times, i, j)
    decreases j
  {
    hide Room, Level, Admits, Gain;
    RoomHere(lim, times, j);
    if j == 0 {
      LevelAtStart(lim, times);
      m := 0;
    } else {
      m := LevelIsLeastRoom(lim, times, j - 1);
      LevelStep(lim, times, j - 1);
      RoomStep(lim, times, m, j - 1);
      forall i | 0 <= i <= j ensures Level(lim, times, j) <= Room(lim, times, i, j) {
        if i < j { RoomStep(lim, times, i, j - 1); }
      }
      if Room(lim, times, m, j) >= lim.burst { m := j; }
    }
  }

  lemma LevelAtStart(lim: Limits, times: seq<int>)
    requires |times| > 0
    ensures Level(lim, times, 0) == lim.burst
  {
    assert Gain(lim, 0) == 0.0;
  }

  /**
   Every window that ends at request j has room for it: for each i, the admissions of
   i, ..., j - 1 plus one are at most Burst + Rate * (forward time) / 1000.
   */
  ghost predicate HasRoom(lim: Limits, times: seq<int>, j: nat)
    requires j < |times|
  {
    forall i | 0 <= i <= j ::
      Admitted(lim, times, i, j) as real + 1.0 <= lim.burst + Gain(lim, Forward(times, i, j))
  }

  /** Request j is admitted exactly when every window that ends at it has room for it. */
  lemma AdmittedIffEveryWindowHasRoom(lim: Limits, times: seq<int>, j: nat)
    requires j < |times|
    ensures Admits(lim, times, j) <==> HasRoom(lim, times, j)
  {
    hide Admits, Level, Gain, Admitted, Forward;
    var m := LevelIsLeastRoom(lim, times, j);
    AdmitsByLevel(lim, times, j);
    if Admits(lim, times, j) {
      forall i | 0 <= i <= j
        ensures Admitted(lim, times, i, j) as real + 1.0 <= lim.burst + Gain(lim, Forward(times, i, j))
      {
        assert Room(lim, times, i, j) >= 1.0;
      }
    } else {
      assert Room(lim, times, m, j) < 1.0;
      assert Admitted(lim, times, m, j) as real + 1.0 > lim.burst + Gain(lim, Forward(times, m, j));
    }
  }

  lemma AdmitsByLevel(lim: Limits, times: seq<int>, j: nat)
    requires j < |times|
    ensures Admits(lim, times, j) <==> Level(lim, times, j) >= 1.0
  {
    hide Before, Gain;
  }

  lemma {:induction false} ForwardFacts(times: seq<int>, i: nat, k: nat, j: nat)
    requires i <= k <= j < |times|
    ensures 0 <= Forward(times, i, k) <= Forward(times, i, j)
    decreases j - i
  {
    if i < j {
      if k < j { ForwardFacts(times, i, k, j - 1); } else { ForwardFacts(times, i, k - 1, j - 1); }
    }
  }

  /** No window admits more than Burst + Rate * (forward time) / 1000. */
  lemma {:induction false} WindowBound(lim: Limits, times: seq<int>, i: nat, j: nat)
    requires i <= j < |times| && lim.rate >= 0.0 && lim.burst >= 0.0
    ensures Admitted(lim, times, i, j + 1) as real <= lim.burst + Gain(lim, Forward(times, i, j))
    decreases j - i
  {
    hide Admits;
    AdmittedIffEveryWindowHasRoom(lim, times, j);
    if !Admits(lim, times, j) {
      ForwardFacts(times, i, i, j);
      if i < j {
        WindowBound(lim, times, i, j - 1);
        ForwardFacts(times, i, j - 1, j);
        GainMono(lim, Forward(times, i, j - 1), Forward(times, i, j));
      } else {
        GainMono(lim, 0, Forward(times, i, j));
      }
    }
  }

  /** On a clock that never goes back, the forward time of a window is its length. */
  lemma {:induction false} ForwardOnSteadyClock(times: seq<int>, i: nat, j: nat)
    requires i <= j < |times| && forall a, b | 0 <= a <= b < |times| :: times[a] <= times[b]
    ensures Forward(times, i, j) == times[j] - times[i]
    decreases j - i
  {
    if i < j {
      ForwardOnSteadyClock(times, i, j - 1);
    }
  }

  // ------------------------------------------------------------------
  // RetryAfter
  // ------------------------------------------------------------------

  lemma CeilLeast(x: real, w: int)
    ensures w >= Ceil(x) <==> w as real >= x
  {
    var f := (-x).Floor;
    assert f as real <= -x < f as real + 1.0;
    if w >= -f {
      assert w as real >= (-f) as real;
    } else {
      assert w <= -f - 1;
      assert w as real <= (-f - 1) as real;
    }
  }

  /** Waiting w milliseconds refills at least `needed` exactly when w is at least needed / rate * 1000. */
  lemma GainReaches(lim: Limits, needed: real, w: int)
    requires lim.rate > 0.0
    ensures Gain(lim, w) >= needed <==> w as real >= needed / lim.rate * 1000.0
  {
    var x := w as real;
    var q := needed / lim.rate;
    assert needed == q * lim.rate;
    assert Gain(lim, w) - needed == (x / 1000.0 - q) * lim.rate;
    if x >= q * 1000.0 {
      assert x / 1000.0 - q >= 0.0;
    } else {
      assert x / 1000.0 - q < 0.0;
      assert (x / 1000.0 - q) * lim.rate < 0.0;
    }
  }

  /**
   After a denial an undisturbed retry w milliseconds later is admitted exactly when the
   bucket can hold a token at all and w is at least RetryAfter.
   */
  lemma RetryAfterIsExact(s: Bucket, lim: Limits, now: int, w: nat)
    requires !lim.Unlimited() && !Take(s, lim, now, 1.0).1.allowed
    ensures var (next, d) := Take(s, lim, now, 1.0);
            && d.retryMs > 0
            && (Take(next, lim, now + w, 1.0).1.allowed <==> lim.burst >= 1.0 && w >= d.retryMs)
  {
    var (next, d) := Take(s, lim, now, 1.0);
    var needed := 1.0 - next.tokens;
    assert needed > 0.0;
    GainReaches(lim, needed, w);
    GainReaches(lim, needed, 0);
    CeilLeast(needed / lim.rate * 1000.0, w);
    CeilLeast(needed / lim.rate * 1000.0, 0);
    assert Gain(lim, 0) == 0.0;
    assert Refill(next, lim, now + w) == MinReal(lim.burst, next.tokens + Gain(lim, w));
  }

  /** The bucket after k more requests at the same instant. */
  function Spent(s: Bucket, lim: Limits, now: int, k: nat): Bucket {
    if k == 0 then s else Take(Spent(s, lim, now, k - 1), lim, now, 1.0).0
  }

  lemma {:induction false} SpentTokens(s: Bucket, lim: Limits, now: int, k: nat)
    requires s.ts == now && s.tokens <= lim.burst && k as real <= s.tokens
    ensures Spent(s, lim, now, k) == Bucket(s.tokens - k as real, now)
    decreases k
  {
    if k > 0 {
      SpentTokens(s, lim, now, k - 1);
      assert Gain(lim, 0) == 0.0;
    }
  }

  /** Remaining is how many more requests at the same instant are admitted, and no more than that. */
  lemma RemainingIsExact(s: Bucket, lim: Limits, now: int, k: nat)
    requires k as real <= Take(s, lim, now, 1.0).1.remaining
    ensures var (next, d) := Take(s, lim, now, 1.0);
            && d.limit == lim.burst && (d.allowed ==> d.retryMs == 0)
            && (Take(Spent(next, lim, now, k), lim, now, 1.0).1.allowed <==> (k + 1) as real <= d.remaining)
  {
    var (next, d) := Take(s, lim, now, 1.0);
    SpentTokens(next, lim, now, k);
    assert Gain(lim, 0) == 0.0;
  }

  /** With a burst below one token RetryAfter is a promise the bucket never keeps. */
  lemma SmallBurstNeverAdmits(s: Bucket, lim: Limits, now: int)
    ensures lim.burst < 1.0 ==> !Take(s, lim, now, 1.0).1.allowed
  {
  }
}

/** The two limiters over a map of buckets (memory.go, redis.go). */
module Limiters {
  import opened Common
  import opened TokenBucket
  import ColdQuery

  const KEY_PREFIX := "ratelimit:ingest:"

  function BucketKey(tenant: string): Option<string> {
    if ColdQuery.IsUuid(tenant) then Some(KEY_PREFIX + tenant) else None
  }

  /** Who asks, and when. */
  datatype Request = Request(tenant: string, now: int)

  datatype Reply =
    | Invalid          // no usable tenant: fail closed
    | Exempt           // unlimited: admitted without a bucket
    | Decided(d: Decision)

  type Resolver = string -> Limits

  type Buckets = map<string, Bucket>

  function FreshOr(b: Buckets, key: string, lim: Limits, now: int): Bucket {
    if key in b then b[key] else Bucket(lim.burst, now)
  }

  /** One call of the in-memory limiter. */
  function MemoryStep(resolve: Resolver, b: Buckets, q: Request): (Buckets, Reply) {
    if BucketKey(q.tenant).None? then (b, Invalid)
    else
      var lim := resolve(q.tenant);
      if lim.Unlimited() then (b, Exempt)
      else
        var key := BucketKey(q.tenant).value;
        var (next, d) := Take(FreshOr(b, key, lim, q.now), lim, q.now, 1.0);
        (b[key := next], Decided(d))
  }

  /** Without a valid tenant the answer is a refusal; without a positive rate and burst there is no bucket at all. */
  lemma WhoIsLimited(resolve: Resolver, b: Buckets, q: Request)
    ensures var (next, r) := MemoryStep(resolve, b, q);
            && (r == Invalid <==> !ColdQuery.IsUuid(q.tenant))
            && (r == Exempt <==>
                  ColdQuery.IsUuid(q.tenant) && (resolve(q.tenant).rate <= 0.0 || resolve(q.tenant).burst <= 0.0))
            && (!r.Decided? ==> next == b)
            && (forall key | key in b && key != "ratelimit:ingest:" + q.tenant :: key in next && next[key] == b[key])
  {
    hide ColdQuery.IsUuid, Take;
  }

  class MemoryLimiter {
    const resolve: Resolver
    var buckets: Buckets

    constructor (resolve: Resolver)
      ensures this.resolve == resolve && buckets == map[]
    {
      this.resolve := resolve;
      buckets := map[];
    }

    method Allow(q: Request) returns (r: Reply)
      modifies this`buckets
      ensures (buckets, r) == MemoryStep(resolve, old(buckets), q)
    {
      if BucketKey(q.tenant).None? {
        return Invalid;
      }
      var lim := resolve(q.tenant);
      if lim.Unlimited() {
        return Exempt;
      }
      var key := BucketKey(q.tenant).value;
      var s: Bucket;
      if key in buckets {
        s := buckets[key];
      } else {
        s := Bucket(lim.burst, q.now);
      }
      var (next, d) := Take(s, lim, q.now, 1.0);
      buckets := buckets[key := next];
      return Decided(d);
    }
  }

  /** A hash in Redis and the time at which it expires. */
  datatype Stored = Stored(tokens: real, ts: int, expiresAt: int)

  type Store = map<string, Stored>

  function Ttl(lim: Limits): int
    requires lim.rate > 0.0
  {
    Ceil(lim.burst / lim.rate * 1000.0) + 1000
  }

  /** Redis may drop a key only once its time has come. */
  predicate MayVanish(st: Store, key: string, now: int) {
    key in st ==> now >= st[key].expiresAt
  }

  datatype Raw = Raw(allowed: bool, retryMs: int, remaining: int)

  /** The Lua script; `gone` says whether the key had expired by then. */
  function Script(st: Store, key: string, lim: Limits, now: int, gone: bool): (Store, Raw)
    requires lim.rate > 0.0
  {
    var (tokens0, ts) := if key in st && !gone then (st[key].tokens, st[key].ts) else (lim.burst, now);
    var elapsed := if now - ts < 0 then 0 else now - ts;
    var tokens := MinReal(lim.burst, tokens0 + Gain(lim, elapsed));
    var allowed := tokens >= 1.0;
    var left := if allowed then tokens - 1.0 else tokens;
    var retry := if allowed then 0 else Ceil((1.0 - tokens) / lim.rate * 1000.0);
    (st[key := Stored(left, now, now + Ttl(lim))], Raw(allowed, retry, left.Floor))
  }

  function RedisStep(resolve: Resolver, st: Store, q: Request, gone: bool): (Store, Reply) {
    if BucketKey(q.tenant).None? then (st, Invalid)
    else
      var lim := resolve(q.tenant);
      if lim.Unlimited() then (st, Exempt)
      else
        var (next, raw) := Script(st, BucketKey(q.tenant).value, lim, q.now, gone);
        (next, Decided(Decision(raw.allowed, raw.retryMs, lim.burst, raw.remaining as real)))
  }

  class RedisLimiter {
    const resolve: Resolver
    var store: Store

    constructor (resolve: Resolver)
      ensures this.resolve == resolve && store == map[]
    {
      this.resolve := resolve;
      store := map[];
    }

    /** One EVAL of the script: read or start full, refill, take, write back, re-arm the expiry. */
    method Allow(q: Request, gone: bool) returns (r: Reply)
      modifies this`store
      ensures (store, r) == RedisStep(resolve, old(store), q, gone)
    {
      if BucketKey(q.tenant).None? {
        return Invalid;
      }
      var lim := resolve(q.tenant);
      if lim.Unlimited() {
        return Exempt;
      }
      hide Gain, Ceil, ColdQuery.IsUuid;
      var key := BucketKey(q.tenant).value;
      var tokens, ts := lim.burst, q.now;
      if key in store && !gone {
        tokens, ts := store[key].tokens, store[key].ts;
      }
      var elapsed := q.now - ts;
      if elapsed < 0 {
        elapsed := 0;
      }
      tokens := MinReal(lim.burst, tokens + Gain(lim, elapsed));
      var allowed, retry := false, 0;
      if tokens >= 1.0 {
        tokens := tokens - 1.0;
        allowed := true;
      } else {
        retry := Ceil((1.0 - tokens) / lim.rate * 1000.0);
      }
      store := store[key := Stored(tokens, q.now, q.now + Ttl(lim))];
      return Decided(Decision(allowed, retry, lim.burst, tokens.Floor as real));
    }
  }

  // ------------------------------------------------------------------
  // The two forms agree
  // ------------------------------------------------------------------

  /** Same tokens and time stamps under the same keys, and the expiry the script armed. */
  ghost predicate Agree(resolve: Resolver, b: Buckets, st: Store) {
    && b.Keys == st.Keys
    && forall key | key in b ::
        && st[key].tokens == b[key].tokens && st[key].ts == b[key].ts && b[key].tokens >= 0.0
        && |KEY_PREFIX| <= |key|
        && var lim := resolve(key[|KEY_PREFIX|..]);
        && !lim.Unlimited() && st[key].expiresAt == b[key].ts + Ttl(lim)
  }

  /** The two answers: Redis reports the remaining tokens rounded down. */
  ghost predicate SameReply(m: Reply, r: Reply) {
    match (m, r)
    case (Decided(d), Decided(e)) =>
      d.allowed == e.allowed && d.retryMs == e.retryMs && d.limit == e.limit && e.remaining == d.remaining.Floor as real
    case _ => m == r
  }

  /**
   Left alone, a bucket is full a second before its TTL is up; an empty one not before. So the
   expiry comes one second after nothing can be lost by it.
   */
  lemma FullAfterTtl(lim: Limits, b: Bucket, now: int)
    requires !lim.Unlimited() && b.tokens >= 0.0 && now >= b.ts
    ensures now >= b.ts + Ttl(lim) - 1000 ==> Refill(b, lim, now) == lim.burst
    ensures b.tokens == 0.0 && Refill(b, lim, now) == lim.burst ==> now >= b.ts + Ttl(lim) - 1000
    ensures Ttl(lim) > 1000
  {
    CeilLeast(lim.burst / lim.rate * 1000.0, now - b.ts);
    GainReaches(lim, lim.burst, now - b.ts);
    assert lim.burst / lim.rate > 0.0;
    CeilLeast(lim.burst / lim.rate * 1000.0, 0);
  }

  /** What the script refills to is what `take` refills to. */
  lemma RefillsAgree(lim: Limits, s: Bucket, now: int, gone: bool)
    requires !lim.Unlimited() && s.tokens >= 0.0
    requires gone ==> now >= s.ts + Ttl(lim)
    ensures Refill(if gone then Bucket(lim.burst, now) else s, lim, now) == Refill(s, lim, now)
    ensures Refill(s, lim, now) >= 0.0
  {
    assert Gain(lim, 0) == 0.0;
    GainMono(lim, 0, Max(0, now - s.ts));
    if gone {
      FullAfterTtl(lim, s, now);
    }
  }

  lemma BucketsAgree(lim: Limits, b: Buckets, st: Store, key: string, now: int, gone: bool)
    requires !lim.Unlimited() && (key in b <==> key in st)
    requires key in b ==> b[key].tokens >= 0.0 && st[key].tokens == b[key].tokens && st[key].ts == b[key].ts
    requires key in b && gone ==> now >= b[key].ts + Ttl(lim)
    ensures var (next, d) := Take(FreshOr(b, key, lim, now), lim, now, 1.0);
            var (st', raw) := Script(st, key, lim, now, gone);
            && st' == st[key := Stored(next.tokens, now, now + Ttl(lim))] && next.ts == now && next.tokens >= 0.0
            && raw == Raw(d.allowed, d.retryMs, d.remaining.Floor) && d.limit == lim.burst
  {
    RefillsAgree(lim, FreshOr(b, key, lim, now), now, gone && key in b);
    hide Gain, Ceil, Ttl;
  }

  /** Writing the same bucket on both sides keeps them in agreement. */
  lemma AgreeWrite(resolve: Resolver, b: Buckets, st: Store, tenant: string, next: Bucket)
    requires Agree(resolve, b, st) && next.tokens >= 0.0 && !resolve(tenant).Unlimited()
    ensures Agree(resolve, b[KEY_PREFIX + tenant := next],
                  st[KEY_PREFIX + tenant := Stored(next.tokens, next.ts, next.ts + Ttl(resolve(tenant)))])
  {
    hide Ttl;
    var key := KEY_PREFIX + tenant;
    assert key[|KEY_PREFIX|..] == tenant;
  }

  lemma AgreeAt(resolve: Resolver, b: Buckets, st: Store, tenant: string)
    requires Agree(resolve, b, st)
    ensures var key := KEY_PREFIX + tenant;
            && (key in b <==> key in st)
            && (key in b ==>
                  && b[key].tokens >= 0.0 && st[key].tokens == b[key].tokens && st[key].ts == b[key].ts
                  && !resolve(tenant).Unlimited() && st[key].expiresAt == b[key].ts + Ttl(resolve(tenant)))
  {
    hide Ttl;
    assert (KEY_PREFIX + tenant)[|KEY_PREFIX|..] == tenant;
  }

  lemma StepsAgree(resolve: Resolver, b: Buckets, st: Store, q: Request, gone: bool)
    requires Agree(resolve, b, st)
    requires BucketKey(q.tenant).Some? && gone ==> MayVanish(st, BucketKey(q.tenant).value, q.now)
    ensures Agree(resolve, MemoryStep(resolve, b, q).0, RedisStep(resolve, st, q, gone).0)
    ensures SameReply(MemoryStep(resolve, b, q).1, RedisStep(resolve, st, q, gone).1)
  {
    hide Take, Script, ColdQuery.IsUuid, Ttl, Agree, FreshOr;
    var lim := resolve(q.tenant);
    if BucketKey(q.tenant).Some? && !lim.Unlimited() {
      var key := KEY_PREFIX + q.tenant;
      AgreeAt(resolve, b, st, q.tenant);
      BucketsAgree(lim, b, st, key, q.now, gone);
      AgreeWrite(resolve, b, st, q.tenant, Take(FreshOr(b, key, lim, q.now), lim, q.now, 1.0).0);
    }
  }

  function MemoryRun(resolve: Resolver, b: Buckets, qs: seq<Request>): (Buckets, seq<Reply>)
    decreases |qs|
  {
    if qs == [] then (b, [])
    else
      var (b1, r) := MemoryStep(resolve, b, qs[0]);
      var (b2, rs) := MemoryRun(resolve, b1, qs[1..]);
      (b2, [r] + rs)
  }

  function RedisRun(resolve: Resolver, st: Store, qs: seq<Request>, gone: seq<bool>): (Store, seq<Reply>)
    requires |gone| == |qs|
    decreases |qs|
  {
    if qs == [] then (st, [])
    else
      var (s1, r) := RedisStep(resolve, st, qs[0], gone[0]);
      var (s2, rs) := RedisRun(resolve, s1, qs[1..], gone[1..]);
      (s2, [r] + rs)
  }

  /** Along the run, keys vanish only when they may. */
  ghost predicate FairRun(resolve: Resolver, st: Store, qs: seq<Request>, gone: seq<bool>)
    requires |gone| == |qs|
    decreases |qs|
  {
    qs == [] ||
    (&& (BucketKey(qs[0].tenant).Some? && gone[0] ==> MayVanish(st, BucketKey(qs[0].tenant).value, qs[0].now))
     && FairRun(resolve, RedisStep(resolve, st, qs[0], gone[0]).0, qs[1..], gone[1..]))
  }

  /** The expiring Redis bucket and the everlasting in-memory one answer every run alike. */
  lemma {:induction false} RunsAgree(resolve: Resolver, b: Buckets, st: Store, qs: seq<Request>, gone: seq<bool>)
    requires |gone| == |qs| && Agree(resolve, b, st) && FairRun(resolve, st, qs, gone)
    ensures var ms := MemoryRun(resolve, b, qs).1;
            var rs := RedisRun(resolve, st, qs, gone).1;
            |ms| == |rs| == |qs| && forall k | 0 <= k < |qs| :: SameReply(ms[k], rs[k])
    decreases |qs|
  {
    hide MemoryStep, RedisStep, Agree, SameReply, MayVanish;
    if qs != [] {
      StepsAgree(resolve, b, st, qs[0], gone[0]);
      RunsAgree(resolve, MemoryStep(resolve, b, qs[0]).0, RedisStep(resolve, st, qs[0], gone[0]).0, qs[1..], gone[1..]);
    }
  }

  // ------------------------------------------------------------------
  // Tenants do not disturb each other
  // ------------------------------------------------------------------

  function Only(qs: seq<Request>, tenant: string): seq<Request>
    decreases |qs|
  {
    if qs == [] then []
    else if qs[0].tenant == tenant then [qs[0]] + Only(qs[1..], tenant) else Only(qs[1..], tenant)
  }

  /** The answers given to one tenant, in order. */
  function AnswersTo(qs: seq<Request>, rs: seq<Reply>, tenant: string): seq<Reply>
    requires |qs| == |rs|
    decreases |qs|
  {
    if qs == [] then []
    else
      var rest := AnswersTo(qs[1..], rs[1..], tenant);
      if qs[0].tenant == tenant then [rs[0]] + rest else rest
  }

  ghost predicate SameBucket(b: Buckets, c: Buckets, tenant: string) {
    var key := KEY_PREFIX + tenant;
    (key in b <==> key in c) && (key in b ==> b[key] == c[key])
  }

  lemma StepIsolated(resolve: Resolver, b: Buckets, c: Buckets, q: Request, tenant: string)
    requires SameBucket(b, c, tenant)
    ensures q.tenant == tenant ==>
              && MemoryStep(resolve, b, q).1 == MemoryStep(resolve, c, q).1
              && SameBucket(MemoryStep(resolve, b, q).0, MemoryStep(resolve, c, q).0, tenant)
    ensures q.tenant != tenant ==> SameBucket(MemoryStep(resolve, b, q).0, c, tenant)
  {
    hide Take, ColdQuery.IsUuid;
    if KEY_PREFIX + q.tenant == KEY_PREFIX + tenant {
      assert (KEY_PREFIX + q.tenant)[|KEY_PREFIX|..] == q.tenant;
      assert (KEY_PREFIX + tenant)[|KEY_PREFIX|..] == tenant;
    }
  }

  lemma {:induction false} RunLength(resolve: Resolver, b: Buckets, qs: seq<Request>)
    ensures |MemoryRun(resolve, b, qs).1| == |qs|
    decreases |qs|
  {
    hide MemoryStep;
    if qs != [] {
      RunLength(resolve, MemoryStep(resolve, b, qs[0]).0, qs[1..]);
    }
  }

  /** A tenant's answers in a shared run are those of a run of its own requests alone. */
  lemma {:induction false} TenantsAreIsolated(resolve: Resolver, b: Buckets, c: Buckets, qs: seq<Request>,
                                              tenant: string)
    requires SameBucket(b, c, tenant)
    ensures |MemoryRun(resolve, b, qs).1| == |qs|
    ensures AnswersTo(qs, MemoryRun(resolve, b, qs).1, tenant) == MemoryRun(resolve, c, Only(qs, tenant)).1
    decreases |qs|
  {
    hide MemoryStep, SameBucket;
    RunLength(resolve, b, qs);
    if qs != [] {
      var q := qs[0];
      StepIsolated(resolve, b, c, q, tenant);
      var b1 := MemoryStep(resolve, b, q).0;
      var rs := MemoryRun(resolve, b, qs).1;
      assert rs[1..] == MemoryRun(resolve, b1, qs[1..]).1;
      if q.tenant == tenant {
        TenantsAreIsolated(resolve, b1, MemoryStep(resolve, c, q).0, qs[1..], tenant);
        assert ([q] + Only(qs[1..], tenant))[1..] == Only(qs[1..], tenant);
      } else {
        TenantsAreIsolated(resolve, b1, c, qs[1..], tenant);
      }
    }
  }

  // ------------------------------------------------------------------
  // What one tenant gets out of the shared, expiring store
  // ------------------------------------------------------------------

  function Times(qs: seq<Request>): seq<int> {
    seq(|qs|, i requires 0 <= i < |qs| => qs[i].now)
  }

  predicate Limited(resolve: Resolver, tenant: string) {
    ColdQuery.IsUuid(tenant) && !resolve(tenant).Unlimited()
  }

  /** The in-memory limiter on one tenant's requests is the bucket of the arithmetic, request by request. */
  lemma {:induction false} OneTenantRun(resolve: Resolver, tenant: string, qs: seq<Request>, b: Buckets, done: nat)
    requires Limited(resolve, tenant) && done <= |qs| && forall k | 0 <= k < |qs| :: qs[k].tenant == tenant
    requires KEY_PREFIX + tenant in b <==> done > 0
    requires 0 < done < |qs| ==> b[KEY_PREFIX + tenant] == Before(resolve(tenant), Times(qs), done)
    ensures var rs := MemoryRun(resolve, b, qs[done..]).1;
            && |rs| == |qs| - done
            && forall k | 0 <= k < |rs| ::
                rs[k] == Decided(
                  Take(Before(resolve(tenant), Times(qs), done + k), resolve(tenant), qs[done + k].now, 1.0).1)
    decreases |qs| - done
  {
    hide Take, ColdQuery.IsUuid, Limits.Unlimited;
    var lim := resolve(tenant);
    var times := Times(qs);
    if done < |qs| {
      var key := KEY_PREFIX + tenant;
      var q := qs[done];
      var before := Before(lim, times, done);
      assert FreshOr(b, key, lim, q.now) == before;
      var b1 := b[key := Take(before, lim, q.now, 1.0).0];
      assert MemoryStep(resolve, b, q) == (b1, Decided(Take(before, lim, q.now, 1.0).1));
      assert qs[done..][0] == q && qs[done..][1..] == qs[done + 1..];
      OneTenantRun(resolve, tenant, qs, b1, done + 1);
    }
  }

  lemma {:induction false} OnlyIts(qs: seq<Request>, tenant: string)
    ensures forall k | 0 <= k < |Only(qs, tenant)| :: Only(qs, tenant)[k].tenant == tenant
    decreases |qs|
  {
    if qs != [] {
      OnlyIts(qs[1..], tenant);
    }
  }

  lemma {:induction false} AnswersAgree(qs: seq<Request>, ms: seq<Reply>, rs: seq<Reply>, tenant: string)
    requires |ms| == |rs| == |qs| && forall k | 0 <= k < |qs| :: SameReply(ms[k], rs[k])
    ensures var a := AnswersTo(qs, ms, tenant);
            var c := AnswersTo(qs, rs, tenant);
            |a| == |c| && forall k | 0 <= k < |a| :: SameReply(a[k], c[k])
    decreases |qs|
  {
    hide SameReply;
    if qs != [] {
      AnswersAgree(qs[1..], ms[1..], rs[1..], tenant);
    }
  }

  /** The answers of the shared store to one tenant are the decisions of that tenant's own bucket. */
  lemma SharedAnswers(resolve: Resolver, qs: seq<Request>, gone: seq<bool>, tenant: string)
    requires |gone| == |qs| && FairRun(resolve, map[], qs, gone) && Limited(resolve, tenant)
    ensures |RedisRun(resolve, map[], qs, gone).1| == |qs|
    ensures var own := Only(qs, tenant);
            var rs := AnswersTo(qs, RedisRun(resolve, map[], qs, gone).1, tenant);
            && |rs| == |own|
            && forall j | 0 <= j < |rs| ::
                SameReply(
                  Decided(Take(Before(resolve(tenant), Times(own), j), resolve(tenant), own[j].now, 1.0).1), rs[j])
  {
    hide RedisStep, MemoryStep, Limited, Take, FairRun, SameReply, Before, Times;
    var own := Only(qs, tenant);
    RunsAgree(resolve, map[], map[], qs, gone);
    AnswersAgree(qs, MemoryRun(resolve, map[], qs).1, RedisRun(resolve, map[], qs, gone).1, tenant);
    TenantsAreIsolated(resolve, map[], map[], qs, tenant);
    OnlyIts(qs, tenant);
    hide *;
    assert own[0..] == own;
    OneTenantRun(resolve, tenant, own, map[], 0);
  }

  /**
   In a shared, expiring store, among any other tenants' traffic, a tenant's request is
   admitted exactly when every window of its own requests that ends at it has room.
   */
  lemma SharedStoreAdmits(resolve: Resolver, qs: seq<Request>, gone: seq<bool>, tenant: string)
    requires |gone| == |qs| && FairRun(resolve, map[], qs, gone) && Limited(resolve, tenant)
    ensures |RedisRun(resolve, map[], qs, gone).1| == |qs|
    ensures var times := Times(Only(qs, tenant));
            var rs := AnswersTo(qs, RedisRun(resolve, map[], qs, gone).1, tenant);
            && |rs| == |times|
            && forall j | 0 <= j < |rs| :: rs[j].Decided? && (rs[j].d.allowed <==> HasRoom(resolve(tenant), times, j))
  {
    hide FairRun, Limited, RedisRun, AnswersTo, Only, HasRoom, Take, Before;
    var own := Only(qs, tenant);
    var times := Times(own);
    SharedAnswers(resolve, qs, gone, tenant);
    var rs := AnswersTo(qs, RedisRun(resolve, map[], qs, gone).1, tenant);
    forall j | 0 <= j < |rs| ensures rs[j].Decided? && (rs[j].d.allowed <==> HasRoom(resolve(tenant), times, j)) {
      AdmittedIffEveryWindowHasRoom(resolve(tenant), times, j);
    }
  }
}
