/** Whole runs of the token buckets: the object, the equivalence of the two scripts, and when expiry shows. */
module TokenBucketRuns {
  import opened TokenBucket

  /**
   * One call: the caller's clock reading, Redis's time, the cost, and whether Redis drops a key whose
   * deadline has passed just before it.
   */
  datatype Request = Request(now: real, at: real, cost: real, drop: bool)

  datatype Script = Stream | Api

  /** What the script finds: nothing, if the key's deadline has passed and Redis has dropped it. */
  function Found(e: Option<Entry>, r: Request): Option<Entry> {
    if r.drop && e.Some? && e.value.expiresAt <= r.at then None else e
  }

  /** A script on the entry it finds. */
  function Call(script: Script, e: Option<Entry>, max: real, rate: real, r: Request): (Option<Entry>, Reply)
    requires rate > 0.0
  {
    match script
    case Stream => StreamStep(e, max, rate, r.now, r.at, r.cost)
    case Api => ApiStep(e, max, rate, r.now, r.at, r.cost)
  }

  function Step(script: Script, e: Option<Entry>, max: real, rate: real, r: Request): (Option<Entry>, Reply)
    requires rate > 0.0
  {
    Call(script, Found(e, r), max, rate, r)
  }

  function Replies(script: Script, e: Option<Entry>, max: real, rate: real, rs: seq<Request>): (replies: seq<Reply>)
    requires rate > 0.0
    ensures |replies| == |rs|
    decreases |rs|
  {
    if rs == [] then [] else
      var (e', reply) := Step(script, e, max, rate, rs[0]);
      [reply] + Replies(script, e', max, rate, rs[1..])
  }

  function Final(script: Script, e: Option<Entry>, max: real, rate: real, rs: seq<Request>): Option<Entry>
    requires rate > 0.0
    decreases |rs|
  {
    if rs == [] then e else Final(script, Step(script, e, max, rate, rs[0]).0, max, rate, rs[1..])
  }

  function Spent(reply: Reply, cost: real): real {
    if reply.allowed then cost else 0.0
  }

  /** Tokens granted by a run. */
  function Granted(script: Script, e: Option<Entry>, max: real, rate: real, rs: seq<Request>): real
    requires rate > 0.0
    decreases |rs|
  {
    if rs == [] then 0.0 else
      var (e', reply) := Step(script, e, max, rate, rs[0]);
      Spent(reply, rs[0].cost) + Granted(script, e', max, rate, rs[1..])
  }

  /** One request: Redis drops the key or not, and runs the script. */
  method Serve(redis: Redis, script: Script, key: string, max: real, rate: real, r: Request) returns (reply: Reply)
    requires rate > 0.0
    modifies redis
    ensures (redis.At(key), reply) == Step(script, old(redis.At(key)), max, rate, r)
  {
    if r.drop {
      redis.Expire(key, r.at);
    }
    assert redis.At(key) == Found(old(redis.At(key)), r);
    match script {
      case Stream =>
        var result := redis.StreamScript(key, max, rate, r.now, r.cost, r.at);
        reply := Reply(result == 1, 0);
      case Api =>
        reply := redis.ApiScript(key, max, rate, r.now, r.cost, r.at);
    }
  }

  /** The object answers, and ends, as the functions on runs say. */
  method Execute(script: Script, key: string, max: real, rate: real, rs: seq<Request>)
    returns (redis: Redis, replies: seq<Reply>)
    requires rate > 0.0
    ensures fresh(redis) && redis.At(key) == Final(script, None, max, rate, rs)
    ensures replies == Replies(script, None, max, rate, rs)
  {
    hide Step;
    redis := new Redis();
    replies := [];
    assert rs[0..] == rs;
    for i := 0 to |rs|
      invariant fresh(redis)
      invariant Final(script, redis.At(key), max, rate, rs[i..]) == Final(script, None, max, rate, rs)
      invariant replies + Replies(script, redis.At(key), max, rate, rs[i..]) == Replies(script, None, max, rate, rs)
    {
      assert rs[i..][0] == rs[i] && rs[i..][1..] == rs[i + 1..];
      var reply := Serve(redis, script, key, max, rate, rs[i]);
      replies := replies + [reply];
    }
  }

  /** The callers' readings do not fall. */
  ghost predicate Nondecreasing(rs: seq<Request>) {
    forall i, j :: 0 <= i < j < |rs| ==> rs[i].now <= rs[j].now
  }

  ghost predicate SameCalls(rs: seq<Request>, ss: seq<Request>) {
    && |rs| == |ss|
    && forall i :: 0 <= i < |rs| ==> rs[i].now == ss[i].now && rs[i].cost == ss[i].cost
  }

  ghost predicate NeverDropped(rs: seq<Request>) {
    forall i :: 0 <= i < |rs| ==> !rs[i].drop
  }

  ghost predicate SameDecisions(xs: seq<Reply>, ys: seq<Reply>) {
    && |xs| == |ys|
    && forall i :: 0 <= i < |xs| ==> xs[i].allowed == ys[i].allowed
  }

  // ---------------------------------------------------------------- the two clocks

  /** How far callers' clocks may be from Redis's: from low to high seconds ahead of it. */
  datatype Skew = Skew(low: real, high: real)

  predicate InSkew(k: Skew, now: real, at: real) {
    at + k.low <= now <= at + k.high
  }

  /** How far two callers may be apart. Where all clocks are one it is 0. */
  function Spread(k: Skew): real {
    k.high - k.low
  }

  /** Redis's clock does not fall, and callers' clocks are within the skew of it. */
  ghost predicate Timed(rs: seq<Request>, k: Skew) {
    && (forall i, j :: 0 <= i < j < |rs| ==> rs[i].at <= rs[j].at)
    && forall i :: 0 <= i < |rs| ==> InSkew(k, rs[i].now, rs[i].at)
  }

  // ---------------------------------------------------------------- refills

  lemma TimesMonotone(a: real, b: real, rate: real)
    requires a <= b && rate >= 0.0
    ensures a * rate <= b * rate
  {
    assert (b - a) * rate >= 0.0;
  }

  lemma RefillInRange(max: real, tokens: real, elapsed: real, rate: real)
    requires max >= 0.0 && tokens >= 0.0 && elapsed >= 0.0 && rate >= 0.0
    ensures 0.0 <= Refill(max, tokens, elapsed, rate) <= max
  {
    assert elapsed * rate >= 0.0;
  }

  lemma FullAfter(max: real, tokens: real, enough: real, elapsed: real, rate: real)
    requires tokens >= 0.0 && rate > 0.0 && enough <= elapsed && enough * rate >= max
    ensures Refill(max, tokens, elapsed, rate) == max
  {
    TimesMonotone(enough, elapsed, rate);
  }

  /** Refilling in two steps, capping both times, is refilling once. */
  lemma Collapse(tokens: real, max: real, rate: real, d1: real, d2: real)
    requires rate >= 0.0 && d2 >= 0.0
    ensures Refill(max, Refill(max, tokens, d1, rate), d2, rate) == Refill(max, tokens, d1 + d2, rate)
  {
    assert d2 * rate >= 0.0;
    assert (d1 + d2) * rate == d1 * rate + d2 * rate;
  }

  /** The entry holds the given level at time t and was last refilled no later. */
  ghost predicate Holds(e: Option<Entry>, max: real, rate: real, t: real, level: real) {
    && ApiLevel(e, max, rate, t) == level
    && (e.Some? ==> e.value.lastRefill <= t)
  }

  lemma HoldsLater(e: Option<Entry>, max: real, rate: real, t: real, level: real, t': real)
    requires rate > 0.0 && t <= t' && Holds(e, max, rate, t, level)
    ensures Holds(e, max, rate, t', Refill(max, level, t' - t, rate))
  {
    match e
    case None =>
      TimesMonotone(0.0, t' - t, rate);
    case Some(b) =>
      Collapse(b.tokens, max, rate, t - b.lastRefill, t' - t);
      assert (t - b.lastRefill) + (t' - t) == t' - b.lastRefill;
  }

  /** What a script answers depends on the level alone. */
  function Answer(script: Script, level: real, rate: real, cost: real): Reply
    requires rate > 0.0
  {
    Reply(level >= cost, if script.Api? && level < cost then Wait(cost - level, rate) else 0)
  }

  lemma CallAtLevel(script: Script, e: Option<Entry>, max: real, rate: real, level: real, r: Request)
    requires rate > 0.0 && Holds(e, max, rate, r.now, level)
    ensures var (e', reply) := Call(script, e, max, rate, r);
            && reply == Answer(script, level, rate, r.cost)
            && Holds(e', max, rate, r.now, if level >= r.cost then Min(max, level - r.cost) else level)
  {
    hide Wait, ApiTtl;
    assert forall x :: Refill(max, x, 0.0, rate) == Min(max, x) by {
      assert 0.0 * rate == 0.0;
    }
    assert r.now - r.now == 0.0;
  }

  // ---------------------------------------------------------------- expiry

  function Ttl(script: Script, max: real, rate: real): real
    requires rate > 0.0
  {
    if script.Stream? then STREAM_TTL else ApiTtl(max, rate)
  }

  /** The TTL, less what callers' clocks may be apart, fills the bucket. */
  predicate Outlasts(script: Script, max: real, rate: real, k: Skew)
    requires rate > 0.0
  {
    (Ttl(script, max, rate) - Spread(k)) * rate >= max
  }

  predicate TtlSuffices(script: Script, max: real, rate: real, k: Skew)
    requires rate > 0.0
  {
    max == 0.0 || Outlasts(script, max, rate, k)
  }

  /** Nothing is overdrawn, and whoever finds the key gone reads a time at which the bucket is full. */
  ghost predicate Durable(e: Option<Entry>, max: real, rate: real, k: Skew) {
    e.Some? ==>
      && e.value.tokens >= 0.0
      && (max == 0.0 || (e.value.expiresAt + k.low - e.value.lastRefill) * rate >= max)
  }

  lemma ApiTtlIsTwice(max: real, rate: real)
    requires rate > 0.0 && max >= 0.0
    ensures ApiTtl(max, rate) >= 2.0 * (max / rate) && max / rate >= 0.0 && max / rate * rate == max
  {
    var q := max / rate;
    assert q * rate == max;
    assert Ceil(q) as real >= q;
    if q < 0.0 {
      TimesMonotone(q, 0.0, rate);
    }
  }

  /** The stand-alone limiter's TTL bears clocks that are apart by as long as a bucket takes to fill. */
  lemma ApiTtlOutlasts(max: real, rate: real, k: Skew)
    requires rate > 0.0 && max >= 0.0 && Spread(k) <= max / rate
    ensures Outlasts(Api, max, rate, k)
  {
    ApiTtlIsTwice(max, rate);
    TimesMonotone(max / rate, ApiTtl(max, rate) - Spread(k), rate);
  }

  /** The middleware's rate, maxPerHour/3600, fills the bucket in half the TTL, so clocks may be an hour apart. */
  lemma StreamRateLimitOutlasts(maxPerHour: int, k: Skew)
    requires maxPerHour > 0
    ensures Outlasts(Stream, maxPerHour as real, maxPerHour as real / 3600.0, k) <==> Spread(k) <= 3600.0
  {
    var m, d := maxPerHour as real, STREAM_TTL - Spread(k);
    assert d * (m / 3600.0) == d / 3600.0 * m;
    if d >= 3600.0 {
      TimesMonotone(1.0, d / 3600.0, m);
    } else {
      assert (1.0 - d / 3600.0) * m > 0.0;
    }
  }

  lemma LevelNonNegative(e: Option<Entry>, max: real, rate: real, t: real, level: real, k: Skew)
    requires rate > 0.0 && max >= 0.0 && Durable(e, max, rate, k) && Holds(e, max, rate, t, level)
    ensures level >= 0.0
  {
    if e.Some? {
      RefillInRange(max, e.value.tokens, t - e.value.lastRefill, rate);
    }
  }

  /** What a call writes is durable. */
  lemma WrittenDurable(script: Script, e: Option<Entry>, max: real, rate: real, k: Skew, r: Request)
    requires rate > 0.0 && max >= 0.0 && TtlSuffices(script, max, rate, k) && InSkew(k, r.now, r.at)
    requires e.Some? && e.value.tokens >= 0.0
    requires e.value.lastRefill == r.now && e.value.expiresAt == r.at + Ttl(script, max, rate)
    ensures Durable(e, max, rate, k)
  {
    hide Ttl;
    TimesMonotone(Ttl(script, max, rate) - Spread(k), e.value.expiresAt + k.low - e.value.lastRefill, rate);
  }

  lemma CallDurable(script: Script, e: Option<Entry>, max: real, rate: real, level: real, k: Skew, r: Request)
    requires rate > 0.0 && max >= 0.0 && TtlSuffices(script, max, rate, k) && InSkew(k, r.now, r.at)
    requires Durable(e, max, rate, k) && Holds(e, max, rate, r.now, level)
    ensures Durable(Call(script, e, max, rate, r).0, max, rate, k)
  {
    LevelNonNegative(e, max, rate, r.now, level, k);
    CallAtLevel(script, e, max, rate, level, r);
    hide Refill, ApiTtl, ApiLevel, StreamLevel, Durable;
    var e' := Call(script, e, max, rate, r).0;
    if e' != e {
      WrittenDurable(script, e', max, rate, k, r);
    }
  }

  /** A key dropped after its deadline held a full bucket, which is what an absent key stands for. */
  lemma DropInvisible(e: Option<Entry>, max: real, rate: real, level: real, k: Skew, r: Request)
    requires rate > 0.0 && Holds(e, max, rate, r.now, level)
    requires !r.drop || (Durable(e, max, rate, k) && InSkew(k, r.now, r.at))
    ensures Holds(Found(e, r), max, rate, r.now, level)
  {
    if Found(e, r) != e {
      var b := e.value;
      var enough := if max == 0.0 then 0.0 else b.expiresAt + k.low - b.lastRefill;
      assert 0.0 * rate == 0.0;
      FullAfter(max, b.tokens, enough, r.now - b.lastRefill, rate);
    }
  }

  // ---------------------------------------------------------------- main results: equivalence

  /** Dropped keys are covered: none is dropped, or the clocks are timed and the TTL is long enough for them. */
  ghost predicate DropsCovered(script: Script, max: real, rate: real, k: Skew, rs: seq<Request>)
    requires rate > 0.0
  {
    NeverDropped(rs) || (max >= 0.0 && Timed(rs, k) && TtlSuffices(script, max, rate, k))
  }

  /** Covered, and what the key holds already is durable. */
  ghost predicate Covered(script: Script, e: Option<Entry>, max: real, rate: real, k: Skew, rs: seq<Request>)
    requires rate > 0.0
  {
    NeverDropped(rs) || (DropsCovered(script, max, rate, k, rs) && Durable(e, max, rate, k))
  }

  lemma CoveredOne(script: Script, e: Option<Entry>, max: real, rate: real, k: Skew, rs: seq<Request>, level: real)
    requires rate > 0.0 && rs != [] && Covered(script, e, max, rate, k, rs) && Holds(e, max, rate, rs[0].now, level)
    ensures Holds(Found(e, rs[0]), max, rate, rs[0].now, level)
    ensures Covered(script, Step(script, e, max, rate, rs[0]).0, max, rate, k, rs[1..])
  {
    hide Durable, TtlSuffices, Call, ApiLevel, InSkew, Found;
    var r := rs[0];
    if NeverDropped(rs) {
      NotDropped(e, r);
    } else {
      DropInvisible(e, max, rate, level, k, r);
      FoundDurable(e, max, rate, k, r);
      CallDurable(script, Found(e, r), max, rate, level, k, r);
    }
  }

  lemma NotDropped(e: Option<Entry>, r: Request)
    requires !r.drop
    ensures Found(e, r) == e
  {
  }

  lemma FoundDurable(e: Option<Entry>, max: real, rate: real, k: Skew, r: Request)
    requires Durable(e, max, rate, k)
    ensures Durable(Found(e, r), max, rate, k)
  {
  }

  /**
   * Two scripts, or one script and a Redis that drops keys at other times, that hold the same level answer alike
   * as long as the callers' readings do not fall.
   */
  lemma {:induction false} Simulation(sa: Script, a: Option<Entry>, ka: Skew, rs: seq<Request>,
                                      sb: Script, b: Option<Entry>, kb: Skew, ss: seq<Request>,
                                      max: real, rate: real, t: real, level: real)
    requires rate > 0.0 && SameCalls(rs, ss) && Nondecreasing(rs) && (rs != [] ==> t <= rs[0].now)
    requires Holds(a, max, rate, t, level) && Holds(b, max, rate, t, level)
    requires Covered(sa, a, max, rate, ka, rs) && Covered(sb, b, max, rate, kb, ss)
    ensures SameDecisions(Replies(sa, a, max, rate, rs), Replies(sb, b, max, rate, ss))
    ensures sa == sb ==> Replies(sa, a, max, rate, rs) == Replies(sb, b, max, rate, ss)
    decreases |rs|
  {
    hide Step, Holds, Covered, Nondecreasing;
    if rs != [] {
      var r, s := rs[0], ss[0];
      Tails(rs, ss);
      var level1 := SimulationStep(sa, a, ka, rs, r, max, rate, t, level);
      var level2 := SimulationStep(sb, b, kb, ss, s, max, rate, t, level);
      Simulation(sa, Step(sa, a, max, rate, r).0, ka, rs[1..], sb, Step(sb, b, max, rate, s).0, kb, ss[1..],
                 max, rate, r.now, level1);
    }
  }

  lemma Tails(rs: seq<Request>, ss: seq<Request>)
    requires SameCalls(rs, ss) && Nondecreasing(rs) && rs != []
    ensures |rs| == |ss| && SameCalls(rs[1..], ss[1..]) && rs[0].now == ss[0].now && rs[0].cost == ss[0].cost
    ensures Nondecreasing(rs[1..]) && (rs[1..] != [] ==> rs[0].now <= rs[1..][0].now)
  {
  }

  /** One call, on a level that is known: the reply, and the level after it, depend on nothing else. */
  lemma SimulationStep(script: Script, e: Option<Entry>, k: Skew, rs: seq<Request>, r: Request,
                       max: real, rate: real, t: real, level: real) returns (after: real)
    requires rate > 0.0 && rs != [] && r == rs[0] && t <= r.now
    requires Holds(e, max, rate, t, level) && Covered(script, e, max, rate, k, rs)
    ensures var level1 := Refill(max, level, r.now - t, rate);
            && after == (if level1 >= r.cost then Min(max, level1 - r.cost) else level1)
            && Step(script, e, max, rate, r).1 == Answer(script, level1, rate, r.cost)
    ensures Holds(Step(script, e, max, rate, r).0, max, rate, r.now, after)
    ensures Covered(script, Step(script, e, max, rate, r).0, max, rate, k, rs[1..])
  {
    hide Call, Found, Holds, Covered;
    var level1 := Refill(max, level, r.now - t, rate);
    HoldsLater(e, max, rate, t, level, r.now);
    CoveredOne(script, e, max, rate, k, rs, level1);
    CallAtLevel(script, Found(e, r), max, rate, level1, r);
    after := if level1 >= r.cost then Min(max, level1 - r.cost) else level1;
  }

  /** From an absent key. */
  lemma SimulationFromStart(sa: Script, ka: Skew, rs: seq<Request>, sb: Script, kb: Skew, ss: seq<Request>,
                            max: real, rate: real)
    requires rate > 0.0 && SameCalls(rs, ss) && Nondecreasing(rs)
    requires DropsCovered(sa, max, rate, ka, rs) && DropsCovered(sb, max, rate, kb, ss)
    ensures SameDecisions(Replies(sa, None, max, rate, rs), Replies(sb, None, max, rate, ss))
    ensures sa == sb ==> Replies(sa, None, max, rate, rs) == Replies(sb, None, max, rate, ss)
  {
    Simulation(sa, None, ka, rs, sb, None, kb, ss, max, rate, if rs == [] then 0.0 else rs[0].now, max);
  }

  /**
   * The script that writes on denial and the one that does not make the same decisions while the callers' readings do
   * not fall, also if each drops its key at times of its own.
   */
  lemma ScriptsEquivalent(max: real, rate: real, k: Skew, rs: seq<Request>, ss: seq<Request>)
    requires rate > 0.0 && SameCalls(rs, ss) && Nondecreasing(rs)
    requires DropsCovered(Stream, max, rate, k, rs) && DropsCovered(Api, max, rate, k, ss)
    ensures SameDecisions(Replies(Stream, None, max, rate, rs), Replies(Api, None, max, rate, ss))
  {
    SimulationFromStart(Stream, k, rs, Api, k, ss, max, rate);
  }

  // ---------------------------------------------------------------- main results: a burst

  /** n requests of one token each, at one moment. */
  function AtOnce(t: real, n: nat): seq<Request> {
    if n == 0 then [] else [Request(t, t, 1.0, false)] + AtOnce(t, n - 1)
  }

  lemma {:induction false} BurstFrom(script: Script, e: Option<Entry>, max: real, rate: real, t: real, n: nat)
    requires rate > 0.0 && n as real <= max && Holds(e, max, rate, t, n as real)
    ensures var replies := Replies(script, e, max, rate, AtOnce(t, n + 1));
            |replies| == n + 1 && forall i :: 0 <= i <= n ==> (replies[i].allowed <==> i < n)
    decreases n
  {
    hide Call, Holds;
    var r, rs := Request(t, t, 1.0, false), AtOnce(t, n + 1);
    assert rs[0] == r && rs[1..] == AtOnce(t, n);
    CallAtLevel(script, e, max, rate, n as real, r);
    NotDropped(e, r);
    if n > 0 {
      assert n as real - 1.0 == (n - 1) as real;
      BurstFrom(script, Step(script, e, max, rate, r).0, max, rate, t, n - 1);
    }
  }

  /** Either script lets exactly a bucketful of requests through at one moment: the first max, and not the next. */
  lemma FullBucketBurst(script: Script, max: nat, rate: real, t: real)
    requires rate > 0.0
    ensures var replies := Replies(script, None, max as real, rate, AtOnce(t, max + 1));
            |replies| == max + 1 && forall i :: 0 <= i <= max ==> (replies[i].allowed <==> i < max)
  {
    BurstFrom(script, None, max as real, rate, t, max);
  }

  // ---------------------------------------------------------------- main results: when expiry shows

  /** The same calls on a Redis that never drops the key. */
  function Undropped(rs: seq<Request>): (ss: seq<Request>)
    ensures SameCalls(rs, ss) && NeverDropped(ss)
  {
    seq(|rs|, i requires 0 <= i < |rs| => rs[i].(drop := false))
  }

  /** On all runs, waiting times included, it makes no difference whether Redis drops overdue keys. */
  ghost predicate HidesExpiry(script: Script, max: real, rate: real, k: Skew)
    requires rate > 0.0
  {
    forall rs: seq<Request> :: Nondecreasing(rs) && Timed(rs, k) ==>
      Replies(script, None, max, rate, rs) == Replies(script, None, max, rate, Undropped(rs))
  }

  /** Expiry is hidden exactly when the TTL, less what callers' clocks may be apart, fills the bucket. */
  lemma ExpiryInvisibleIff(script: Script, max: real, rate: real, k: Skew)
    requires rate > 0.0 && max >= 0.0 && k.low <= k.high
    ensures HidesExpiry(script, max, rate, k) <==> TtlSuffices(script, max, rate, k)
  {
    if TtlSuffices(script, max, rate, k) {
      forall rs: seq<Request> | Nondecreasing(rs) && Timed(rs, k)
        ensures Replies(script, None, max, rate, rs) == Replies(script, None, max, rate, Undropped(rs))
      {
        SimulationFromStart(script, k, rs, script, k, Undropped(rs), max, rate);
      }
    } else {
      var rs := ExpiryShows(script, max, rate, k);
    }
  }

  /** Two full grants: the reading of the second, Redis's clock having passed the deadline. */
  function SecondReading(script: Script, max: real, rate: real, k: Skew): real
    requires rate > 0.0
  {
    Max(k.high, Ttl(script, max, rate) + k.low)
  }

  function TwiceFull(script: Script, max: real, rate: real, k: Skew): seq<Request>
    requires rate > 0.0
  {
    [Request(k.high, 0.0, max, false), Request(SecondReading(script, max, rate, k), Ttl(script, max, rate), max, true)]
  }

  lemma TtlNonNegative(script: Script, max: real, rate: real)
    requires rate > 0.0 && max >= 0.0
    ensures Ttl(script, max, rate) >= 0.0
  {
    ApiTtlIsTwice(max, rate);
  }

  lemma TwiceFullIsTimed(script: Script, max: real, rate: real, k: Skew)
    requires rate > 0.0 && max >= 0.0 && k.low <= k.high
    ensures Timed(TwiceFull(script, max, rate, k), k) && Nondecreasing(TwiceFull(script, max, rate, k))
  {
    TtlNonNegative(script, max, rate);
  }

  /** The first call drains the bucket; the second finds the key gone. */
  lemma TwiceFullReplies(script: Script, max: real, rate: real, k: Skew)
    requires rate > 0.0 && max >= 0.0
    ensures var rs := TwiceFull(script, max, rate, k);
            && Replies(script, None, max, rate, rs)[0].allowed && Replies(script, None, max, rate, rs)[1].allowed
            && Granted(script, None, max, rate, rs) == max + max
  {
    hide Ttl, ApiTtl;
    var rs := TwiceFull(script, max, rate, k);
    assert rs[1..] == [rs[1]] && rs[1..][1..] == [];
    var e := Some(Entry(max - max, k.high, 0.0 + Ttl(script, max, rate)));
    DrainedBy(script, max, rate, k);
    assert Step(script, None, max, rate, rs[0]) == (e, Reply(true, 0));
    assert Found(e, rs[1]) == None;
    FullGrant(script, max, rate, rs[1]);
    assert Granted(script, e, max, rate, [rs[1]]) == max;
    assert Replies(script, None, max, rate, rs)[1..] == Replies(script, e, max, rate, [rs[1]]);
  }

  lemma FullGrant(script: Script, max: real, rate: real, r: Request)
    requires rate > 0.0 && r.cost == max
    ensures Call(script, None, max, rate, r)
            == (Some(Entry(max - max, r.now, r.at + Ttl(script, max, rate))), Reply(true, 0))
  {
  }

  lemma DrainedBy(script: Script, max: real, rate: real, k: Skew)
    requires rate > 0.0
    ensures Step(script, None, max, rate, TwiceFull(script, max, rate, k)[0])
            == (Some(Entry(max - max, k.high, 0.0 + Ttl(script, max, rate))), Reply(true, 0))
  {
    FullGrant(script, max, rate, TwiceFull(script, max, rate, k)[0]);
  }

  lemma ExpiryShows(script: Script, max: real, rate: real, k: Skew) returns (rs: seq<Request>)
    requires rate > 0.0 && max >= 0.0 && k.low <= k.high && !TtlSuffices(script, max, rate, k)
    ensures |rs| == 2 && Nondecreasing(rs) && Timed(rs, k)
    ensures Replies(script, None, max, rate, rs)[1].allowed
    ensures !Replies(script, None, max, rate, Undropped(rs))[1].allowed
  {
    rs := TwiceFull(script, max, rate, k);
    TwiceFullIsTimed(script, max, rate, k);
    TwiceFullReplies(script, max, rate, k);
    DrainedBy(script, max, rate, k);
    hide Ttl;
    var ss := Undropped(rs);
    var e := Some(Entry(max - max, k.high, 0.0 + Ttl(script, max, rate)));
    assert ss[1..] == [ss[1]];
    assert Replies(script, None, max, rate, ss)[1] == Replies(script, e, max, rate, [ss[1]])[0];
    NotFullYet(script, max, rate, k, e, ss[1]);
  }

  lemma NotFullYet(script: Script, max: real, rate: real, k: Skew, e: Option<Entry>, r: Request)
    requires rate > 0.0 && max >= 0.0 && !TtlSuffices(script, max, rate, k) && !r.drop
    requires e.Some? && e.value.tokens == 0.0 && e.value.lastRefill == k.high
    requires r.now == SecondReading(script, max, rate, k) && r.cost == max
    ensures !Step(script, e, max, rate, r).1.allowed
  {
    var jump := r.now - k.high;
    if jump > 0.0 {
      assert jump == Ttl(script, max, rate) - Spread(k);
    }
    assert 0.0 * rate == 0.0;
    assert jump * rate < max;
  }

  /** On timed runs the two scripts decide alike, whenever each drops its key. */
  ghost predicate AlwaysAlike(max: real, rate: real, k: Skew)
    requires rate > 0.0
  {
    forall rs: seq<Request>, ss: seq<Request> ::
      SameCalls(rs, ss) && Nondecreasing(rs) && Timed(rs, k) && Timed(ss, k) ==>
        SameDecisions(Replies(Stream, None, max, rate, rs), Replies(Api, None, max, rate, ss))
  }

  /** Expiry keeps the two scripts alike exactly when both TTLs are long enough for the clocks. */
  lemma AlwaysAlikeIff(max: real, rate: real, k: Skew)
    requires rate > 0.0 && max >= 0.0 && k.low <= k.high
    ensures AlwaysAlike(max, rate, k) <==> TtlSuffices(Stream, max, rate, k) && TtlSuffices(Api, max, rate, k)
  {
    hide TtlSuffices;
    if TtlSuffices(Stream, max, rate, k) && TtlSuffices(Api, max, rate, k) {
      forall rs: seq<Request>, ss: seq<Request> | SameCalls(rs, ss) && Nondecreasing(rs) && Timed(rs, k) && Timed(ss, k)
        ensures SameDecisions(Replies(Stream, None, max, rate, rs), Replies(Api, None, max, rate, ss))
      {
        ScriptsEquivalent(max, rate, k, rs, ss);
      }
    } else {
      var script := if TtlSuffices(Stream, max, rate, k) then Api else Stream;
      var rs := ExpiryShows(script, max, rate, k);
      var ss := Undropped(rs);
      UndroppedTimed(rs, k);
      ScriptsEquivalent(max, rate, k, ss, ss);
      assert SameCalls(ss, rs);
      if script.Stream? {
        assert !SameDecisions(Replies(Stream, None, max, rate, rs), Replies(Api, None, max, rate, ss));
      } else {
        assert !SameDecisions(Replies(Stream, None, max, rate, ss), Replies(Api, None, max, rate, rs));
      }
    }
  }

  lemma UndroppedTimed(rs: seq<Request>, k: Skew)
    requires Timed(rs, k)
    ensures Timed(Undropped(rs), k) && (Nondecreasing(rs) ==> Nondecreasing(Undropped(rs)))
  {
  }

  /** Where all clocks are one, and even a bucket's filling time apart, the stand-alone limiter's TTL hides expiry. */
  lemma ApiExpiryInvisible(max: real, rate: real, k: Skew)
    requires rate > 0.0 && max >= 0.0 && k.low <= k.high && Spread(k) <= max / rate
    ensures HidesExpiry(Api, max, rate, k)
  {
    ApiTtlOutlasts(max, rate, k);
    ExpiryInvisibleIff(Api, max, rate, k);
  }

  /** The middleware hides expiry exactly if callers' clocks are at most an hour apart. */
  lemma StreamRateLimitHidesExpiryIff(maxPerHour: int, k: Skew)
    requires maxPerHour > 0 && k.low <= k.high
    ensures HidesExpiry(Stream, maxPerHour as real, maxPerHour as real / 3600.0, k) <==> Spread(k) <= 3600.0
  {
    StreamRateLimitOutlasts(maxPerHour, k);
    ExpiryInvisibleIff(Stream, maxPerHour as real, maxPerHour as real / 3600.0, k);
  }
}
