/**
 * Two Lua token-bucket scripts, run atomically by Redis.
 *
 * StreamStep is the script of the stream middleware: it writes on every call.
 * ApiStep is the script of the stand-alone limiter: it writes only when it grants,
 * and otherwise answers how long to wait. Times, tokens and rates are reals.
 *
 * There are two clocks. The refill is computed from the caller's reading, now; the deadline that EXPIRE
 * sets is counted on Redis's own clock, at.
 */
module TokenBucket {

  datatype Option<+T> = None | Some(value: T)

  /** A Redis hash with its fields 'tokens' and 'last_refill', and its deadline on Redis's clock. */
  datatype Entry = Entry(tokens: real, lastRefill: real, expiresAt: real)

  datatype Reply = Reply(allowed: bool, retryAfter: int)

  const STREAM_TTL := 7200.0

  function Min(a: real, b: real): real { if a <= b then a else b }

  function Max(a: real, b: real): real { if a <= b then b else a }

  /** math.ceil */
  function Ceil(x: real): int { -((-x).Floor) }

  // ---------------------------------------------------------------- the scripts as functions

  /** Tokens after refilling for some time, never more than the capacity. */
  function Refill(max: real, tokens: real, elapsed: real, rate: real): real {
    Min(max, tokens + elapsed * rate)
  }

  /** Tokens on hand at time now, elapsed time clamped at 0. */
  function StreamLevel(e: Option<Entry>, max: real, rate: real, now: real): real {
    match e
    case None => max
    case Some(b) => Refill(max, b.tokens, Max(0.0, now - b.lastRefill), rate)
  }

  function StreamStep(e: Option<Entry>, max: real, rate: real, now: real, at: real, cost: real): (Option<Entry>, Reply)
  {
    var level := StreamLevel(e, max, rate, now);
    if level >= cost
    then (Some(Entry(level - cost, now, at + STREAM_TTL)), Reply(true, 0))
    else (Some(Entry(level, now, at + STREAM_TTL)), Reply(false, 0))
  }

  /** Tokens on hand at time now, elapsed time not clamped. */
  function ApiLevel(e: Option<Entry>, max: real, rate: real, now: real): real {
    match e
    case None => max
    case Some(b) => Refill(max, b.tokens, now - b.lastRefill, rate)
  }

  function ApiTtl(max: real, rate: real): real
    requires rate > 0.0
  {
    (Ceil(max / rate) * 2) as real
  }

  /** Whole seconds until the missing tokens have been refilled. */
  function Wait(missing: real, rate: real): int
    requires rate > 0.0
  {
    Ceil(missing / rate)
  }

  function ApiStep(e: Option<Entry>, max: real, rate: real, now: real, at: real, cost: real): (Option<Entry>, Reply)
    requires rate > 0.0
  {
    var level := ApiLevel(e, max, rate, now);
    if level < cost
    then (e, Reply(false, Wait(cost - level, rate)))
    else (Some(Entry(level - cost, now, at + ApiTtl(max, rate))), Reply(true, 0))
  }

  /** The smaller of the capacity and what there was plus what has been refilled; the capacity if there is no key. */
  ghost predicate IsLevel(level: real, e: Option<Entry>, max: real, rate: real, elapsed: real) {
    match e
    case None => level == max
    case Some(b) =>
      var full := b.tokens + elapsed * rate;
      level <= max && level <= full && (level == max || level == full)
  }

  function Elapsed(e: Option<Entry>, now: real): real {
    if e.Some? then now - e.value.lastRefill else 0.0
  }

  /** n is the least whole number not below x. */
  ghost predicate IsCeiling(n: int, x: real) {
    n as real - 1.0 < x <= n as real
  }

  lemma CeilIs(x: real)
    ensures IsCeiling(Ceil(x), x)
  {
  }

  lemma LevelIs(e: Option<Entry>, max: real, rate: real, now: real, level: real)
    ensures IsLevel(level, e, max, rate, Elapsed(e, now)) <==> level == ApiLevel(e, max, rate, now)
  {
  }

  /** The deadline is twice the whole seconds that fill the bucket. */
  lemma DeadlineIs(max: real, rate: real, at: real, expiresAt: real)
    requires rate > 0.0 && expiresAt == at + ApiTtl(max, rate)
    ensures IsCeiling(((expiresAt - at) / 2.0).Floor, max / rate)
    ensures expiresAt - at == 2.0 * ((expiresAt - at) / 2.0).Floor as real
  {
    var n := Ceil(max / rate);
    CeilIs(max / rate);
    assert ApiTtl(max, rate) == 2.0 * n as real;
    assert (expiresAt - at) / 2.0 == n as real;
  }

  // ---------------------------------------------------------------- the scripts as programs

  /** The Redis server: keys to hashes. Script calls are atomic. */
  class Redis {
    var entries: map<string, Entry>

    constructor ()
      ensures entries == map[]
    {
      entries := map[];
    }

    function At(key: string): Option<Entry>
      reads this
    {
      if key in entries then Some(entries[key]) else None
    }

    /** Redis drops the key once its deadline has passed. */
    method Expire(key: string, at: real)
      modifies this
      ensures entries == if key in old(entries) && old(entries)[key].expiresAt <= at
                         then old(entries) - {key} else old(entries)
    {
      if key in entries && entries[key].expiresAt <= at {
        entries := entries - {key};
      }
    }

    /** The stream middleware's script. */
    method StreamScript(key: string, maxTokens: real, refillRate: real, now: real, requested: real, at: real)
      returns (result: int)
      modifies this
      ensures At(key) == StreamStep(old(At(key)), maxTokens, refillRate, now, at, requested).0
      ensures entries == old(entries)[key := entries[key]]
      ensures result == if StreamStep(old(At(key)), maxTokens, refillRate, now, at, requested).1.allowed then 1 else 0
      ensures key in entries && entries[key].lastRefill == now && entries[key].expiresAt == at + 7200.0
      ensures var elapsed := Elapsed(old(At(key)), now);
              var level := entries[key].tokens + if result == 1 then requested else 0.0;
              && IsLevel(level, old(At(key)), maxTokens, refillRate, if elapsed > 0.0 then elapsed else 0.0)
              && (result == 1 <==> level >= requested)
    {
      var tokens := if key in entries then entries[key].tokens else maxTokens;
      var lastRefill := if key in entries then entries[key].lastRefill else now;
      var elapsed := Max(0.0, now - lastRefill);
      var newTokens := Refill(maxTokens, tokens, elapsed, refillRate);
      if newTokens >= requested {
        entries := entries[key := Entry(newTokens - requested, now, at + STREAM_TTL)];
        return 1;
      } else {
        entries := entries[key := Entry(newTokens, now, at + STREAM_TTL)];
        return 0;
      }
    }

    /** The stand-alone limiter's script. */
    method ApiScript(key: string, maxTokens: real, refillRate: real, now: real, cost: real, at: real)
      returns (reply: Reply)
      requires refillRate > 0.0
      modifies this
      ensures At(key) == ApiStep(old(At(key)), maxTokens, refillRate, now, at, cost).0
      ensures reply == ApiStep(old(At(key)), maxTokens, refillRate, now, at, cost).1
      ensures entries == if reply.allowed then old(entries)[key := entries[key]] else old(entries)
      ensures forall level :: IsLevel(level, old(At(key)), maxTokens, refillRate, Elapsed(old(At(key)), now)) ==>
                && (reply.allowed <==> level >= cost)
                && (!reply.allowed ==> IsCeiling(reply.retryAfter, (cost - level) / refillRate))
                && (reply.allowed ==> key in entries && entries[key].tokens == level - cost)
      ensures reply.allowed ==>
                && entries[key].lastRefill == now
                && IsCeiling(((entries[key].expiresAt - at) / 2.0).Floor, maxTokens / refillRate)
                && entries[key].expiresAt - at == 2.0 * ((entries[key].expiresAt - at) / 2.0).Floor as real
    {
      hide IsLevel, IsCeiling, ApiTtl;
      forall level ensures IsLevel(level, At(key), maxTokens, refillRate, Elapsed(At(key), now))
                           <==> level == ApiLevel(At(key), maxTokens, refillRate, now)
      {
        LevelIs(At(key), maxTokens, refillRate, now, level);
      }
      CeilIs((cost - ApiLevel(At(key), maxTokens, refillRate, now)) / refillRate);
      DeadlineIs(maxTokens, refillRate, at, at + ApiTtl(maxTokens, refillRate));
      hide Ceil;
      var tokens := if key in entries then entries[key].tokens else maxTokens;
      var lastRefill := if key in entries then entries[key].lastRefill else now;
      var elapsed := now - lastRefill;
      tokens := Refill(maxTokens, tokens, elapsed, refillRate);
      if tokens < cost {
        return Reply(false, Wait(cost - tokens, refillRate));
      }
      tokens := tokens - cost;
      entries := entries[key := Entry(tokens, now, at + ApiTtl(maxTokens, refillRate))];
      return Reply(true, 0);
    }

    /** StreamRateLimit's decision for one request without X-User-ID. */
    method StreamRateLimit(ip: string, maxPerHour: int, now: real, at: real) returns (allowed: bool)
      modifies this
      ensures var key := "ratelimit:stream:" + ip;
              var r := StreamStep(old(At(key)), maxPerHour as real, maxPerHour as real / 3600.0, now, at, 1.0);
              && At(key) == r.0 && allowed == r.1.allowed
              && entries == old(entries)[key := entries[key]]
    {
      var refillRate := maxPerHour as real / 3600.0;
      var result := StreamScript("ratelimit:stream:" + ip, maxPerHour as real, refillRate, now, 1.0, at);
      return result != 0;
    }

    /** Allow: integer capacity, rate and cost. */
    method Allow(key: string, maxTokens: int, refillRate: int, cost: int, now: real, at: real) returns (reply: Reply)
      requires refillRate > 0
      modifies this
      ensures At(key) == ApiStep(old(At(key)), maxTokens as real, refillRate as real, now, at, cost as real).0
      ensures reply == ApiStep(old(At(key)), maxTokens as real, refillRate as real, now, at, cost as real).1
      ensures entries == if reply.allowed then old(entries)[key := entries[key]] else old(entries)
    {
      reply := ApiScript(key, maxTokens as real, refillRate as real, now, cost as real, at);
    }
  }
}
