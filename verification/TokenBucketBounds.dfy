/** How many tokens the buckets grant over stretches of a run, and what expiry on Redis's own clock does to that. */
module TokenBucketBounds {
  import opened TokenBucket
  import opened TokenBucketRuns

  // ---------------------------------------------------------------- the script that writes only grants

  /** tokens - rate * last_refill */
  function Drained(b: Entry, rate: real): real {
    b.tokens - rate * b.lastRefill
  }

  lemma Distribute(rate: real, a: real, b: real)
    ensures rate * (a - b) == rate * a - rate * b == (a - b) * rate
  {
  }

  /** On a key that is there, the potential never rises and pays for the grant, whatever the clock reads. */
  lemma ApiCallDrains(e: Option<Entry>, max: real, rate: real, r: Request)
    requires rate > 0.0 && e.Some?
    ensures var (e', reply) := Call(Api, e, max, rate, r);
            e'.Some? && Spent(reply, r.cost) + Drained(e'.value, rate) <= Drained(e.value, rate)
  {
    Distribute(rate, r.now, e.value.lastRefill);
  }

  /** From an absent key a grant leaves at most a full bucket. */
  lemma ApiFirstGrant(max: real, rate: real, r: Request)
    requires rate > 0.0
    ensures var (e', reply) := Call(Api, None, max, rate, r);
            if reply.allowed then e'.Some? && r.cost + Drained(e'.value, rate) <= max - rate * r.now else e'.None?
  {
  }

  /**
   * What is left of a budget p. An absent key has been so since Redis's time at, so whoever fills it reads
   * at least at + low.
   */
  ghost predicate Within(e: Option<Entry>, max: real, rate: real, k: Skew, at: real, p: real) {
    match e
    case Some(b) => Drained(b, rate) <= p
    case None => max - rate * (at + k.low) <= p
  }

  /** A durable key that is dropped leaves no more than it had. */
  lemma DropWithin(e: Option<Entry>, max: real, rate: real, k: Skew, r: Request, at: real, p: real)
    requires rate > 0.0 && at <= r.at && Lasting(e, max, rate, k) && Within(e, max, rate, k, at, p)
    ensures Within(Found(e, r), max, rate, k, r.at, p) && Lasting(Found(e, r), max, rate, k)
  {
    match e
    case None =>
      TimesMonotone(at + k.low, r.at + k.low, rate);
    case Some(b) =>
      if Found(e, r).None? {
        TimesMonotone(b.expiresAt + k.low - b.lastRefill, r.at + k.low - b.lastRefill, rate);
        Distribute(rate, r.at + k.low, b.lastRefill);
      }
  }

  /** As Durable, with no exception for an empty bucket: here readings may also step back. */
  ghost predicate Lasting(e: Option<Entry>, max: real, rate: real, k: Skew) {
    e.Some? ==> e.value.tokens >= 0.0 && (e.value.expiresAt + k.low - e.value.lastRefill) * rate >= max
  }

  lemma ApiCallLasting(e: Option<Entry>, max: real, rate: real, k: Skew, r: Request)
    requires rate > 0.0 && Lasting(e, max, rate, k) && InSkew(k, r.now, r.at) && Outlasts(Api, max, rate, k)
    ensures Lasting(Call(Api, e, max, rate, r).0, max, rate, k)
  {
    hide ApiTtl, ApiLevel, Wait;
    var e' := Call(Api, e, max, rate, r).0;
    if e' != e {
      TimesMonotone(ApiTtl(max, rate) - Spread(k), e'.value.expiresAt + k.low - e'.value.lastRefill, rate);
    }
  }

  lemma ApiCallWithin(e: Option<Entry>, max: real, rate: real, k: Skew, r: Request, p: real)
    requires rate > 0.0 && InSkew(k, r.now, r.at) && Within(e, max, rate, k, r.at, p)
    ensures var (e', reply) := Call(Api, e, max, rate, r);
            Within(e', max, rate, k, r.at, p - Spent(reply, r.cost))
  {
    if e.Some? {
      ApiCallDrains(e, max, rate, r);
    } else {
      ApiFirstGrant(max, rate, r);
      TimesMonotone(r.at + k.low, r.now, rate);
    }
  }

  /** While the key lives: whatever the clocks read, the potential never rises and pays for every grant. */
  lemma {:induction false} ApiPotential(e: Option<Entry>, max: real, rate: real, rs: seq<Request>)
    requires rate > 0.0 && e.Some? && NeverDropped(rs)
    ensures var e' := Final(Api, e, max, rate, rs);
            e'.Some? && Granted(Api, e, max, rate, rs) + Drained(e'.value, rate) <= Drained(e.value, rate)
    decreases |rs|
  {
    hide Call, Drained, Found;
    if rs != [] {
      NotDropped(e, rs[0]);
      ApiCallDrains(e, max, rate, rs[0]);
      ApiPotential(Step(Api, e, max, rate, rs[0]).0, max, rate, rs[1..]);
    }
  }

  /** Over expiries as well: whatever the clocks read, a run spends no more than its budget. */
  lemma {:induction false} ApiBudget(e: Option<Entry>, max: real, rate: real, k: Skew, rs: seq<Request>,
                                     at: real, p: real)
    requires rate > 0.0 && Timed(rs, k) && Outlasts(Api, max, rate, k) && (rs != [] ==> at <= rs[0].at)
    requires Within(e, max, rate, k, at, p) && Lasting(e, max, rate, k)
    ensures var e' := Final(Api, e, max, rate, rs);
            e'.Some? ==> Granted(Api, e, max, rate, rs) + Drained(e'.value, rate) <= p
    decreases |rs|
  {
    hide Call, Drained, Lasting, Outlasts, Found, InSkew;
    if rs != [] {
      var r := rs[0];
      DropWithin(e, max, rate, k, r, at, p);
      ApiCallWithin(Found(e, r), max, rate, k, r, p);
      ApiCallLasting(Found(e, r), max, rate, k, r);
      var (e', reply) := Step(Api, e, max, rate, r);
      ApiBudget(e', max, rate, k, rs[1..], r.at, p - Spent(reply, r.cost));
    }
  }

  lemma {:induction false} ApiLastGrant(e: Option<Entry>, max: real, rate: real, rs: seq<Request>)
    requires rate > 0.0 && rs != [] && Replies(Api, e, max, rate, rs)[|rs| - 1].allowed
    ensures var e' := Final(Api, e, max, rate, rs);
            e'.Some? && e'.value.tokens >= 0.0 && e'.value.lastRefill == rs[|rs| - 1].now
    decreases |rs|
  {
    if |rs| > 1 {
      ApiLastGrant(Step(Api, e, max, rate, rs[0]).0, max, rate, rs[1..]);
    }
  }

  /** Never dropped, or the TTL outlasts the clocks' differences. */
  ghost predicate ApiCovered(max: real, rate: real, k: Skew, rs: seq<Request>)
    requires rate > 0.0
  {
    NeverDropped(rs) || (Timed(rs, k) && Outlasts(Api, max, rate, k))
  }

  /** From a first grant on, a full bucket is the budget. */
  lemma ApiSpent(e: Option<Entry>, max: real, rate: real, k: Skew, rs: seq<Request>)
    requires rate > 0.0 && ApiCovered(max, rate, k, rs) && rs != [] && Replies(Api, e, max, rate, rs)[0].allowed
    ensures var end := Final(Api, e, max, rate, rs);
            end.Some? ==> Granted(Api, e, max, rate, rs) + Drained(end.value, rate) <= max - rate * rs[0].now
  {
    hide Call, Outlasts, Lasting, InSkew, Found, Drained;
    var r := rs[0];
    var e' := Step(Api, e, max, rate, r).0;
    assert Replies(Api, e, max, rate, rs)[0] == Step(Api, e, max, rate, r).1;
    assert Granted(Api, e, max, rate, rs) == r.cost + Granted(Api, e', max, rate, rs[1..]);
    assert Final(Api, e, max, rate, rs) == Final(Api, e', max, rate, rs[1..]);
    GrantLeaves(Found(e, r), max, rate, k, r);
    var p := max - rate * r.now - r.cost;
    hide Granted, Final, Replies;
    if NeverDropped(rs) {
      ApiPotential(e', max, rate, rs[1..]);
      assert Drained(e'.value, rate) <= p;
    } else {
      ApiBudget(e', max, rate, k, rs[1..], r.at, p);
    }
  }

  /**
   * Tokens granted from one admitted request to another, both included, in whatever order callers' clocks run,
   * and over any expiries if the TTL outlasts their differences.
   */
  lemma ApiAdmissionBound(e: Option<Entry>, max: real, rate: real, k: Skew, rs: seq<Request>)
    requires rate > 0.0 && ApiCovered(max, rate, k, rs) && rs != []
    requires Replies(Api, e, max, rate, rs)[0].allowed && Replies(Api, e, max, rate, rs)[|rs| - 1].allowed
    ensures Granted(Api, e, max, rate, rs) <= max + rate * (rs[|rs| - 1].now - rs[0].now)
  {
    hide Granted, Final, Replies, ApiCovered;
    ApiLastGrant(e, max, rate, rs);
    ApiSpent(e, max, rate, k, rs);
    Distribute(rate, rs[|rs| - 1].now, rs[0].now);
  }

  /** A grant leaves at most a full bucket less its cost, and a lasting key. */
  lemma GrantLeaves(e: Option<Entry>, max: real, rate: real, k: Skew, r: Request)
    requires rate > 0.0 && Call(Api, e, max, rate, r).1.allowed
    ensures var e' := Call(Api, e, max, rate, r).0;
            && e'.Some? && r.cost + Drained(e'.value, rate) <= max - rate * r.now
            && (InSkew(k, r.now, r.at) && Outlasts(Api, max, rate, k) ==> Lasting(e', max, rate, k))
  {
    hide ApiTtl, Wait;
    var e' := Call(Api, e, max, rate, r).0;
    if InSkew(k, r.now, r.at) && Outlasts(Api, max, rate, k) {
      TimesMonotone(ApiTtl(max, rate) - Spread(k), e'.value.expiresAt + k.low - e'.value.lastRefill, rate);
    }
  }

  /** The bound, on all timed runs, whenever Redis drops overdue keys. */
  ghost predicate ApiBounded(max: real, rate: real, k: Skew)
    requires rate > 0.0
  {
    forall rs: seq<Request> ::
      && rs != [] && Timed(rs, k)
      && Replies(Api, None, max, rate, rs)[0].allowed && Replies(Api, None, max, rate, rs)[|rs| - 1].allowed
      ==> Granted(Api, None, max, rate, rs) <= max + rate * (rs[|rs| - 1].now - rs[0].now)
  }

  /** Expiry on Redis's own clock keeps the bound exactly when the TTL, less the clocks' spread, fills the bucket. */
  lemma ApiBoundedIff(max: real, rate: real, k: Skew)
    requires rate > 0.0 && max >= 0.0 && k.low <= k.high
    ensures ApiBounded(max, rate, k) <==> Outlasts(Api, max, rate, k)
  {
    hide Outlasts;
    if Outlasts(Api, max, rate, k) {
      forall rs: seq<Request> |
        && rs != [] && Timed(rs, k)
        && Replies(Api, None, max, rate, rs)[0].allowed && Replies(Api, None, max, rate, rs)[|rs| - 1].allowed
        ensures Granted(Api, None, max, rate, rs) <= max + rate * (rs[|rs| - 1].now - rs[0].now)
      {
        ApiAdmissionBound(None, max, rate, k, rs);
      }
    } else {
      LaggingGrants(max, rate, k);
    }
  }

  /** In particular on one clock, and on clocks that are apart by no longer than the bucket takes to fill. */
  lemma ApiBoundedOnCloseClocks(max: real, rate: real, k: Skew)
    requires rate > 0.0 && max >= 0.0 && k.low <= k.high && Spread(k) <= max / rate
    ensures ApiBounded(max, rate, k)
  {
    ApiTtlOutlasts(max, rate, k);
    ApiBoundedIff(max, rate, k);
  }

  /** A full bucket, granted by the clock furthest ahead, and again by the one furthest behind once the key is gone. */
  lemma LaggingGrants(max: real, rate: real, k: Skew)
    requires rate > 0.0 && max >= 0.0 && k.low <= k.high && !Outlasts(Api, max, rate, k)
    ensures !ApiBounded(max, rate, k)
  {
    TtlNonNegative(Api, max, rate);
    hide Ttl;
    var ttl := Ttl(Api, max, rate);
    var rs := [Request(k.high, 0.0, max, false), Request(ttl + k.low, ttl, max, true)];
    assert rs[1..] == [rs[1]] && rs[1..][1..] == [];
    var e := Some(Entry(max - max, k.high, 0.0 + ttl));
    FullGrant(Api, max, rate, rs[0]);
    assert Step(Api, None, max, rate, rs[0]) == (e, Reply(true, 0));
    FullGrant(Api, max, rate, rs[1]);
    assert Found(e, rs[1]) == None;
    assert Granted(Api, e, max, rate, [rs[1]]) == max;
    assert Replies(Api, None, max, rate, rs)[1..] == Replies(Api, e, max, rate, [rs[1]]);
    assert Granted(Api, None, max, rate, rs) == max + max;
    assert rate * (rs[1].now - rs[0].now) == (ttl - Spread(k)) * rate;
    assert Timed(rs, k);
  }

  // ---------------------------------------------------------------- the script that writes always

  /** How far the clock moves forward over the calls, steps back not counted. */
  function Jumps(from: real, rs: seq<Request>): real
    decreases |rs|
  {
    if rs == [] then 0.0 else Max(0.0, rs[0].now - from) + Jumps(rs[0].now, rs[1..])
  }

  lemma {:induction false} JumpsOfOrderedClocks(from: real, rs: seq<Request>)
    requires Nondecreasing(rs) && (rs != [] ==> from <= rs[0].now)
    ensures Jumps(from, rs) == if rs == [] then 0.0 else rs[|rs| - 1].now - from
    decreases |rs|
  {
    if rs != [] {
      JumpsOfOrderedClocks(rs[0].now, rs[1..]);
    }
  }

  /** With costs and capacity non-negative the stored tokens stay within [0, max], on any clocks and drops. */
  lemma {:induction false} StreamStoredInRange(e: Option<Entry>, max: real, rate: real, rs: seq<Request>)
    requires rate > 0.0 && max >= 0.0 && forall i :: 0 <= i < |rs| ==> rs[i].cost >= 0.0
    requires e.Some? ==> 0.0 <= e.value.tokens <= max
    ensures var e' := Final(Stream, e, max, rate, rs); e'.Some? ==> 0.0 <= e'.value.tokens <= max
    decreases |rs|
  {
    if rs != [] {
      var f := Found(e, rs[0]);
      if f.Some? {
        TimesMonotone(0.0, Max(0.0, rs[0].now - f.value.lastRefill), rate);
        assert 0.0 * rate == 0.0;
      }
      StreamStoredInRange(Step(Stream, e, max, rate, rs[0]).0, max, rate, rs[1..]);
    }
  }

  /** What the script finds to hand out is paid for by the old tokens and the jump, dropped key or not. */
  lemma StreamLevelPaid(e: Option<Entry>, max: real, rate: real, k: Skew, r: Request)
    requires rate > 0.0 && max >= 0.0 && e.Some? && e.value.tokens >= 0.0
    requires !r.drop || (Durable(e, max, rate, k) && InSkew(k, r.now, r.at))
    ensures var jump := Max(0.0, r.now - e.value.lastRefill);
            0.0 <= StreamLevel(Found(e, r), max, rate, r.now) <= e.value.tokens + rate * jump
  {
    var jump := Max(0.0, r.now - e.value.lastRefill);
    RefillInRange(max, e.value.tokens, jump, rate);
    assert rate * jump == jump * rate >= 0.0;
    if Found(e, r) != e {
      TimesMonotone(e.value.expiresAt + k.low - e.value.lastRefill, jump, rate);
    }
  }

  lemma StreamStepPays(e: Option<Entry>, max: real, rate: real, k: Skew, r: Request, later: real)
    requires rate > 0.0 && max >= 0.0 && e.Some? && e.value.tokens >= 0.0
    requires !r.drop || (Durable(e, max, rate, k) && InSkew(k, r.now, r.at))
    ensures var (e', reply) := Step(Stream, e, max, rate, r);
            var jump := Max(0.0, r.now - e.value.lastRefill);
            && e'.Some? && e'.value.tokens >= 0.0 && e'.value.lastRefill == r.now
            && e'.value.expiresAt == r.at + STREAM_TTL
            && Spent(reply, r.cost) + e'.value.tokens + rate * later <= e.value.tokens + rate * (jump + later)
  {
    hide StreamLevel, Durable, Found, Max;
    var jump := Max(0.0, r.now - e.value.lastRefill);
    StreamLevelPaid(e, max, rate, k, r);
    assert rate * (jump + later) == rate * jump + rate * later;
  }

  lemma {:induction false} StreamPotential(e: Option<Entry>, max: real, rate: real, k: Skew, rs: seq<Request>)
    requires rate > 0.0 && max >= 0.0 && e.Some? && e.value.tokens >= 0.0 && Covered(Stream, e, max, rate, k, rs)
    ensures Granted(Stream, e, max, rate, rs) <= e.value.tokens + rate * Jumps(e.value.lastRefill, rs)
    decreases |rs|
  {
    hide Call, Durable, TtlSuffices, InSkew, Found;
    if rs == [] {
      assert rate * 0.0 == 0.0;
    } else {
      var e' := Step(Stream, e, max, rate, rs[0]).0;
      StreamStepPays(e, max, rate, k, rs[0], Jumps(rs[0].now, rs[1..]));
      if !NeverDropped(rs) {
        WrittenDurable(Stream, e', max, rate, k, rs[0]);
      }
      StreamPotential(e', max, rate, k, rs[1..]);
    }
  }

  lemma StreamFirstStep(e: Option<Entry>, max: real, rate: real, r: Request)
    requires rate > 0.0 && max >= 0.0 && (e.Some? ==> e.value.tokens >= 0.0)
    ensures var (e', reply) := Step(Stream, e, max, rate, r);
            && e'.Some? && e'.value.tokens >= 0.0 && e'.value.lastRefill == r.now
            && e'.value.expiresAt == r.at + STREAM_TTL
            && Spent(reply, r.cost) + e'.value.tokens <= max
  {
    if e.Some? {
      RefillInRange(max, e.value.tokens, Max(0.0, r.now - e.value.lastRefill), rate);
    }
  }

  /**
   * Tokens granted over any segment of a run, in whatever order callers' clocks run, and over any expiries if the TTL
   * outlasts their differences: a full bucket plus what the readings' forward jumps refill. A drop then takes jumps
   * that are themselves worth a full bucket.
   */
  lemma StreamAdmissionBound(e: Option<Entry>, max: real, rate: real, k: Skew, rs: seq<Request>)
    requires rate > 0.0 && max >= 0.0 && (e.Some? ==> e.value.tokens >= 0.0) && rs != []
    requires DropsCovered(Stream, max, rate, k, rs)
    ensures Granted(Stream, e, max, rate, rs) <= max + rate * Jumps(rs[0].now, rs[1..])
  {
    hide Call, Jumps, Durable, TtlSuffices, InSkew, Found;
    var e' := Step(Stream, e, max, rate, rs[0]).0;
    StreamFirstStep(e, max, rate, rs[0]);
    if !NeverDropped(rs) {
      WrittenDurable(Stream, e', max, rate, k, rs[0]);
    }
    StreamPotential(e', max, rate, k, rs[1..]);
  }

  /** On ordered readings that is a full bucket plus the refill of the whole span. */
  lemma StreamAdmissionBoundOrdered(e: Option<Entry>, max: real, rate: real, k: Skew, rs: seq<Request>)
    requires rate > 0.0 && max >= 0.0 && (e.Some? ==> e.value.tokens >= 0.0) && rs != []
    requires DropsCovered(Stream, max, rate, k, rs) && Nondecreasing(rs)
    ensures Granted(Stream, e, max, rate, rs) <= max + rate * (rs[|rs| - 1].now - rs[0].now)
  {
    hide Call, Granted, DropsCovered;
    StreamAdmissionBound(e, max, rate, k, rs);
    JumpsOfOrderedClocks(rs[0].now, rs[1..]);
    assert Jumps(rs[0].now, rs[1..]) == rs[|rs| - 1].now - rs[0].now;
  }

  /** The bound, on all timed runs, whenever Redis drops overdue keys. */
  ghost predicate StreamBounded(max: real, rate: real, k: Skew)
    requires rate > 0.0
  {
    forall rs: seq<Request> :: rs != [] && Timed(rs, k) ==>
      Granted(Stream, None, max, rate, rs) <= max + rate * Jumps(rs[0].now, rs[1..])
  }

  /** Expiry on Redis's own clock keeps the bound exactly when the TTL, less the clocks' spread, fills the bucket. */
  lemma StreamBoundedIff(max: real, rate: real, k: Skew)
    requires rate > 0.0 && max >= 0.0 && k.low <= k.high
    ensures StreamBounded(max, rate, k) <==> TtlSuffices(Stream, max, rate, k)
  {
    if TtlSuffices(Stream, max, rate, k) {
      forall rs: seq<Request> | rs != [] && Timed(rs, k)
        ensures Granted(Stream, None, max, rate, rs) <= max + rate * Jumps(rs[0].now, rs[1..])
      {
        StreamAdmissionBound(None, max, rate, k, rs);
      }
    } else {
      var rs := TwiceFull(Stream, max, rate, k);
      TwiceFullIsTimed(Stream, max, rate, k);
      TwiceFullReplies(Stream, max, rate, k);
      assert rs[1..] == [rs[1]] && rs[1..][1..] == [];
      var jump := rs[1].now - k.high;
      assert Jumps(k.high, rs[1..]) == jump;
      assert jump == 0.0 || jump == STREAM_TTL - Spread(k);
      assert rate * jump == jump * rate < max;
    }
  }

  /** The middleware keeps the bound exactly if callers' clocks are at most an hour apart. */
  lemma StreamRateLimitBoundedIff(maxPerHour: int, k: Skew)
    requires maxPerHour > 0 && k.low <= k.high
    ensures StreamBounded(maxPerHour as real, maxPerHour as real / 3600.0, k) <==> Spread(k) <= 3600.0
  {
    StreamRateLimitOutlasts(maxPerHour, k);
    StreamBoundedIff(maxPerHour as real, maxPerHour as real / 3600.0, k);
  }
}
