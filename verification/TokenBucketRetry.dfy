/** The announced waiting time: when a denied request is granted. */
module TokenBucketRetry {
  import opened TokenBucket
  import opened TokenBucketRuns

  lemma WaitIs(missing: real, rate: real)
    requires rate > 0.0 && missing > 0.0
    ensures var wait := Wait(missing, rate);
            wait >= 1 && (wait - 1) as real < missing / rate <= wait as real
  {
    var q := missing / rate;
    assert q * rate == missing;
    assert 0.0 * rate == 0.0;
    if q <= 0.0 {
      TimesMonotone(q, 0.0, rate);
    }
  }

  /** s seconds after a denial, with nothing written since, the refill is short iff s < missing/rate. */
  lemma DeniedUntil(e: Option<Entry>, max: real, rate: real, now: real, cost: real, s: real)
    requires rate > 0.0 && ApiLevel(e, max, rate, now) < cost <= max && s >= 0.0
    ensures ApiLevel(e, max, rate, now + s) < cost <==> s < (cost - ApiLevel(e, max, rate, now)) / rate
  {
    var b := e.value;
    var level := b.tokens + (now - b.lastRefill) * rate;
    assert level == ApiLevel(e, max, rate, now);
    assert (now + s - b.lastRefill) * rate == (now - b.lastRefill) * rate + s * rate;
    var q := (cost - level) / rate;
    assert q * rate == cost - level;
    if s < q {
      assert (q - s) * rate > 0.0;
    } else {
      TimesMonotone(q, s, rate);
    }
  }

  lemma {:induction false} DenialsWriteNothing(e: Option<Entry>, max: real, rate: real, rs: seq<Request>)
    requires rate > 0.0 && NeverDropped(rs)
    requires forall i :: 0 <= i < |rs| ==> !Replies(Api, e, max, rate, rs)[i].allowed
    ensures Final(Api, e, max, rate, rs) == e
    decreases |rs|
  {
    if rs != [] {
      var replies := Replies(Api, e, max, rate, rs);
      assert !replies[0].allowed;
      assert replies[1..] == Replies(Api, e, max, rate, rs[1..]);
      DenialsWriteNothing(e, max, rate, rs[1..]);
    }
  }

  lemma LevelCapped(e: Option<Entry>, max: real, rate: real, now: real)
    ensures ApiLevel(e, max, rate, now) <= max
  {
  }

  /**
   * Retry-after is exact in whole seconds while the key lives: whatever denials come between, at whatever readings, the
   * same request is denied one second before the announced time, and granted at it exactly when its cost fits.
   */
  lemma RetryAfterExact(e: Option<Entry>, max: real, rate: real, now: real, cost: real, at: real, between: seq<Request>)
    requires rate > 0.0 && !ApiStep(e, max, rate, now, at, cost).1.allowed
    requires NeverDropped(between)
    requires forall i :: 0 <= i < |between| ==> !Replies(Api, e, max, rate, between)[i].allowed
    ensures var wait := ApiStep(e, max, rate, now, at, cost).1.retryAfter;
            var later := Final(Api, e, max, rate, between);
            && wait >= 1
            && !ApiStep(later, max, rate, now + (wait - 1) as real, at, cost).1.allowed
            && (ApiStep(later, max, rate, now + wait as real, at, cost).1.allowed <==> cost <= max)
  {
    var wait := ApiStep(e, max, rate, now, at, cost).1.retryAfter;
    hide Final, Replies, Refill;
    DenialsWriteNothing(e, max, rate, between);
    WaitIs(cost - ApiLevel(e, max, rate, now), rate);
    if cost <= max {
      DeniedUntil(e, max, rate, now, cost, (wait - 1) as real);
      DeniedUntil(e, max, rate, now, cost, wait as real);
    } else {
      LevelCapped(e, max, rate, now + (wait - 1) as real);
      LevelCapped(e, max, rate, now + wait as real);
    }
  }

  // ---------------------------------------------------------------- over expiry

  /** Readings that start at t, do not fall, and end by t'. */
  ghost predicate Between(t: real, rs: seq<Request>, t': real) {
    t <= t' && Nondecreasing(rs) && (rs != [] ==> t <= rs[0].now && rs[|rs| - 1].now <= t')
  }

  /** Nothing is dropped, or what the key holds bears it. */
  ghost predicate DropsBorne(e: Option<Entry>, max: real, rate: real, k: Skew, rs: seq<Request>) {
    NeverDropped(rs) || (Durable(e, max, rate, k) && Timed(rs, k))
  }

  /** Denials, and drops of a durable key, leave the level to refill undisturbed. */
  lemma {:induction false} DeniedRunHolds(e: Option<Entry>, max: real, rate: real, k: Skew, rs: seq<Request>,
                                          t: real, level: real, t': real)
    requires rate > 0.0 && Holds(e, max, rate, t, level) && Between(t, rs, t') && DropsBorne(e, max, rate, k, rs)
    requires forall i :: 0 <= i < |rs| ==> !Replies(Api, e, max, rate, rs)[i].allowed
    ensures var e' := Final(Api, e, max, rate, rs);
            && Holds(e', max, rate, t', Refill(max, level, t' - t, rate))
            && (Durable(e, max, rate, k) ==> Durable(e', max, rate, k))
    decreases |rs|
  {
    hide Durable, Refill, Holds, InSkew, Wait, ApiTtl, ApiLevel;
    if rs == [] {
      HoldsLater(e, max, rate, t, level, t');
    } else {
      var r := rs[0];
      var level1 := Refill(max, level, r.now - t, rate);
      HoldsLater(e, max, rate, t, level, r.now);
      if NeverDropped(rs) {
        NotDropped(e, r);
      } else {
        assert InSkew(k, r.now, r.at);
      }
      DropInvisible(e, max, rate, level1, k, r);
      if Durable(e, max, rate, k) {
        FoundDurable(e, max, rate, k, r);
      }
      var replies := Replies(Api, e, max, rate, rs);
      assert !replies[0].allowed && replies[1..] == Replies(Api, Found(e, r), max, rate, rs[1..]);
      DeniedRunHolds(Found(e, r), max, rate, k, rs[1..], r.now, level1, t');
      Collapse(level, max, rate, r.now - t, t' - r.now);
      assert (r.now - t) + (t' - r.now) == t' - t;
    }
  }

  /** A level below the cost has reached it after s seconds exactly if the cost fits and s is long enough. */
  lemma ReachedAfter(max: real, rate: real, level: real, cost: real, s: real)
    requires rate > 0.0 && level < cost && s >= 0.0
    ensures Refill(max, level, s, rate) >= cost <==> cost <= max && s >= (cost - level) / rate
  {
    var q := (cost - level) / rate;
    assert q * rate == cost - level;
    if s < q {
      assert (q - s) * rate > 0.0;
    } else {
      TimesMonotone(q, s, rate);
    }
  }

  /**
   * The same over any drops of the key, while readings do not fall: up to one second before the announced time
   * the request is denied, and from that time on it is granted exactly when its cost fits the bucket.
   */
  lemma RetryAfterOverExpiry(e: Option<Entry>, max: real, rate: real, k: Skew,
                             first: Request, between: seq<Request>, retry: Request)
    requires rate > 0.0 && (e.Some? ==> e.value.lastRefill <= first.now)
    requires Between(first.now, between, retry.now) && retry.cost == first.cost
    requires DropsBorne(e, max, rate, k, [first] + between + [retry])
    requires forall reply :: reply in Replies(Api, e, max, rate, [first] + between) ==> !reply.allowed
    ensures var wait := Step(Api, e, max, rate, first).1.retryAfter;
            var granted := Step(Api, Final(Api, e, max, rate, [first] + between), max, rate, retry).1.allowed;
            && wait >= 1
            && (retry.now <= first.now + (wait - 1) as real ==> !granted)
            && (retry.now >= first.now + wait as real ==> (granted <==> first.cost <= max))
  {
    var all := [first] + between;
    hide Durable, Wait;
    var e0, level := Found(e, first), ApiLevel(e, max, rate, first.now);
    assert all[0] == first && all[1..] == between;
    assert Replies(Api, e, max, rate, all)[0] in Replies(Api, e, max, rate, all);
    AllBorne(e, max, rate, k, first, between, retry);
    DropInvisible(e, max, rate, level, k, first);
    CallAtLevel(Api, e0, max, rate, level, first);
    WaitIs(first.cost - level, rate);
    forall i | 0 <= i < |between| ensures !Replies(Api, e0, max, rate, between)[i].allowed {
      assert Replies(Api, e, max, rate, all)[i + 1] in Replies(Api, e, max, rate, all);
    }
    DeniedRunHolds(e0, max, rate, k, between, first.now, level, retry.now);
    var e1, level1 := Final(Api, e0, max, rate, between), Refill(max, level, retry.now - first.now, rate);
    DropInvisible(e1, max, rate, level1, k, retry);
    CallAtLevel(Api, Found(e1, retry), max, rate, level1, retry);
    ReachedAfter(max, rate, level, first.cost, retry.now - first.now);
  }

  lemma AllBorne(e: Option<Entry>, max: real, rate: real, k: Skew,
                 first: Request, between: seq<Request>, retry: Request)
    requires DropsBorne(e, max, rate, k, [first] + between + [retry])
    ensures DropsBorne(Found(e, first), max, rate, k, between)
    ensures !first.drop || (Durable(e, max, rate, k) && InSkew(k, first.now, first.at))
    ensures !retry.drop || (Durable(Found(e, first), max, rate, k) && InSkew(k, retry.now, retry.at))
  {
    var all := [first] + between + [retry];
    assert all[0] == first && all[|all| - 1] == retry;
    assert forall i :: 0 <= i < |between| ==> all[i + 1] == between[i];
  }
}
