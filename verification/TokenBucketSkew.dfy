/** The two token-bucket scripts on clocks that step back: exactly which readings tell them apart. */
module TokenBucketSkew {
  import opened TokenBucket
  import opened TokenBucketRuns

  /** One request per clock reading. No key is dropped, so Redis's own time plays no part. */
  function Calls(ts: seq<real>, costs: seq<real>): (rs: seq<Request>)
    requires |costs| == |ts|
    ensures NeverDropped(rs)
  {
    seq(|ts|, i requires 0 <= i < |ts| => Request(ts[i], 0.0, costs[i], false))
  }

  ghost predicate OrderedClocks(ts: seq<real>) {
    forall i, j :: 0 <= i < j < |ts| ==> ts[i] <= ts[j]
  }

  ghost predicate AllPositive(costs: seq<real>) {
    forall i :: 0 <= i < |costs| ==> costs[i] > 0.0
  }

  /** The first script from a and the second from b make the same decisions. */
  ghost predicate Alike(a: Option<Entry>, b: Option<Entry>, max: real, rate: real, rs: seq<Request>)
    requires rate > 0.0
  {
    SameDecisions(Replies(Stream, a, max, rate, rs), Replies(Api, b, max, rate, rs))
  }

  /** At these clock readings the scripts decide alike, whatever the bucket and the costs. */
  ghost predicate DecideAlike(ts: seq<real>) {
    forall max: real, rate: real, costs: seq<real> ::
      max > 0.0 && rate > 0.0 && |costs| == |ts| && AllPositive(costs) ==>
        Alike(None, None, max, rate, Calls(ts, costs))
  }

  /** Those readings are exactly the ordered ones: one step back tells the scripts apart. */
  lemma ScriptsAgreeIff(ts: seq<real>)
    ensures DecideAlike(ts) <==> OrderedClocks(ts)
  {
    hide Replies, Calls, SameDecisions, OrderedClocks, AllPositive;
    if OrderedClocks(ts) {
      forall max: real, rate: real, costs: seq<real> |
        max > 0.0 && rate > 0.0 && |costs| == |ts| && AllPositive(costs)
        ensures Alike(None, None, max, rate, Calls(ts, costs))
      {
        OrderedCalls(ts, costs);
        ScriptsEquivalent(max, rate, Skew(0.0, 0.0), Calls(ts, costs), Calls(ts, costs));
      }
    } else {
      var costs := UnorderedApart(ts);
    }
  }

  lemma OrderedCalls(ts: seq<real>, costs: seq<real>)
    requires OrderedClocks(ts) && |costs| == |ts|
    ensures Nondecreasing(Calls(ts, costs)) && SameCalls(Calls(ts, costs), Calls(ts, costs))
  {
  }

  lemma UnorderedApart(ts: seq<real>) returns (costs: seq<real>)
    requires !OrderedClocks(ts)
    ensures |costs| == |ts| && AllPositive(costs)
    ensures |ts| > 0 && !Alike(None, None, |ts| as real, 1.0, Calls(ts, costs))
  {
    hide ApiTtl, Alike, Calls;
    assert ts == [ts[0]] + ts[1..];
    var max := |ts| as real;
    var rest := TellApart(ts[1..], max - 1.0, ts[0], max, STREAM_TTL, ApiTtl(max, 1.0));
    costs := [1.0] + rest;
    assert costs[1..] == rest;
    ApartLater(None, None, max, ts, costs);
  }

  /** Runs that differ later differ. */
  lemma ApartLater(a: Option<Entry>, b: Option<Entry>, max: real, ts: seq<real>, costs: seq<real>)
    requires |costs| == |ts| && ts != []
    requires !Alike(StreamStep(a, max, 1.0, ts[0], 0.0, costs[0]).0, ApiStep(b, max, 1.0, ts[0], 0.0, costs[0]).0,
                    max, 1.0, Calls(ts[1..], costs[1..]))
    ensures !Alike(a, b, max, 1.0, Calls(ts, costs))
  {
    hide StreamStep, ApiStep;
    var rs := Calls(ts, costs);
    assert rs[0] == Request(ts[0], 0.0, costs[0], false) && rs[1..] == Calls(ts[1..], costs[1..]);
    var xs, ys := Replies(Stream, a, max, 1.0, rs), Replies(Api, b, max, 1.0, rs);
    assert forall i :: 0 <= i < |xs| - 1 ==> xs[1..][i] == xs[i + 1] && ys[1..][i] == ys[i + 1];
  }

  lemma ApartNow(a: Option<Entry>, b: Option<Entry>, max: real, ts: seq<real>, costs: seq<real>)
    requires |costs| == |ts| && ts != []
    requires StreamStep(a, max, 1.0, ts[0], 0.0, costs[0]).1.allowed
    requires !ApiStep(b, max, 1.0, ts[0], 0.0, costs[0]).1.allowed
    ensures !Alike(a, b, max, 1.0, Calls(ts, costs))
  {
    hide StreamStep, ApiStep;
    assert Replies(Stream, a, max, 1.0, Calls(ts, costs))[0].allowed;
    assert !Replies(Api, b, max, 1.0, Calls(ts, costs))[0].allowed;
  }

  /** The same tokens since the same time: one token is granted by both scripts while the clock goes on. */
  lemma BothGrantOne(tokens: real, last: real, max: real, now: real, x: real, y: real)
    requires 1.0 <= tokens <= max && last <= now
    ensures var left := Refill(max, tokens, now - last, 1.0) - 1.0;
            var a, b := Some(Entry(tokens, last, x)), Some(Entry(tokens, last, y));
            && tokens - 1.0 <= left <= max
            && StreamStep(a, max, 1.0, now, 0.0, 1.0).0 == Some(Entry(left, now, STREAM_TTL))
            && ApiStep(b, max, 1.0, now, 0.0, 1.0).0 == Some(Entry(left, now, ApiTtl(max, 1.0)))
  {
    hide ApiTtl, Wait;
  }

  /** When it steps back, all tokens are granted by the script that clamps the elapsed time, and denied by the other. */
  lemma StepBackTellsApart(tokens: real, last: real, max: real, now: real, x: real, y: real)
    requires 0.0 <= tokens <= max && now < last
    ensures StreamStep(Some(Entry(tokens, last, x)), max, 1.0, now, 0.0, tokens).1.allowed
    ensures !ApiStep(Some(Entry(tokens, last, y)), max, 1.0, now, 0.0, tokens).1.allowed
  {
  }

  /** Readings out of order step back at once or later. */
  lemma StepsBack(last: real, ts: seq<real>)
    requires !OrderedClocks([last] + ts)
    ensures ts != [] && (ts[0] < last || !OrderedClocks([ts[0]] + ts[1..]))
  {
    var all := [last] + ts;
    assert all[0] == last && forall i :: 0 <= i < |ts| ==> all[i + 1] == ts[i];
    if ts != [] {
      assert [ts[0]] + ts[1..] == ts;
    }
  }

  /** Costs of one token keep the scripts together until the clock steps back; a cost of all tokens parts them then. */
  lemma {:induction false} TellApart(ts: seq<real>, tokens: real, last: real, max: real, x: real, y: real)
    returns (costs: seq<real>)
    requires |ts| as real <= tokens <= max && !OrderedClocks([last] + ts)
    ensures |costs| == |ts| && AllPositive(costs)
    ensures !Alike(Some(Entry(tokens, last, x)), Some(Entry(tokens, last, y)), max, 1.0, Calls(ts, costs))
    decreases |ts|
  {
    hide StreamStep, ApiStep, Refill, ApiTtl, Alike, OrderedClocks, Calls;
    StepsBack(last, ts);
    var a, b := Some(Entry(tokens, last, x)), Some(Entry(tokens, last, y));
    if ts[0] < last {
      costs := seq(|ts|, _ => tokens);
      StepBackTellsApart(tokens, last, max, ts[0], x, y);
      ApartNow(a, b, max, ts, costs);
    } else {
      BothGrantOne(tokens, last, max, ts[0], x, y);
      var left := Refill(max, tokens, ts[0] - last, 1.0) - 1.0;
      assert |ts[1..]| as real == |ts| as real - 1.0;
      var rest := TellApart(ts[1..], left, ts[0], max, STREAM_TTL, ApiTtl(max, 1.0));
      costs := [1.0] + rest;
      assert costs[1..] == rest;
      ApartLater(a, b, max, ts, costs);
    }
  }
}
