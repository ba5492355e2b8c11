/** Crashes, redelivery and the conditional claim: what the upload pipeline does then, on any run, careful or not. */
module PipelineLimits {
  import opened Pipeline
  import opened PipelineSafety

  // ---------------------------------------------------------------- redelivery and crashes

  /** Redelivering the event of a track that is no longer pending changes nothing at all. */
  lemma RedeliveryIsIdle(s: State, w: nat, i: nat, o: Outcome)
    requires w !in s.workers && i < |s.d.log| && s.d.log[i].trackId in s.d.tracks
    requires s.d.tracks[s.d.log[i].trackId].status != Pending
    ensures var steps := [Deliver(w, i), Check(w, o)]; IsRun(s, steps) && Run(s, steps) == s
  {
    var steps := [Deliver(w, i), Check(w, o)];
    var s1 := Apply(s, steps[0]);
    var s2 := Apply(s1, steps[1]);
    assert steps[1..] == [Check(w, o)] && steps[1..][1..] == [];
    assert s2.workers == s.workers;
    assert IsRun(s2, []) && Run(s2, []) == s2;
    assert IsRun(s1, steps[1..]) && Run(s1, steps[1..]) == s2;
  }

  /** A worker that has seen the track pending and has not stopped since. */
  ghost predicate AtWorkOn(s: State, w: nat, id: string) {
    w in s.workers && s.workers[w].ev.trackId == id && !s.workers[w].pc.Checking?
  }

  ghost predicate Abandoned(s: State, id: string) {
    id in s.d.tracks && s.d.tracks[id].status != Pending && forall w :: !AtWorkOn(s, w, id)
  }

  /** The track's row, but for a play_count that may rise, and its formats are the same. */
  ghost predicate SameTrack(d: Stores, d': Stores, id: string)
    requires id in d.tracks
  {
    && id in d'.tracks
    && d'.tracks[id] == d.tracks[id].(playCount := d'.tracks[id].playCount)
    && d.tracks[id].playCount <= d'.tracks[id].playCount
    && Rows(d', id) == Rows(d, id)
  }

  /** The step is one by which a worker may write the row or the formats of the track. */
  ghost predicate Touches(s: State, step: Step, id: string)
    requires Enabled(s, step)
  {
    match step
    case ClaimStep(w, _) => s.workers[w].ev.trackId == id
    case InsertFormat(w, _) => s.workers[w].ev.trackId == id
    case Finish(w, _) => s.workers[w].ev.trackId == id
    case MarkError(w, _) => s.workers[w].ev.trackId == id
    case _ => false
  }

  lemma UntouchedTrackStays(s: State, step: Step, id: string)
    requires Enabled(s, step) && id in s.d.tracks && !Touches(s, step, id)
    ensures SameTrack(s.d, NextStores(s, step), id)
  {
    hide Upsert, FormatKey, AudioKey, Enabled;
    assert step.CreateInsert? || step.Play? || step.ClaimStep? || step.Finish? || step.MarkError?
           || NextStores(s, step).tracks == s.d.tracks;
    assert step.InsertFormat? || NextStores(s, step).formats == s.d.formats;
  }

  lemma TouchedByWorker(s: State, step: Step, id: string) returns (w: nat)
    requires Enabled(s, step) && Touches(s, step, id)
    ensures AtWorkOn(s, w, id)
  {
    w := step.w;
  }

  lemma StepKeepsAbandoned(s: State, step: Step, id: string)
    requires Enabled(s, step) && Abandoned(s, id)
    ensures Abandoned(Apply(s, step), id) && SameTrack(s.d, Apply(s, step).d, id)
  {
    hide NextStores, Touches;
    if Touches(s, step, id) {
      var w := TouchedByWorker(s, step, id);
      assert false;
    }
    UntouchedTrackStays(s, step, id);
    forall w ensures !AtWorkOn(Apply(s, step), w, id) {
      assert !AtWorkOn(s, w, id);
    }
  }

  /** A track past pending that no worker is at work on keeps its row and formats for ever. */
  lemma {:induction false} AbandonedForEver(s: State, steps: seq<Step>, id: string)
    requires Abandoned(s, id) && IsRun(s, steps)
    ensures SameTrack(s.d, Run(s, steps).d, id)
    decreases |steps|
  {
    hide NextStores, Enabled;
    if steps != [] {
      StepKeepsAbandoned(s, steps[0], id);
      AbandonedForEver(Apply(s, steps[0]), steps[1..], id);
    }
  }

  ghost predicate StaysProcessing(s: State, id: string) {
    forall steps :: IsRun(s, steps) ==> id in Run(s, steps).d.tracks && Run(s, steps).d.tracks[id].status == Processing
  }

  function StepsToError(pc: Pc): nat {
    if pc.MarkingError? then 0 else if pc.Claiming? then 2 else 1
  }

  // Three ways in which steps can be well-behaved.

  predicate NoDeliveries(steps: seq<Step>) {
    forall step :: step in steps ==> !step.Deliver?
  }

  predicate FullListings(steps: seq<Step>) {
    forall step :: step in steps && step.ListFormats? ==> step.listing.All?
  }

  predicate AllAcknowledged(steps: seq<Step>) {
    forall step :: step in steps ==> !Result(step).LostAck?
  }

  /** Whatever the status, a worker at work can always still end in markError. */
  lemma {:induction false} CanFail(s: State, w: nat, id: string) returns (steps: seq<Step>)
    requires AtWorkOn(s, w, id) && JobSound(s, s.workers[w])
    ensures IsRun(s, steps) && NoDeliveries(steps) && FullListings(steps) && AllAcknowledged(steps)
    ensures var d := Run(s, steps).d; id in d.tracks && d.tracks[id].status == Error && d.cache == s.d.cache
    decreases StepsToError(s.workers[w].pc)
  {
    var step := match s.workers[w].pc
      case Claiming => ClaimStep(w, Ok)
      case Fetching => Fetch(w, Fail, 0)
      case Uploading(_, _) => Upload(w, Fail, 0)
      case Inserting(_, _, _) => InsertFormat(w, Fail)
      case Finishing(_) => Finish(w, Fail)
      case _ => MarkError(w, Ok);
    var next := Apply(s, step);
    var rest := [];
    if step.MarkError? {
      assert IsRun(next, []) && Run(next, []) == next;
    } else {
      ApplyExtends(s, step);
      rest := CanFail(next, w, id);
    }
    steps := [step] + rest;
  }

  /**
   * A track that says processing is stuck there for ever exactly when no worker is at work on it, as after
   * a crash between the claim and the end: redelivery only skips it.
   */
  lemma StuckIff(s: State, id: string)
    requires Safe(s) && id in s.d.tracks && s.d.tracks[id].status == Processing
    ensures StaysProcessing(s, id) <==> forall w :: !AtWorkOn(s, w, id)
  {
    if forall w :: !AtWorkOn(s, w, id) {
      forall steps | IsRun(s, steps)
        ensures id in Run(s, steps).d.tracks && Run(s, steps).d.tracks[id].status == Processing
      {
        AbandonedForEver(s, steps, id);
      }
    } else {
      var w :| AtWorkOn(s, w, id);
      var steps := CanFail(s, w, id);
    }
  }

  // ---------------------------------------------------------------- the conditional claim

  /** The workers that have read pending and are about to claim. */
  ghost function Claimers(s: State, id: string): set<nat> {
    set w | w in s.workers && s.workers[w].ev.trackId == id && s.workers[w].pc.Claiming?
  }

  /** Some run starts more than n further transcode passes of the track. */
  ghost predicate MorePasses(s: State, id: string, n: nat) {
    exists steps :: IsRun(s, steps) && Passes(Run(s, steps), id) > Passes(s, id) + n
  }

  ghost predicate PastPending(d: Stores, id: string) {
    id in d.tracks && d.tracks[id].status != Pending
  }

  lemma StepKeepsPastPending(s: State, step: Step, id: string)
    requires Enabled(s, step) && PastPending(s.d, id)
    ensures PastPending(Apply(s, step).d, id)
  {
  }

  ghost predicate StartsPass(s: State, step: Step, id: string)
    requires Enabled(s, step)
  {
    step.ClaimStep? && step.o.Ok? && s.workers[step.w].ev.trackId == id
  }

  lemma PassesAfter(s: State, step: Step, id: string)
    requires Enabled(s, step)
    ensures Passes(Apply(s, step), id) == Passes(s, id) + if StartsPass(s, step, id) then 1 else 0
  {
    hide NextStores, NextWorkers, NextReaders, NextCreators;
  }

  /** Past pending nobody comes to stand at the claim any more, and a pass uses up one of those who do. */
  lemma ClaimersAfter(s: State, step: Step, id: string)
    requires Enabled(s, step) && PastPending(s.d, id)
    ensures Claimers(Apply(s, step), id) <= Claimers(s, id) - if StartsPass(s, step, id) then {step.w} else {}
    ensures StartsPass(s, step, id) ==> step.w in Claimers(s, id)
  {
    hide NextStores;
  }

  lemma StepUsesClaimers(s: State, step: Step, id: string)
    requires Enabled(s, step) && PastPending(s.d, id)
    ensures Passes(Apply(s, step), id) + |Claimers(Apply(s, step), id)| <= Passes(s, id) + |Claimers(s, id)|
  {
    hide Apply, Enabled, Claimers, Passes;
    PassesAfter(s, step, id);
    ClaimersAfter(s, step, id);
    var before, after := Claimers(s, id), Claimers(Apply(s, step), id);
    assert before == after + (before - after);
    assert StartsPass(s, step, id) ==> step.w in before - after;
  }

  lemma {:induction false} PassesBounded(s: State, steps: seq<Step>, id: string)
    requires IsRun(s, steps) && PastPending(s.d, id)
    ensures Passes(Run(s, steps), id) <= Passes(s, id) + |Claimers(s, id)|
    decreases |steps|
  {
    hide Apply, Enabled, Claimers, Passes;
    if steps != [] {
      StepKeepsPastPending(s, steps[0], id);
      StepUsesClaimers(s, steps[0], id);
      PassesBounded(Apply(s, steps[0]), steps[1..], id);
    }
  }

  /** All who stand at the claim may go on, one after the other. */
  lemma {:induction false} AllClaim(s: State, id: string) returns (steps: seq<Step>)
    requires PastPending(s.d, id)
    ensures IsRun(s, steps) && Passes(Run(s, steps), id) == Passes(s, id) + |Claimers(s, id)|
    decreases |Claimers(s, id)|
  {
    steps := [];
    if Claimers(s, id) != {} {
      var w :| w in Claimers(s, id);
      var step := ClaimStep(w, Ok);
      var next := Apply(s, step);
      assert Claimers(next, id) == Claimers(s, id) - {w};
      StepKeepsPastPending(s, step, id);
      var rest := AllClaim(next, id);
      steps := [step] + rest;
      assert steps[1..] == rest;
    }
  }

  /**
   * How far the conditional claim excludes: of a track past pending, exactly as many transcode passes can
   * still start as workers stand at the claim. So none can, exactly when nobody stands there.
   */
  lemma MorePassesIff(s: State, id: string, n: nat)
    requires PastPending(s.d, id)
    ensures MorePasses(s, id, n) <==> n < |Claimers(s, id)|
  {
    if n < |Claimers(s, id)| {
      var steps := AllClaim(s, id);
    }
    forall steps | IsRun(s, steps) ensures Passes(Run(s, steps), id) <= Passes(s, id) + |Claimers(s, id)| {
      PassesBounded(s, steps, id);
    }
  }

  /** The guard alone decides: a worker at the claim may go on whatever the status says by then. */
  lemma ClaimExcludesIff(s: State, id: string)
    requires PastPending(s.d, id)
    ensures !MorePasses(s, id, 0)
            <==> forall w :: w in s.workers && s.workers[w].ev.trackId == id ==> !s.workers[w].pc.Claiming?
  {
    MorePassesIff(s, id, 0);
    if w :| w in s.workers && s.workers[w].ev.trackId == id && s.workers[w].pc.Claiming? {
      assert w in Claimers(s, id);
    } else {
      assert Claimers(s, id) == {};
    }
  }

  /** Two workers that both read pending both go on. */
  lemma BothClaim(s: State, w: nat, w': nat, id: string)
    requires w != w' && w in s.workers && w' in s.workers && id in s.d.tracks && s.d.tracks[id].status == Pending
    requires s.workers[w].pc == Claiming == s.workers[w'].pc
    requires s.workers[w].ev.trackId == id == s.workers[w'].ev.trackId
    ensures var steps := [ClaimStep(w, Ok), ClaimStep(w', Ok)];
            && IsRun(s, steps)
            && var s' := Run(s, steps);
               && s'.workers == s.workers[w := Job(s.workers[w].ev, Fetching)][w' := Job(s.workers[w'].ev, Fetching)]
               && s'.readers == s.readers
               && Passes(s', id) == Passes(s, id) + 2
  {
    var steps := [ClaimStep(w, Ok), ClaimStep(w', Ok)];
    var s1 := Apply(s, steps[0]);
    var s2 := Apply(s1, steps[1]);
    assert steps[1..] == [ClaimStep(w', Ok)] && steps[1..][1..] == [];
    assert IsRun(s2, []) && Run(s2, []) == s2;
    assert IsRun(s1, steps[1..]) && Run(s1, steps[1..]) == s2;
  }

  // ---------------------------------------------------------------- runs from empty stores

  lemma Then(s: State, steps: seq<Step>, step: Step) returns (more: seq<Step>)
    requires IsRun(s, steps) && Enabled(Run(s, steps), step)
    ensures more == steps + [step] && IsRun(s, more) && Run(s, more) == Apply(Run(s, steps), step)
  {
    more := steps + [step];
    Extended(s, steps, step);
  }

  const EMPTY := State(Stores({}, map[], map[], [], map[]), map[], map[], map[], map[])

  function Event(id: string): UploadEvent {
    UploadEvent(id, AudioKey(id))
  }

  /** A track is created. */
  lemma Created(id: string) returns (steps: seq<Step>)
    ensures IsRun(EMPTY, steps) && NoDeliveries(steps) && FullListings(steps) && AllAcknowledged(steps)
    ensures var s := Run(EMPTY, steps);
            && s.workers == map[] && s.readers == map[] && id in s.creators && s.d.log == [Event(id)]
            && id in s.d.tracks && s.d.tracks[id].status == Pending
  {
    steps := [];
    steps := Then(EMPTY, steps, CreateStart(id, ""));
    steps := Then(EMPTY, steps, CreateStore(id, Ok));
    steps := Then(EMPTY, steps, CreateInsert(id, Ok));
    steps := Then(EMPTY, steps, CreatePublish(id, Ok));
  }

  /** At most one event is handed to a worker. */
  ghost predicate DeliveredOnce(steps: seq<Step>) {
    forall i, j :: 0 <= i < j < |steps| ==> !(steps[i].Deliver? && steps[j].Deliver?)
  }

  /** The one event of the topic is handed to worker 0, who claims its track. */
  lemma HandedOver(s: State, ev: UploadEvent) returns (steps: seq<Step>)
    requires s.workers == map[] && s.d.log == [ev]
    requires ev.trackId in s.d.tracks && s.d.tracks[ev.trackId].status == Pending
    ensures steps == [Deliver(0, 0), Check(0, Ok), ClaimStep(0, Ok)] && IsRun(s, steps)
    ensures var s' := Run(s, steps);
            && s'.workers == map[0 := Job(ev, Fetching)] && s'.readers == s.readers && s'.creators == s.creators
            && ev.trackId in s'.d.tracks && s'.d.tracks[ev.trackId].status == Processing
  {
    steps := [];
    steps := Then(s, steps, Deliver(0, 0));
    assert Run(s, steps).workers == map[0 := Job(ev, Checking)];
    steps := Then(s, steps, Check(0, Ok));
    assert Run(s, steps).workers == map[0 := Job(ev, Claiming)];
    steps := Then(s, steps, ClaimStep(0, Ok));
  }

  /** A track is created and claimed by worker 0. */
  lemma Claimed(id: string) returns (steps: seq<Step>)
    ensures IsRun(EMPTY, steps) && DeliveredOnce(steps) && FullListings(steps) && AllAcknowledged(steps)
    ensures var s := Run(EMPTY, steps);
            && s.workers == map[0 := Job(Event(id), Fetching)] && s.readers == map[] && id in s.creators
            && id in s.d.tracks && s.d.tracks[id].status == Processing
  {
    hide IsRun, Run, Apply;
    var first := Created(id);
    var rest := HandedOver(Run(EMPTY, first), Event(id));
    Joined(EMPTY, first, rest);
    steps := first + rest;
    DeliveriesJoined(first, rest);
  }

  lemma DeliveriesJoined(first: seq<Step>, second: seq<Step>)
    requires (NoDeliveries(first) && DeliveredOnce(second)) || (DeliveredOnce(first) && NoDeliveries(second))
    ensures DeliveredOnce(first + second)
  {
    var steps := first + second;
    assert forall i :: 0 <= i < |first| ==> steps[i] == first[i] && first[i] in first;
    assert forall i :: |first| <= i < |steps| ==> steps[i] == second[i - |first|] && second[i - |first|] in second;
  }

  /** A stuck track is reachable: the worker crashes after the claim, and the track says processing for ever. */
  lemma CrashStrands(id: string) returns (steps: seq<Step>)
    ensures Init(EMPTY) && IsRun(EMPTY, steps) && FullListings(steps) && AllAcknowledged(steps) && DeliveredOnce(steps)
    ensures StaysProcessing(Run(EMPTY, steps), id)
  {
    steps := Claimed(id);
    DeliveriesJoined(steps, [WorkerCrash(0)]);
    steps := Then(EMPTY, steps, WorkerCrash(0));
    RunKeepsSafe(EMPTY, steps);
    StuckIff(Run(EMPTY, steps), id);
  }
}
