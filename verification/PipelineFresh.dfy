/** Exactly when cache hits stay fresh, for a track in any status and in every state a run can reach. */
module PipelineFresh {
  import opened Pipeline
  import opened PipelineSafety
  import opened PipelineCache
  import opened PipelineLimits
  import opened PipelineStale

  // ---------------------------------------------------------------- what every view keeps, without care

  /** A view once read from the track's row: what never changes is the same, and the counter is not ahead. */
  ghost predicate ReadFrom(d: Stores, id: string, v: View) {
    id in d.tracks && v.meta == d.tracks[id].meta && v.playCount <= d.tracks[id].playCount
  }

  ghost predicate ViewSound(d: Stores, r: Reader) {
    match r
    case ReadingRow(_) => true
    case ListingFormats(id, v) => ReadFrom(d, id, v)
    case Saving(id, v) => ReadFrom(d, id, v) && v.status == Ready
  }

  ghost predicate ViewsSound(s: State) {
    && (forall id :: id in s.d.cache ==> ReadFrom(s.d, id, s.d.cache[id]) && s.d.cache[id].status == Ready)
    && (forall r :: r in s.readers ==> ViewSound(s.d, s.readers[r]))
  }

  lemma ReadFromStays(s: State, step: Step, id: string, v: View)
    requires Enabled(s, step) && ReadFrom(s.d, id, v)
    ensures ReadFrom(NextStores(s, step), id, v)
  {
  }

  lemma ReaderViewStays(s: State, step: Step, r: nat)
    requires Enabled(s, step) && r in NextReaders(s, step)
    requires r in s.readers ==> ViewSound(s.d, s.readers[r])
    ensures ViewSound(NextStores(s, step), NextReaders(s, step)[r])
  {
    if r in s.readers && NextReaders(s, step)[r] == s.readers[r] {
      hide NextStores, NextReaders, ReadFrom;
      match s.readers[r]
      case ReadingRow(_) =>
      case ListingFormats(id, v) => ReadFromStays(s, step, id, v);
      case Saving(id, v) => ReadFromStays(s, step, id, v);
    }
  }

  lemma CachedViewStays(s: State, step: Step, id: string)
    requires Enabled(s, step) && ViewsSound(s) && id in NextStores(s, step).cache
    ensures var v := NextStores(s, step).cache[id];
            ReadFrom(NextStores(s, step), id, v) && v.status == Ready
  {
    if step.Save? {
      assert ViewSound(s.d, s.readers[step.r]);
    }
    hide ReadFrom;
    ReadFromStays(s, step, id, NextStores(s, step).cache[id]);
  }

  lemma ApplyKeepsViews(s: State, step: Step)
    requires Enabled(s, step) && ViewsSound(s)
    ensures ViewsSound(Apply(s, step))
  {
    hide NextStores, NextReaders, ReadFrom, ViewSound;
    forall id | id in Apply(s, step).d.cache
      ensures ReadFrom(Apply(s, step).d, id, Apply(s, step).d.cache[id]) && Apply(s, step).d.cache[id].status == Ready
    {
      CachedViewStays(s, step, id);
    }
    forall r | r in Apply(s, step).readers ensures ViewSound(Apply(s, step).d, Apply(s, step).readers[r]) {
      ReaderViewStays(s, step, r);
    }
  }

  lemma {:induction false} RunKeepsViews(s: State, steps: seq<Step>)
    requires IsRun(s, steps) && ViewsSound(s)
    ensures ViewsSound(Run(s, steps))
    decreases |steps|
  {
    hide ViewsSound, Apply, Enabled;
    if steps != [] {
      ApplyKeepsViews(s, steps[0]);
      RunKeepsViews(Apply(s, steps[0]), steps[1..]);
    }
  }

  // ---------------------------------------------------------------- unsound hits go stale

  lemma UnsoundReaderGoesStale(s: State, r: nat, id: string) returns (steps: seq<Step>)
    requires ViewsSound(s) && id in s.d.tracks && r in s.readers && s.readers[r].id == id
    requires !ReaderSound(s.d, s.readers[r])
    ensures IsRun(s, steps) && FullListings(steps) && StaleHit(Run(s, steps).d, id)
  {
    assert ViewSound(s.d, s.readers[r]);
    steps := [];
    if s.readers[r].ListingFormats? {
      steps := Then(s, steps, ListFormats(r, All));
    }
    steps := Then(s, steps, Save(r, Ok));
  }

  /** What is unsound is stale, or becomes so when a reader saves it. */
  lemma UnsoundGoesStale(s: State, id: string) returns (steps: seq<Step>)
    requires ViewsSound(s) && id in s.d.tracks && !HitsSound(s, id)
    ensures IsRun(s, steps) && FullListings(steps) && StaleHit(Run(s, steps).d, id)
  {
    if id in s.d.cache && !Agrees(s.d, id, s.d.cache[id]) {
      steps := [];
      assert ReadFrom(s.d, id, s.d.cache[id]);
    } else {
      var r :| r in s.readers && s.readers[r].id == id && !ReaderSound(s.d, s.readers[r]);
      steps := UnsoundReaderGoesStale(s, r, id);
    }
  }

  // ---------------------------------------------------------------- pending tracks

  /** A worker can still come to stand at the claim of the pending track. */
  ghost predicate CanStart(s: State, id: string) {
    || (exists w :: w in s.workers && s.workers[w].ev.trackId == id && s.workers[w].pc.Checking?)
    || (exists ev :: ev in s.d.log && ev.trackId == id)
    || (id in s.creators && s.creators[id].Publishing?)
  }

  /** Somebody can still spoil a hit for the track. */
  ghost predicate MaySpoil(s: State, id: string)
    requires id in s.d.tracks
  {
    (exists w :: Threatens(s, w, id)) || (s.d.tracks[id].status == Pending && CanStart(s, id))
  }

  lemma CheckingSpoils(s: State, w: nat, id: string) returns (steps: seq<Step>)
    requires Safe(s) && id in s.d.tracks && s.d.tracks[id].status == Pending
    requires w in s.workers && s.workers[w].ev.trackId == id && s.workers[w].pc.Checking?
    ensures IsRun(s, steps) && FullListings(steps) && StaleHit(Run(s, steps).d, id)
  {
    var step := Check(w, Ok);
    var s1 := Apply(s, step);
    ApplyKeepsSafe(s, step);
    assert Threatens(s1, w, id);
    var rest := StaleRun(s1, w, id);
    steps := Prepended(s, step, rest);
  }

  lemma Prepended(s: State, step: Step, rest: seq<Step>) returns (steps: seq<Step>)
    requires Enabled(s, step) && IsRun(Apply(s, step), rest)
    ensures steps == [step] + rest && IsRun(s, steps) && Run(s, steps) == Run(Apply(s, step), rest)
  {
    steps := [step] + rest;
    assert steps[1..] == rest;
  }

  lemma LoggedSpoils(s: State, ev: UploadEvent, id: string) returns (steps: seq<Step>)
    requires Safe(s) && id in s.d.tracks && s.d.tracks[id].status == Pending && ev in s.d.log && ev.trackId == id
    ensures IsRun(s, steps) && FullListings(steps) && StaleHit(Run(s, steps).d, id)
  {
    hide Safe, StaleHit;
    var w := LargerThanAll(s.workers.Keys);
    var i :| 0 <= i < |s.d.log| && s.d.log[i] == ev;
    var step := Deliver(w, i);
    ApplyKeepsSafe(s, step);
    var rest := CheckingSpoils(Apply(s, step), w, id);
    steps := Prepended(s, step, rest);
  }

  lemma PublishingSpoils(s: State, id: string) returns (steps: seq<Step>)
    requires Safe(s) && id in s.d.tracks && s.d.tracks[id].status == Pending
    requires id in s.creators && s.creators[id].Publishing?
    ensures IsRun(s, steps) && FullListings(steps) && StaleHit(Run(s, steps).d, id)
  {
    hide Safe, StaleHit;
    var step := CreatePublish(id, Ok);
    ApplyKeepsSafe(s, step);
    var ev := UploadEvent(id, AudioKey(id));
    assert Apply(s, step).d.log == s.d.log + [ev];
    var rest := LoggedSpoils(Apply(s, step), ev, id);
    steps := Prepended(s, step, rest);
  }

  lemma SpoilingRun(s: State, id: string) returns (steps: seq<Step>)
    requires Safe(s) && id in s.d.tracks && MaySpoil(s, id)
    ensures IsRun(s, steps) && FullListings(steps) && StaleHit(Run(s, steps).d, id)
  {
    hide Safe, StaleHit, Threatens, Run, IsRun;
    if w :| Threatens(s, w, id) {
      steps := StaleRun(s, w, id);
    } else if w :| w in s.workers && s.workers[w].ev.trackId == id && s.workers[w].pc.Checking? {
      steps := CheckingSpoils(s, w, id);
    } else if ev :| ev in s.d.log && ev.trackId == id {
      steps := LoggedSpoils(s, ev, id);
    } else {
      steps := PublishingSpoils(s, id);
    }
  }

  // ---------------------------------------------------------------- nobody spoils

  /** A pending track that nobody will process: its event never came to the topic. */
  ghost predicate Dormant(s: State, id: string) {
    && id in s.d.tracks && s.d.tracks[id].status == Pending && HitsSound(s, id)
    && (forall w :: !Threatens(s, w, id)) && !CanStart(s, id)
  }

  lemma DormantTrack(s: State, step: Step, id: string)
    requires Enabled(s, step) && Dormant(s, id)
    ensures var d := NextStores(s, step);
            id in d.tracks && (d.tracks[id].status == Pending || d.tracks[id].status == Error)
  {
    if Touches(s, step, id) {
      var w := TouchedByWorker(s, step, id);
      assert !Threatens(s, step.w, id);
    } else {
      UntouchedTrackStays(s, step, id);
    }
  }

  lemma DormantWorker(s: State, step: Step, id: string, w: nat)
    requires Enabled(s, step) && Dormant(s, id) && w in NextWorkers(s, step) && NextWorkers(s, step)[w].ev.trackId == id
    ensures NextWorkers(s, step)[w].pc.MarkingError?
  {
    assert !Threatens(s, w, id);
    assert step.Deliver? ==> s.d.log[step.i] in s.d.log;
  }

  lemma DormantTopic(s: State, step: Step, id: string)
    requires Safe(s) && Enabled(s, step) && Dormant(s, id)
    ensures forall ev :: ev in NextStores(s, step).log ==> ev.trackId != id
    ensures id in NextCreators(s, step) ==> !NextCreators(s, step)[id].Publishing?
  {
    assert id in s.creators ==> CreatorSound(s, id);
    assert NextStores(s, step).log == s.d.log ||
           (step.CreatePublish? && NextStores(s, step).log == s.d.log + [UploadEvent(step.id, AudioKey(step.id))]);
  }

  lemma StepKeepsDormant(s: State, step: Step, id: string)
    requires Safe(s) && Enabled(s, step) && Dormant(s, id) && (step.ListFormats? ==> step.listing.All?)
    ensures Dormant(Apply(s, step), id) || Quiet(Apply(s, step), id)
  {
    hide NextStores, NextWorkers, NextCreators, NextReaders, HitsSound, Safe;
    var s' := Apply(s, step);
    DormantTrack(s, step, id);
    QuietHits(s, step, id);
    DormantTopic(s, step, id);
    forall w | w in s'.workers && s'.workers[w].ev.trackId == id ensures s'.workers[w].pc.MarkingError? {
      DormantWorker(s, step, id, w);
    }
  }

  lemma {:induction false} NeverSpoiled(s: State, steps: seq<Step>, id: string)
    requires IsRun(s, steps) && Safe(s) && (Dormant(s, id) || Quiet(s, id)) && FullListings(steps)
    ensures !StaleHit(Run(s, steps).d, id)
    decreases |steps|
  {
    hide Safe, HitsSound, Threatens, CanStart;
    if steps == [] {
      SoundIsNotStale(s, id);
    } else {
      ApplyKeepsSafe(s, steps[0]);
      if Dormant(s, id) {
        StepKeepsDormant(s, steps[0], id);
      } else {
        StepKeepsQuiet(s, steps[0], id);
      }
      hide Apply, Enabled, Dormant, Quiet;
      NeverSpoiled(Apply(s, steps[0]), steps[1..], id);
    }
  }

  lemma SoundIsNotStale(s: State, id: string)
    requires HitsSound(s, id)
    ensures !StaleHit(s.d, id)
  {
  }

  // ---------------------------------------------------------------- main result

  /**
   * In every state a run can reach, for every track, whatever its status: hits stay fresh on all continuations with
   * complete listings, exactly when what is cached or about to be is fresh now and nobody can still spoil it.
   */
  lemma StaysFreshIff(init: State, before: seq<Step>, id: string)
    requires Init(init) && IsRun(init, before) && id in Run(init, before).d.tracks
    ensures var s := Run(init, before); StaysFresh(s, id) <==> HitsSound(s, id) && !MaySpoil(s, id)
  {
    var s := Run(init, before);
    InitIsSound(Full, init);
    RunKeepsSafe(init, before);
    RunKeepsViews(init, before);
    StateStaysFreshIff(s, id);
  }

  lemma StateStaysFreshIff(s: State, id: string)
    requires Safe(s) && ViewsSound(s) && id in s.d.tracks
    ensures StaysFresh(s, id) <==> HitsSound(s, id) && !MaySpoil(s, id)
  {
    hide Safe, ViewsSound, HitsSound, Threatens, CanStart, StaleHit, IsRun, Run;
    if !HitsSound(s, id) {
      var steps := UnsoundGoesStale(s, id);
    } else if MaySpoil(s, id) {
      var steps := SpoilingRun(s, id);
    } else {
      forall steps | IsRun(s, steps) && FullListings(steps) ensures !StaleHit(Run(s, steps).d, id) {
        NeverSpoiled(s, steps, id);
      }
    }
  }
}
