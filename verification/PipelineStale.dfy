/**
 * Exactly when cache hits stay fresh, and a run from empty stores for each lapse of care that lets one go
 * stale: a second worker, a lost acknowledgement of "set ready", a formats query cut short.
 */
module PipelineStale {
  import opened Pipeline
  import opened PipelineSafety
  import opened PipelineCache
  import opened PipelineLimits

  /** A cache hit that is no fresh read. */
  ghost predicate StaleHit(d: Stores, id: string) {
    id in d.cache && id in d.tracks && d.cache[id] != FreshView(d, id).(playCount := d.cache[id].playCount)
  }

  /** However a run with complete listings goes on, a hit for the track is never stale. */
  ghost predicate StaysFresh(s: State, id: string) {
    forall steps :: IsRun(s, steps) && FullListings(steps) ==> !StaleHit(Run(s, steps).d, id)
  }

  /** What is cached for the track, and what readers are about to cache, is fresh now. */
  ghost predicate HitsSound(s: State, id: string) {
    && (id in s.d.cache ==> Agrees(s.d, id, s.d.cache[id]))
    && (forall r :: r in s.readers && s.readers[r].id == id ==> ReaderSound(s.d, s.readers[r]))
  }

  /** The worker can still spoil a hit: by failing a ready track, or by making it ready and failing it then. */
  ghost predicate Threatens(s: State, w: nat, id: string)
    requires id in s.d.tracks
  {
    AtWorkOn(s, w, id) && (s.d.tracks[id].status == Ready || !s.workers[w].pc.MarkingError?)
  }

  // ---------------------------------------------------------------- nobody threatens

  ghost predicate Quiet(s: State, id: string) {
    PastPending(s.d, id) && HitsSound(s, id) && forall w :: !Threatens(s, w, id)
  }

  lemma QuietTrack(s: State, step: Step, id: string)
    requires Enabled(s, step) && Quiet(s, id)
    ensures ReadyKept(s.d, NextStores(s, step), id)
    ensures id in NextStores(s, step).tracks
    ensures s.d.tracks[id].status != Ready ==> NextStores(s, step).tracks[id].status != Ready
  {
    if Touches(s, step, id) {
      var w := TouchedByWorker(s, step, id);
      assert !Threatens(s, step.w, id);
    } else {
      UntouchedTrackStays(s, step, id);
    }
  }

  lemma QuietWorkers(s: State, step: Step, id: string, w: nat)
    requires Enabled(s, step) && Quiet(s, id) && id in NextStores(s, step).tracks
    requires s.d.tracks[id].status != Ready ==> NextStores(s, step).tracks[id].status != Ready
    ensures !Threatens(Apply(s, step), w, id)
  {
    hide NextStores;
    assert !Threatens(s, w, id);
  }

  lemma ReaderKeepsTrack(s: State, step: Step, r: nat)
    requires Enabled(s, step) && r in s.readers && r in NextReaders(s, step)
    ensures NextReaders(s, step)[r].id == s.readers[r].id
  {
  }

  lemma QuietHits(s: State, step: Step, id: string)
    requires Enabled(s, step) && HitsSound(s, id) && (step.ListFormats? ==> step.listing.All?)
    requires ReadyKept(s.d, NextStores(s, step), id)
    ensures HitsSound(Apply(s, step), id)
  {
    hide NextStores, NextReaders, ReadyKept, Agrees, ReaderSound, PastPending, Threatens;
    var s' := Apply(s, step);
    if id in s'.d.cache {
      ApplyKeepsHit(s, step, id);
    }
    forall r | r in s'.readers && s'.readers[r].id == id ensures ReaderSound(s'.d, s'.readers[r]) {
      if r in s.readers {
        ReaderKeepsTrack(s, step, r);
      }
      ApplyKeepsReader(s, step, r);
    }
  }

  lemma StepKeepsQuiet(s: State, step: Step, id: string)
    requires Enabled(s, step) && Quiet(s, id) && (step.ListFormats? ==> step.listing.All?)
    ensures Quiet(Apply(s, step), id)
  {
    hide NextStores, NextReaders, NextWorkers, ReadyKept, HitsSound, Threatens, PastPending;
    QuietTrack(s, step, id);
    StepKeepsPastPending(s, step, id);
    QuietHits(s, step, id);
    forall w ensures !Threatens(Apply(s, step), w, id) {
      QuietWorkers(s, step, id, w);
    }
  }

  lemma {:induction false} QuietForEver(s: State, steps: seq<Step>, id: string)
    requires IsRun(s, steps) && Quiet(s, id) && FullListings(steps)
    ensures !StaleHit(Run(s, steps).d, id)
    decreases |steps|
  {
    if steps != [] {
      hide Apply, Enabled, Quiet;
      StepKeepsQuiet(s, steps[0], id);
      QuietForEver(Apply(s, steps[0]), steps[1..], id);
    }
  }

  // ---------------------------------------------------------------- somebody threatens

  /** Operations left until the track is ready. */
  function StepsToReady(pc: Pc): nat {
    match pc
    case Claiming => 2 * |BITRATES| + 3
    case Fetching => 2 * |BITRATES| + 2
    case Uploading(i, _) => if i < |BITRATES| then 2 * (|BITRATES| - i) + 1 else 0
    case Inserting(i, _, _) => if i < |BITRATES| then 2 * (|BITRATES| - i) else 0
    case Finishing(_) => 1
    case _ => 0
  }

  /** The worker past the claim makes the track ready; then it stops, or has lost the acknowledgement. */
  ghost predicate MadeReady(s: State, s': State, w: nat, id: string, o: Outcome)
    requires w in s.workers
  {
    && s'.workers == (if o.Ok? then s.workers - {w} else s.workers[w := Job(s.workers[w].ev, MarkingError)])
    && s'.readers == s.readers && s'.creators == s.creators && s'.d.cache == s.d.cache
    && id in s'.d.tracks && s'.d.tracks[id].status == Ready
  }

  /** The next step of a worker with whom nothing fails, except that its last acknowledgement may be lost. */
  function GoodStep(w: nat, pc: Pc, o: Outcome): Step {
    match pc
    case Checking => Check(w, Ok)
    case Claiming => ClaimStep(w, Ok)
    case Fetching => Fetch(w, Ok, 0)
    case Uploading(_, _) => Upload(w, Ok, 0)
    case Inserting(_, _, _) => InsertFormat(w, Ok)
    case Finishing(_) => Finish(w, o)
    case MarkingError => MarkError(w, Ok)
  }

  lemma GoodStepAdvances(s: State, w: nat, id: string, o: Outcome)
    requires AtWorkOn(s, w, id) && JobSound(s, s.workers[w]) && StepsToReady(s.workers[w].pc) > 1
    ensures var step := GoodStep(w, s.workers[w].pc, o);
            && Enabled(s, step)
            && var s' := Apply(s, step);
               && w in s'.workers && s'.workers == s.workers[w := s'.workers[w]]
               && AtWorkOn(s', w, id) && JobSound(s', s'.workers[w])
               && s'.workers[w].ev == s.workers[w].ev
               && 0 < StepsToReady(s'.workers[w].pc) < StepsToReady(s.workers[w].pc)
               && s'.readers == s.readers && s'.creators == s.creators && s'.d.cache == s.d.cache
  {
    NewJobSound(s, GoodStep(w, s.workers[w].pc, o), w);
  }

  lemma LastStepMakesReady(s: State, w: nat, id: string, o: Outcome)
    requires AtWorkOn(s, w, id) && JobSound(s, s.workers[w]) && s.workers[w].pc.Finishing? && !o.Fail?
    ensures Enabled(s, Finish(w, o)) && MadeReady(s, Apply(s, Finish(w, o)), w, id, o)
  {
  }

  lemma {:induction false} Completes(s: State, w: nat, id: string, o: Outcome) returns (steps: seq<Step>)
    requires AtWorkOn(s, w, id) && JobSound(s, s.workers[w]) && StepsToReady(s.workers[w].pc) > 0 && !o.Fail?
    ensures IsRun(s, steps) && NoDeliveries(steps) && FullListings(steps) && (o.Ok? ==> AllAcknowledged(steps))
    ensures MadeReady(s, Run(s, steps), w, id, o)
    decreases StepsToReady(s.workers[w].pc)
  {
    hide Apply, Enabled, JobSound;
    var step := GoodStep(w, s.workers[w].pc, o);
    if s.workers[w].pc.Finishing? {
      LastStepMakesReady(s, w, id, o);
      var next := Apply(s, step);
      assert IsRun(next, []) && Run(next, []) == next;
      steps := [step];
    } else {
      GoodStepAdvances(s, w, id, o);
      var next := Apply(s, step);
      var rest := Completes(next, w, id, o);
      assert next.workers - {w} == s.workers - {w};
      steps := [step] + rest;
    }
  }

  lemma FreshReader(s: State) returns (r: nat)
    ensures r !in s.readers
  {
    r := LargerThanAll(s.readers.Keys);
  }

  lemma {:induction false} LargerThanAll(used: set<nat>) returns (a: nat)
    ensures forall b :: b in used ==> b < a
    decreases |used|
  {
    a := 0;
    if used != {} {
      var b :| b in used;
      var c := LargerThanAll(used - {b});
      a := if b < c then c else b + 1;
      assert used == (used - {b}) + {b};
    }
  }

  lemma ReadsRow(s: State, r: nat, id: string)
    requires r !in s.readers && id in s.d.tracks
    ensures Enabled(s, Miss(r, id))
    ensures var s1 := Apply(s, Miss(r, id));
            && Enabled(s1, ReadRow(r, Ok))
            && Apply(s1, ReadRow(r, Ok)) == s.(readers := s.readers[r := ListingFormats(id, RowView(s.d.tracks[id]))])
  {
  }

  lemma SavesListing(s: State, r: nat, id: string, row: View, listing: Listing)
    requires r !in s.readers && row.status == Ready
    ensures var s1 := s.(readers := s.readers[r := ListingFormats(id, row)]);
            var view := row.(formats := Listed(s.d, id, listing));
            && Enabled(s1, ListFormats(r, listing))
            && var s2 := Apply(s1, ListFormats(r, listing));
               && Enabled(s2, Save(r, Ok))
               && Apply(s2, Save(r, Ok)) == s.(d := s.d.(cache := s.d.cache[id := view]))
  {
    var s1, view := s.(readers := s.readers[r := ListingFormats(id, row)]), row.(formats := Listed(s.d, id, listing));
    assert Apply(s1, ListFormats(r, listing)) == s.(readers := s.readers[r := Saving(id, view)]);
    assert s.readers[r := Saving(id, view)] - {r} == s.readers;
  }

  /** A reader of a ready track, undisturbed, caches what its listing delivers. */
  lemma ReadsAndCaches(s: State, r: nat, id: string, listing: Listing) returns (steps: seq<Step>)
    requires r !in s.readers && id in s.d.tracks && s.d.tracks[id].status == Ready
    ensures steps == [Miss(r, id), ReadRow(r, Ok), ListFormats(r, listing), Save(r, Ok)] && IsRun(s, steps)
    ensures var view := RowView(s.d.tracks[id]).(formats := Listed(s.d, id, listing));
            Run(s, steps) == s.(d := s.d.(cache := s.d.cache[id := view]))
  {
    ReadsRow(s, r, id);
    SavesListing(s, r, id, RowView(s.d.tracks[id]), listing);
    hide Apply, Enabled, Listed;
    steps := [];
    steps := Then(s, steps, Miss(r, id));
    steps := Then(s, steps, ReadRow(r, Ok));
    steps := Then(s, steps, ListFormats(r, listing));
    steps := Then(s, steps, Save(r, Ok));
  }

  lemma SafeJobs(s: State, w: nat)
    requires Safe(s) && w in s.workers
    ensures JobSound(s, s.workers[w])
  {
  }

  /** A worker at work on a ready track: it is read and cached, and then the worker fails. */
  lemma StaleOnceReady(s: State, w: nat, id: string) returns (steps: seq<Step>)
    requires Safe(s) && AtWorkOn(s, w, id) && id in s.d.tracks && s.d.tracks[id].status == Ready
    ensures IsRun(s, steps) && StaleHit(Run(s, steps).d, id)
    ensures NoDeliveries(steps) && FullListings(steps) && AllAcknowledged(steps)
  {
    hide Safe, Run, IsRun, JobSound, Listed;
    var r := FreshReader(s);
    var reading := ReadsAndCaches(s, r, id, All);
    var s1 := Run(s, reading);
    RunKeepsSafe(s, reading);
    SafeJobs(s1, w);
    var failing := CanFail(s1, w, id);
    Joined(s, reading, failing);
    steps := reading + failing;
  }

  lemma StaleRun(s: State, w: nat, id: string) returns (steps: seq<Step>)
    requires Safe(s) && id in s.d.tracks && Threatens(s, w, id)
    ensures IsRun(s, steps) && StaleHit(Run(s, steps).d, id)
    ensures NoDeliveries(steps) && FullListings(steps)
  {
    hide Safe, Run, IsRun, JobSound, StaleHit;
    if s.d.tracks[id].status == Ready {
      steps := StaleOnceReady(s, w, id);
    } else {
      SafeJobs(s, w);
      WorkersPlace(s, w);
      var completing := Completes(s, w, id, LostAck);
      RunKeepsSafe(s, completing);
      var failing := StaleOnceReady(Run(s, completing), w, id);
      Joined(s, completing, failing);
      steps := completing + failing;
    }
  }

  lemma WorkersPlace(s: State, w: nat)
    requires w in s.workers && JobSound(s, s.workers[w]) && !s.workers[w].pc.MarkingError? && !s.workers[w].pc.Checking?
    ensures StepsToReady(s.workers[w].pc) > 0
  {
  }

  // ---------------------------------------------------------------- main results

  /**
   * Of a track past pending whose hits are sound now: they stay fresh on all continuations with complete
   * listings, whatever is delivered, lost or crashes, exactly when no worker at work can still fail it once ready.
   */
  lemma FreshIff(s: State, id: string)
    requires Safe(s) && HitsSound(s, id) && PastPending(s.d, id)
    ensures StaysFresh(s, id) <==> forall w :: !Threatens(s, w, id)
  {
    hide Safe, HitsSound, Threatens, StaleHit, IsRun, Run;
    if forall w :: !Threatens(s, w, id) {
      forall steps | IsRun(s, steps) && FullListings(steps) ensures !StaleHit(Run(s, steps).d, id) {
        QuietForEver(s, steps, id);
      }
    } else {
      var w :| Threatens(s, w, id);
      var steps := StaleRun(s, w, id);
    }
  }

  /** In particular, for a ready track: exactly when no worker at all is at work on it. */
  lemma ReadyHitsFreshIff(s: State, id: string)
    requires Safe(s) && HitsSound(s, id) && id in s.d.tracks && s.d.tracks[id].status == Ready
    ensures StaysFresh(s, id) <==> forall w :: !AtWorkOn(s, w, id)
  {
    hide Safe, HitsSound, StaysFresh;
    FreshIff(s, id);
    assert forall w :: Threatens(s, w, id) <==> AtWorkOn(s, w, id);
  }

  /**
   * A reader about to list the formats of a ready track, undisturbed until it has filled the cache: the
   * cached view is a fresh one exactly when the query delivered every row. A failed query is cached too.
   */
  lemma CachedIffAllListed(s: State, r: nat, id: string, view: View, listing: Listing)
    requires r in s.readers && s.readers[r] == ListingFormats(id, view)
    requires id in s.d.tracks && RowAgrees(s.d.tracks[id], view)
    ensures var steps := [ListFormats(r, listing), Save(r, Ok)];
            && IsRun(s, steps)
            && var d := Run(s, steps).d;
               && id in d.cache
               && (Agrees(d, id, d.cache[id]) <==> listing.All? || listing.n >= |Rows(s.d, id)|)
  {
    var steps := [ListFormats(r, listing), Save(r, Ok)];
    var s1 := Apply(s, steps[0]);
    var s2 := Apply(s1, steps[1]);
    assert steps[1..] == [Save(r, Ok)] && steps[1..][1..] == [];
    assert IsRun(s2, []) && Run(s2, []) == s2;
    assert IsRun(s1, steps[1..]) && Run(s1, steps[1..]) == s2;
    InfosList(Rows(s.d, id));
  }

  // ---------------------------------------------------------------- each kind of care is needed

  /** From empty stores: the event is handed to workers 0 and 1, who both claim the track. */
  lemma BothClaimed(id: string) returns (steps: seq<Step>)
    ensures IsRun(EMPTY, steps) && FullListings(steps) && AllAcknowledged(steps)
    ensures var s := Run(EMPTY, steps);
            && s.workers == map[0 := Job(Event(id), Fetching), 1 := Job(Event(id), Fetching)]
  {
    hide Run, IsRun, Apply;
    var create := Created(id);
    var s := Run(EMPTY, create);
    var both := BothChecked(s, Event(id));
    Joined(EMPTY, create, both);
    BothClaim(Run(s, both), 0, 1, id);
    var claims := [ClaimStep(0, Ok), ClaimStep(1, Ok)];
    Joined(EMPTY, create + both, claims);
    steps := create + both + claims;
  }

  lemma BothChecked(s: State, ev: UploadEvent) returns (steps: seq<Step>)
    requires s.workers == map[] && s.d.log == [ev]
    requires ev.trackId in s.d.tracks && s.d.tracks[ev.trackId].status == Pending
    ensures IsRun(s, steps) && FullListings(steps) && AllAcknowledged(steps)
    ensures Run(s, steps) == s.(workers := map[0 := Job(ev, Claiming), 1 := Job(ev, Claiming)])
  {
    steps := [];
    steps := Then(s, steps, Deliver(0, 0));
    steps := Then(s, steps, Deliver(1, 0));
    assert Run(s, steps).workers == map[0 := Job(ev, Checking), 1 := Job(ev, Checking)];
    steps := Then(s, steps, Check(0, Ok));
    steps := Then(s, steps, Check(1, Ok));
  }

  /** Two workers on one track, everything else in order: one makes it ready, it is cached, the other fails. */
  lemma SecondWorkerStales(id: string) returns (steps: seq<Step>)
    ensures Init(EMPTY) && IsRun(EMPTY, steps) && FullListings(steps) && AllAcknowledged(steps)
    ensures StaleHit(Run(EMPTY, steps).d, id)
  {
    hide Run, IsRun, Safe, JobSound, StaleHit;
    var claims := BothClaimed(id);
    var s := Run(EMPTY, claims);
    SafeFromEmpty(claims);
    SafeJobs(s, 0);
    var completing := Completes(s, 0, id, Ok);
    RunKeepsSafe(s, completing);
    var failing := StaleOnceReady(Run(s, completing), 1, id);
    Joined(EMPTY, claims, completing);
    Joined(EMPTY, claims + completing, failing);
    steps := claims + completing + failing;
  }

  /** One delivery, complete listings: "set ready" takes effect but reports an error, so the worker marks the error. */
  lemma LostAckStales(id: string) returns (steps: seq<Step>)
    ensures Init(EMPTY) && IsRun(EMPTY, steps) && FullListings(steps) && DeliveredOnce(steps)
    ensures StaleHit(Run(EMPTY, steps).d, id)
  {
    hide Run, IsRun, Safe, StaleHit, DeliveredOnce;
    var claim := Claimed(id);
    SafeFromEmpty(claim);
    var rest := StaleRun(Run(EMPTY, claim), 0, id);
    Joined(EMPTY, claim, rest);
    DeliveriesJoined(claim, rest);
    steps := claim + rest;
  }

  /** One delivery, no acknowledgement lost: a formats query fails at its first row and the answer is cached. */
  lemma CutListingStales(id: string) returns (steps: seq<Step>)
    ensures Init(EMPTY) && IsRun(EMPTY, steps) && AllAcknowledged(steps) && DeliveredOnce(steps)
    ensures StaleHit(Run(EMPTY, steps).d, id)
  {
    hide Run, IsRun, Safe, JobSound, DeliveredOnce;
    var claim := Claimed(id);
    var s := Run(EMPTY, claim);
    SafeFromEmpty(claim);
    SafeJobs(s, 0);
    var completing := Completes(s, 0, id, Ok);
    Joined(EMPTY, claim, completing);
    DeliveriesJoined(claim, completing);
    var reading := ReadsAndCaches(Run(s, completing), 0, id, Partial(0));
    ReadyMeansComplete(EMPTY, claim + completing, id);
    InfosList(Rows(Run(s, completing).d, id));
    Joined(EMPTY, claim + completing, reading);
    DeliveriesJoined(claim + completing, reading);
    steps := claim + completing + reading;
  }

  lemma SafeFromEmpty(steps: seq<Step>)
    requires IsRun(EMPTY, steps)
    ensures Safe(Run(EMPTY, steps))
  {
    InitIsSound(Full, EMPTY);
    RunKeepsSafe(EMPTY, steps);
  }
}
