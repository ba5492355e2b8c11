/**
 * The cache against the database, and the status machine, on careful runs. Each result asks only for the care
 * it needs: at most one process per track at a time; no "set ready" that reports an error after taking effect;
 * no formats query cut short.
 */
module PipelineCache {
  import opened Pipeline
  import opened PipelineSafety

  /** How careful a run is: OneProcess about deliveries, Acknowledged about "set ready" too, Full about listings too. */
  datatype Care = OneProcess | Acknowledged | Full

  ghost predicate Careful(care: Care, s: State, step: Step)
    requires Enabled(s, step)
  {
    match step
    case Deliver(_, i) => forall w :: w in s.workers ==> s.workers[w].ev.trackId != s.d.log[i].trackId
    case Finish(_, o) => o.LostAck? ==> care.OneProcess?
    case ListFormats(_, listing) => care.Full? ==> listing.All?
    case _ => true
  }

  ghost predicate CarefulRun(care: Care, s: State, steps: seq<Step>)
    requires IsRun(s, steps)
    decreases |steps|
  {
    steps == [] || (Careful(care, s, steps[0]) && CarefulRun(care, Apply(s, steps[0]), steps[1..]))
  }

  /** The row part of a view of a ready track: all but play_count, which may lag. */
  ghost predicate RowAgrees(t: Track, v: View) {
    && t.status == Ready == v.status && v.meta == t.meta && v.durationMs == t.durationMs && v.playCount <= t.playCount
  }

  /** The view is what a fresh read returns, but for a play_count that may lag. */
  ghost predicate Agrees(d: Stores, id: string, v: View) {
    id in d.tracks && RowAgrees(d.tracks[id], v) && v.formats == Infos(Rows(d, id))
  }

  ghost predicate OneProcessPerTrack(s: State) {
    forall w, w' :: w in s.workers && w' in s.workers && w != w' ==> s.workers[w].ev.trackId != s.workers[w'].ev.trackId
  }

  /** What the place a worker stands at says about its track's status. */
  ghost predicate JobStatus(care: Care, d: Stores, job: Job) {
    && job.ev.trackId in d.tracks
    && var status := d.tracks[job.ev.trackId].status;
       match job.pc
       case Checking => true
       case Claiming => status == Pending
       case _ => status == Processing || care.OneProcess?
  }

  ghost predicate ReaderSound(d: Stores, r: Reader) {
    match r
    case ReadingRow(_) => true
    case ListingFormats(id, v) => v.status == Ready ==> id in d.tracks && RowAgrees(d.tracks[id], v)
    case Saving(id, v) => Agrees(d, id, v)
  }

  ghost predicate PassesSound(s: State, id: string) {
    Passes(s, id) <= 1 && (id !in s.d.tracks || s.d.tracks[id].status == Pending ==> Passes(s, id) == 0)
  }

  ghost predicate ReadsSound(s: State) {
    && (forall r :: r in s.readers ==> ReaderSound(s.d, s.readers[r]))
    && (forall id :: id in s.d.cache ==> Agrees(s.d, id, s.d.cache[id]))
  }

  ghost predicate Coherent(care: Care, s: State) {
    && OneProcessPerTrack(s)
    && (forall w :: w in s.workers ==> JobStatus(care, s.d, s.workers[w]))
    && (forall id :: PassesSound(s, id))
    && (care.Full? ==> ReadsSound(s))
  }

  /** pending -> processing -> ready or error, and nothing else. */
  ghost predicate StatusMoves(from: Status, to: Status) {
    || from == to
    || (from == Pending && to == Processing)
    || (from == Processing && (to == Ready || to == Error))
  }

  /** The worker a step is taken by, if its place says so about the status. */
  ghost predicate ActorSound(care: Care, s: State, step: Step)
    requires Enabled(s, step)
  {
    match step
    case ClaimStep(w, _) => JobStatus(care, s.d, s.workers[w])
    case Upload(w, _, _) => JobStatus(care, s.d, s.workers[w])
    case InsertFormat(w, _) => JobStatus(care, s.d, s.workers[w])
    case Finish(w, _) => JobStatus(care, s.d, s.workers[w])
    case MarkError(w, _) => JobStatus(care, s.d, s.workers[w])
    case _ => true
  }

  /** A ready track keeps its formats, and its row but for a play_count that may rise. */
  ghost predicate ReadyKept(d: Stores, d': Stores, id: string) {
    id in d.tracks && d.tracks[id].status == Ready ==>
      && id in d'.tracks
      && d'.tracks[id] == d.tracks[id].(playCount := d'.tracks[id].playCount)
      && d.tracks[id].playCount <= d'.tracks[id].playCount
      && Rows(d', id) == Rows(d, id)
  }

  lemma TrackAfter(care: Care, s: State, step: Step, id: string)
    requires Enabled(s, step) && !care.OneProcess? && ActorSound(care, s, step)
    ensures ReadyKept(s.d, NextStores(s, step), id)
    ensures id in s.d.tracks ==>
              && id in NextStores(s, step).tracks
              && StatusMoves(s.d.tracks[id].status, NextStores(s, step).tracks[id].status)
  {
  }

  lemma AgreementStays(d: Stores, d': Stores, id: string, v: View)
    requires ReadyKept(d, d', id) && Agrees(d, id, v)
    ensures Agrees(d', id, v)
  {
  }

  lemma ReaderStays(d: Stores, d': Stores, r: Reader)
    requires ReadyKept(d, d', r.id) && ReaderSound(d, r)
    ensures ReaderSound(d', r)
  {
  }

  /** A reader's next view is sound: the two reads may be apart, but a ready track no longer changes. */
  lemma ApplyKeepsReader(s: State, step: Step, r: nat)
    requires Enabled(s, step) && (step.ListFormats? ==> step.listing.All?) && r in NextReaders(s, step)
    requires ReadyKept(s.d, NextStores(s, step), NextReaders(s, step)[r].id)
    requires r in s.readers ==> ReaderSound(s.d, s.readers[r])
    ensures ReaderSound(NextStores(s, step), NextReaders(s, step)[r])
  {
    if r in s.readers && NextReaders(s, step)[r] == s.readers[r] {
      ReaderStays(s.d, NextStores(s, step), s.readers[r]);
    }
  }

  lemma ApplyKeepsHit(s: State, step: Step, id: string)
    requires Enabled(s, step) && ReadyKept(s.d, NextStores(s, step), id) && id in NextStores(s, step).cache
    requires id in s.d.cache ==> Agrees(s.d, id, s.d.cache[id])
    requires step.Save? && s.readers[step.r].id == id ==> ReaderSound(s.d, s.readers[step.r])
    ensures Agrees(NextStores(s, step), id, NextStores(s, step).cache[id])
  {
    if id in s.d.cache && NextStores(s, step).cache[id] == s.d.cache[id] {
      AgreementStays(s.d, NextStores(s, step), id, s.d.cache[id]);
    }
  }

  lemma ApplyKeepsReads(s: State, step: Step)
    requires Enabled(s, step) && Careful(Full, s, step) && ActorSound(Full, s, step) && ReadsSound(s)
    ensures ReadsSound(Apply(s, step))
  {
    hide NextStores, NextReaders, ReadyKept, ActorSound, Agrees, ReaderSound;
    var s' := Apply(s, step);
    forall r | r in s'.readers ensures ReaderSound(s'.d, s'.readers[r]) {
      TrackAfter(Full, s, step, s'.readers[r].id);
      ApplyKeepsReader(s, step, r);
    }
    forall id | id in s'.d.cache ensures Agrees(s'.d, id, s'.d.cache[id]) {
      TrackAfter(Full, s, step, id);
      ApplyKeepsHit(s, step, id);
    }
  }

  /** The track a worker's step may write. */
  ghost predicate Writes(s: State, step: Step, id: string)
    requires Enabled(s, step)
  {
    match step
    case ClaimStep(w, _) => s.workers[w].ev.trackId == id
    case Finish(w, _) => s.workers[w].ev.trackId == id
    case MarkError(w, _) => s.workers[w].ev.trackId == id
    case _ => false
  }

  lemma StatusElsewhere(s: State, step: Step, id: string)
    requires Enabled(s, step) && id in s.d.tracks && !Writes(s, step, id)
    ensures id in NextStores(s, step).tracks && NextStores(s, step).tracks[id].status == s.d.tracks[id].status
  {
  }

  lemma ApplyKeepsJobStatus(care: Care, s: State, step: Step, w: nat)
    requires Enabled(s, step) && Careful(care, s, step) && OneProcessPerTrack(s) && w in NextWorkers(s, step)
    requires w in s.workers ==> JobStatus(care, s.d, s.workers[w])
    requires step.Deliver? ==> s.d.log[step.i].trackId in s.d.tracks
    ensures JobStatus(care, NextStores(s, step), NextWorkers(s, step)[w])
  {
    if w in s.workers && NextWorkers(s, step)[w] == s.workers[w] {
      StatusElsewhere(s, step, s.workers[w].ev.trackId);
    }
  }

  lemma ApplyKeepsOneProcess(care: Care, s: State, step: Step)
    requires Enabled(s, step) && Careful(care, s, step) && OneProcessPerTrack(s)
    ensures OneProcessPerTrack(Apply(s, step))
  {
    hide NextStores;
    var s' := Apply(s, step);
    assert forall w :: w in s'.workers ==>
      (w in s.workers && s'.workers[w].ev == s.workers[w].ev) || (step.Deliver? && w == step.w);
  }

  /** No step takes a track back to pending. */
  lemma PendingBefore(s: State, step: Step, id: string)
    requires Enabled(s, step) && id in s.d.tracks
    ensures var d := NextStores(s, step);
            id in d.tracks && (d.tracks[id].status == Pending ==> s.d.tracks[id].status == Pending)
  {
  }

  lemma ApplyKeepsPasses(care: Care, s: State, step: Step, id: string)
    requires Enabled(s, step) && ActorSound(care, s, step) && PassesSound(s, id)
    ensures PassesSound(Apply(s, step), id)
  {
    if id in s.d.tracks {
      PendingBefore(s, step, id);
    }
  }

  lemma ApplyKeepsCoherent(care: Care, s: State, step: Step)
    requires Enabled(s, step) && Careful(care, s, step) && Safe(s) && Coherent(care, s)
    ensures Coherent(care, Apply(s, step)) && ActorSound(care, s, step)
  {
    hide KeysStored, OwnRows, CreatorSound, JobSound, ReadyIsComplete;
    hide NextStores, NextWorkers, NextCreators, NextReaders, NextPasses, JobStatus, PassesSound;
    hide OneProcessPerTrack, ReadsSound;
    var s' := Apply(s, step);
    assert step.Deliver? ==> EventSound(s, s.d.log[step.i]);
    ApplyKeepsOneProcess(care, s, step);
    forall w | w in s'.workers ensures JobStatus(care, s'.d, s'.workers[w]) {
      ApplyKeepsJobStatus(care, s, step, w);
    }
    forall id ensures PassesSound(s', id) {
      ApplyKeepsPasses(care, s, step, id);
    }
    if care.Full? {
      ApplyKeepsReads(s, step);
    }
  }

  lemma {:induction false} RunKeepsCoherent(care: Care, s: State, steps: seq<Step>)
    requires IsRun(s, steps) && CarefulRun(care, s, steps) && Safe(s) && Coherent(care, s)
    ensures Safe(Run(s, steps)) && Coherent(care, Run(s, steps))
    decreases |steps|
  {
    hide Safe, Coherent, Apply, Enabled, Careful;
    if steps != [] {
      ApplyKeepsSafe(s, steps[0]);
      ApplyKeepsCoherent(care, s, steps[0]);
      RunKeepsCoherent(care, Apply(s, steps[0]), steps[1..]);
    }
  }

  lemma InitIsSound(care: Care, s: State)
    requires Init(s)
    ensures Safe(s) && Coherent(care, s)
  {
  }

  // ---------------------------------------------------------------- main results

  /**
   * Every cache hit is a fresh read: on a fully careful run, what is cached for a track equals what the two
   * queries would return now, in every field except play_count, which is never ahead of the database.
   */
  lemma CacheHitIsFresh(s: State, steps: seq<Step>, id: string)
    requires Init(s) && IsRun(s, steps) && CarefulRun(Full, s, steps) && id in Run(s, steps).d.cache
    ensures var d := Run(s, steps).d;
            && id in d.tracks
            && d.cache[id] == FreshView(d, id).(playCount := d.cache[id].playCount)
            && d.cache[id].playCount <= d.tracks[id].playCount
            && d.tracks[id].status == Ready
  {
    InitIsSound(Full, s);
    RunKeepsCoherent(Full, s, steps);
    assert Agrees(Run(s, steps).d, id, Run(s, steps).d.cache[id]);
  }

  /**
   * With at most one process per track at a time, and whatever else fails: the transcode pass starts at most
   * once per track, and not before the track leaves pending.
   */
  lemma AtMostOnePass(s: State, steps: seq<Step>, id: string)
    requires Init(s) && IsRun(s, steps) && CarefulRun(OneProcess, s, steps)
    ensures var s' := Run(s, steps);
            Passes(s', id) <= 1 && (id in s'.d.tracks && s'.d.tracks[id].status == Pending ==> Passes(s', id) == 0)
  {
    InitIsSound(OneProcess, s);
    RunKeepsCoherent(OneProcess, s, steps);
    assert PassesSound(Run(s, steps), id);
  }

  ghost predicate Reachable(care: Care, s: State) {
    exists init, steps :: Init(init) && IsRun(init, steps) && CarefulRun(care, init, steps) && Run(init, steps) == s
  }

  lemma ReachableIsCoherent(care: Care, s: State)
    requires Reachable(care, s)
    ensures Safe(s) && Coherent(care, s)
  {
    var init, steps :| Init(init) && IsRun(init, steps) && CarefulRun(care, init, steps) && Run(init, steps) == s;
    InitIsSound(care, init);
    RunKeepsCoherent(care, init, steps);
  }

  /** A status only ever moves pending -> processing -> ready or error, whatever readers do. */
  lemma StatusMovesForward(s: State, step: Step, id: string)
    requires Reachable(Acknowledged, s) && Enabled(s, step) && Careful(Acknowledged, s, step) && id in s.d.tracks
    ensures id in Apply(s, step).d.tracks && StatusMoves(s.d.tracks[id].status, Apply(s, step).d.tracks[id].status)
  {
    hide Enabled, Careful, NextStores, StatusMoves, Safe;
    ReachableIsCoherent(Acknowledged, s);
    ApplyKeepsCoherent(Acknowledged, s, step);
    TrackAfter(Acknowledged, s, step, id);
  }

  /** Ready is final: row (but for play_count) and formats stay as they are, whatever readers do. */
  lemma {:induction false} ReadyIsFinal(s: State, steps: seq<Step>, id: string)
    requires Safe(s) && Coherent(Acknowledged, s) && IsRun(s, steps) && CarefulRun(Acknowledged, s, steps)
    requires id in s.d.tracks && s.d.tracks[id].status == Ready
    ensures var d := Run(s, steps).d;
            && id in d.tracks
            && FreshView(d, id) == FreshView(s.d, id).(playCount := d.tracks[id].playCount)
            && s.d.tracks[id].playCount <= d.tracks[id].playCount
    decreases |steps|
  {
    hide Safe, Coherent, NextStores, Enabled, Careful;
    if steps != [] {
      ApplyKeepsSafe(s, steps[0]);
      ApplyKeepsCoherent(Acknowledged, s, steps[0]);
      TrackAfter(Acknowledged, s, steps[0], id);
      ReadyIsFinal(Apply(s, steps[0]), steps[1..], id);
    }
  }
}
