/** What the tables say, and where it comes from: on every run, with no care supposed. */
module PipelineRows {
  import opened Pipeline
  import opened PipelineSafety

  // ---------------------------------------------------------------- one step

  /** Steps of a worker at work on the track. */
  ghost predicate WorksOn(s: State, w: nat, id: string) {
    w in s.workers && s.workers[w].ev.trackId == id
  }

  /** What each step does to a track's row, field by field. */
  ghost predicate FieldsStep(s: State, step: Step, id: string, t: Track, t': Track)
    requires Enabled(s, step)
  {
    && t'.meta == t.meta && t'.audioKey == t.audioKey
    && t'.playCount == t.playCount + (if step == Play(id) then 1 else 0)
  }

  ghost predicate DurationStep(s: State, step: Step, id: string, t: Track, t': Track)
    requires Enabled(s, step)
  {
    t'.durationMs == if step.Finish? && !step.o.Fail? && WorksOn(s, step.w, id)
                     then s.workers[step.w].pc.durationMs else t.durationMs
  }

  ghost predicate StatusStep(s: State, step: Step, id: string, t: Track, t': Track)
    requires Enabled(s, step)
  {
    var effective := !Result(step).Fail?;
    t'.status ==
       if step.MarkError? && effective && WorksOn(s, step.w, id) then Error
       else if step.ClaimStep? && effective && WorksOn(s, step.w, id) && t.status == Pending then Processing
       else if step.Finish? && effective && WorksOn(s, step.w, id) then Ready
       else t.status
  }

  lemma RowAfter(s: State, step: Step, id: string)
    requires Enabled(s, step) && id in s.d.tracks
    ensures id in NextStores(s, step).tracks
    ensures FieldsStep(s, step, id, s.d.tracks[id], NextStores(s, step).tracks[id])
    ensures DurationStep(s, step, id, s.d.tracks[id], NextStores(s, step).tracks[id])
    ensures StatusStep(s, step, id, s.d.tracks[id], NextStores(s, step).tracks[id])
  {
    hide NextStores, FieldsStep, DurationStep, StatusStep;
    FieldsAfter(s, step, id);
    DurationAfter(s, step, id);
    StatusAfter(s, step, id);
  }

  lemma FieldsAfter(s: State, step: Step, id: string)
    requires Enabled(s, step) && id in s.d.tracks
    ensures id in NextStores(s, step).tracks
    ensures FieldsStep(s, step, id, s.d.tracks[id], NextStores(s, step).tracks[id])
  {
  }

  lemma DurationAfter(s: State, step: Step, id: string)
    requires Enabled(s, step) && id in s.d.tracks
    ensures id in NextStores(s, step).tracks
    ensures DurationStep(s, step, id, s.d.tracks[id], NextStores(s, step).tracks[id])
  {
  }

  lemma StatusAfter(s: State, step: Step, id: string)
    requires Enabled(s, step) && id in s.d.tracks
    ensures id in NextStores(s, step).tracks
    ensures StatusStep(s, step, id, s.d.tracks[id], NextStores(s, step).tracks[id])
  {
  }

  /** The upsert puts the new row in the place of the old one of its bitrate, and leaves the others. */
  lemma {:induction false} UpsertIs(rows: seq<FormatRow>, r: FormatRow, x: FormatRow)
    requires Ascending(rows)
    ensures x in Upsert(rows, r) <==> x == r || (x in rows && x.bitrate != r.bitrate)
  {
    if rows != [] && r.bitrate > rows[0].bitrate {
      UpsertIs(rows[1..], r, x);
    } else if rows != [] && r.bitrate == rows[0].bitrate {
      assert x in rows[1..] ==> x.bitrate != r.bitrate;
    }
  }

  /** What each step does to a track's formats. */
  lemma RowsAfter(s: State, step: Step, id: string, x: FormatRow)
    requires Enabled(s, step) && KeysStored(s.d)
    ensures var stores := step.InsertFormat? && !step.o.Fail? && WorksOn(s, step.w, id);
            if stores
            then var pc := s.workers[step.w].pc;
                 var r := FormatRow(BITRATES[pc.i], FormatKey(id, BITRATES[pc.i]), pc.sizeBytes);
                 x in Rows(NextStores(s, step), id) <==> x == r || (x in Rows(s.d, id) && x.bitrate != r.bitrate)
            else Rows(NextStores(s, step), id) == Rows(s.d, id)
  {
    if step.InsertFormat? && !step.o.Fail? && WorksOn(s, step.w, id) {
      var pc := s.workers[step.w].pc;
      UpsertIs(Rows(s.d, id), FormatRow(BITRATES[pc.i], FormatKey(id, BITRATES[pc.i]), pc.sizeBytes), x);
    }
  }

  // ---------------------------------------------------------------- statuses

  /** Only a pending track is claimed: no step makes a track processing that is past it. */
  lemma ClaimedFromPending(s: State, step: Step, id: string)
    requires Enabled(s, step) && id in s.d.tracks && id in NextStores(s, step).tracks
    ensures NextStores(s, step).tracks[id].status == Processing ==> s.d.tracks[id].status in {Pending, Processing}
    ensures NextStores(s, step).tracks[id].status == Pending ==> s.d.tracks[id].status == Pending
  {
    hide NextStores;
    RowAfter(s, step, id);
  }

  ghost predicate Finished(d: Stores, id: string) {
    id in d.tracks && (d.tracks[id].status == Ready || d.tracks[id].status == Error)
  }

  /**
   * On every run, however many workers claim, crash or fail: a track that has been ready or error is one of the two
   * for ever, and never processing or pending again.
   */
  lemma {:induction false} FinishedForEver(s: State, steps: seq<Step>, id: string)
    requires IsRun(s, steps) && Finished(s.d, id)
    ensures Finished(Run(s, steps).d, id)
    decreases |steps|
  {
    hide NextStores, Enabled;
    if steps != [] {
      RowAfter(s, steps[0], id);
      ClaimedFromPending(s, steps[0], id);
      FinishedForEver(Apply(s, steps[0]), steps[1..], id);
    }
  }

  // ---------------------------------------------------------------- keys

  /** A track made by Create has the key of its own original. */
  ghost predicate OwnKeys(s: State) {
    forall id :: id in s.creators && id in s.d.tracks ==> s.d.tracks[id].audioKey == "tracks/" + id + "/audio"
  }

  lemma ApplyKeepsOwnKeys(s: State, step: Step)
    requires Enabled(s, step) && OwnKeys(s)
    ensures OwnKeys(Apply(s, step))
  {
    hide NextStores, NextCreators;
    forall id | id in NextCreators(s, step) && id in NextStores(s, step).tracks
      ensures NextStores(s, step).tracks[id].audioKey == "tracks/" + id + "/audio"
    {
      if id in s.d.tracks {
        RowAfter(s, step, id);
        CreatedBefore(s, step, id);
      } else {
        NewTrackKeyed(s, step, id);
      }
    }
  }

  lemma CreatedBefore(s: State, step: Step, id: string)
    requires Enabled(s, step) && id in s.d.tracks && id in NextCreators(s, step)
    ensures id in s.creators
  {
  }

  lemma NewTrackKeyed(s: State, step: Step, id: string)
    requires Enabled(s, step) && id !in s.d.tracks && id in NextStores(s, step).tracks
    ensures NextStores(s, step).tracks[id].audioKey == "tracks/" + id + "/audio"
  {
  }

  lemma {:induction false} RunKeepsOwnKeys(s: State, steps: seq<Step>)
    requires IsRun(s, steps) && OwnKeys(s)
    ensures OwnKeys(Run(s, steps))
    decreases |steps|
  {
    hide Apply, Enabled, OwnKeys;
    if steps != [] {
      ApplyKeepsOwnKeys(s, steps[0]);
      RunKeepsOwnKeys(Apply(s, steps[0]), steps[1..]);
    }
  }

  /**
   * On every run the tracks made by Create share no object: originals are distinct, renditions are distinct, of one
   * track and of two, and no original is a rendition.
   */
  lemma ObjectsDistinct(s: State, steps: seq<Step>, a: string, b: string)
    requires Init(s) && IsRun(s, steps)
    requires var s' := Run(s, steps);
             a in s'.creators && b in s'.creators && a in s'.d.tracks && b in s'.d.tracks
    ensures var d := Run(s, steps).d;
            && (a != b ==> d.tracks[a].audioKey != d.tracks[b].audioKey)
            && (forall x, y :: x in Rows(d, a) && y in Rows(d, b) && (a != b || x.bitrate != y.bitrate) ==>
                  x.s3Key != y.s3Key)
            && (forall y :: y in Rows(d, b) ==> d.tracks[a].audioKey != y.s3Key)
  {
    var s' := Run(s, steps);
    RunKeepsSafe(s, steps);
    RunKeepsOwnKeys(s, steps);
    assert OwnRows(s'.d, a) && OwnRows(s'.d, b);
    if s'.d.tracks[a].audioKey == s'.d.tracks[b].audioKey {
      AudioKeysDiffer(a, b);
    }
    forall x, y | x in Rows(s'.d, a) && y in Rows(s'.d, b) && x.s3Key == y.s3Key
      ensures a == b && x.bitrate == y.bitrate
    {
      FormatKeysDiffer(a, x.bitrate, b, y.bitrate);
    }
    forall y | y in Rows(s'.d, b) ensures s'.d.tracks[a].audioKey != y.s3Key {
      AudioIsNoFormat(a, b, y.bitrate);
    }
  }

  // ---------------------------------------------------------------- the fresh view of a ready track

  /** The fresh view of a ready track made by Create lists the three bitrates in order, each with its row's size. */
  lemma ReadyViewListsAll(s: State, steps: seq<Step>, id: string)
    requires Init(s) && IsRun(s, steps)
    requires var s' := Run(s, steps); id in s'.creators && id in s'.d.tracks && s'.d.tracks[id].status == Ready
    ensures var d := Run(s, steps).d;
            var v := FreshView(d, id);
            && |v.formats| == |Rows(d, id)| == 3
            && v.formats[0].bitrate == 64 && v.formats[1].bitrate == 128 && v.formats[2].bitrate == 320
            && (forall i :: 0 <= i < 3 ==> v.formats[i].sizeBytes == Rows(d, id)[i].sizeBytes)
            && v.status == Ready && v.durationMs == d.tracks[id].durationMs && v.playCount == d.tracks[id].playCount
  {
    var d := Run(s, steps).d;
    ReadyMeansComplete(s, steps, id);
    FreshViewShows(d, id);
    assert Bitrates(Rows(d, id))[0] == 64 && Bitrates(Rows(d, id))[1] == 128 && Bitrates(Rows(d, id))[2] == 320;
  }

  // ---------------------------------------------------------------- durations and sizes

  /** What workers have found out: the duration of an original, the size of a rendition. */
  datatype Measurement = Duration(id: string, ms: int) | Size(id: string, bitrate: int, bytes: int)

  /** What the step's worker finds out. */
  ghost function Measures(s: State, step: Step): set<Measurement>
    requires Enabled(s, step)
  {
    match step
    case Fetch(w, Ok, ms) => {Duration(s.workers[w].ev.trackId, ms)}
    case Upload(w, Ok, bytes) => {Size(s.workers[w].ev.trackId, BITRATES[s.workers[w].pc.i], bytes)}
    case _ => {}
  }

  ghost function Measured(s: State, steps: seq<Step>): set<Measurement>
    requires IsRun(s, steps)
    decreases |steps|
  {
    if steps == [] then {} else Measures(s, steps[0]) + Measured(Apply(s, steps[0]), steps[1..])
  }

  ghost predicate JobMeasured(job: Job, known: set<Measurement>) {
    var id := job.ev.trackId;
    match job.pc
    case Uploading(_, ms) => Duration(id, ms) in known
    case Inserting(i, ms, bytes) => Duration(id, ms) in known && i < |BITRATES| && Size(id, BITRATES[i], bytes) in known
    case Finishing(ms) => Duration(id, ms) in known
    case _ => true
  }

  ghost predicate TrackMeasured(s: State, id: string, known: set<Measurement>) {
    && (id in s.d.tracks && s.d.tracks[id].status == Ready ==> Duration(id, s.d.tracks[id].durationMs) in known)
    && (forall x :: x in Rows(s.d, id) ==> Size(id, x.bitrate, x.sizeBytes) in known)
  }

  /** All that workers carry, and all that the tables say of tracks made by Create, has been measured. */
  ghost predicate AllMeasured(s: State, known: set<Measurement>) {
    && (forall w :: w in s.workers ==> JobMeasured(s.workers[w], known))
    && (forall id :: id in s.creators ==> TrackMeasured(s, id, known))
  }

  lemma JobStaysMeasured(s: State, step: Step, w: nat, known: set<Measurement>)
    requires Enabled(s, step) && w in NextWorkers(s, step)
    requires w in s.workers ==> JobMeasured(s.workers[w], known)
    ensures JobMeasured(NextWorkers(s, step)[w], known + Measures(s, step))
  {
  }

  lemma TrackStaysMeasured(s: State, step: Step, id: string, known: set<Measurement>)
    requires Enabled(s, step) && KeysStored(s.d) && id in NextCreators(s, step)
    requires id in s.creators ==> TrackMeasured(s, id, known)
    requires (step.InsertFormat? || step.Finish?) ==> JobMeasured(s.workers[step.w], known)
    ensures TrackMeasured(Apply(s, step), id, known + Measures(s, step))
  {
    hide KeysStored;
    if id in s.creators {
      hide TrackMeasured;
      SizesStayMeasured(s, step, id, known);
      DurationStaysMeasured(s, step, id, known);
      MeasuredIs(Apply(s, step), id, known + Measures(s, step));
    } else {
      assert step.CreateStart? && Rows(s.d, id) == [];
    }
  }

  lemma MeasuredIs(s: State, id: string, known: set<Measurement>)
    requires id in s.d.tracks && s.d.tracks[id].status == Ready ==> Duration(id, s.d.tracks[id].durationMs) in known
    requires forall x :: x in Rows(s.d, id) ==> Size(id, x.bitrate, x.sizeBytes) in known
    ensures TrackMeasured(s, id, known)
  {
  }

  lemma DurationStaysMeasured(s: State, step: Step, id: string, known: set<Measurement>)
    requires Enabled(s, step) && TrackMeasured(s, id, known)
    requires step.Finish? ==> JobMeasured(s.workers[step.w], known)
    ensures var d := NextStores(s, step);
            id in d.tracks && d.tracks[id].status == Ready ==> Duration(id, d.tracks[id].durationMs) in known
  {
    hide NextStores;
    if id in s.d.tracks {
      RowAfter(s, step, id);
    } else if id in NextStores(s, step).tracks {
      NewTrackPending(s, step, id);
    }
  }

  lemma SizesStayMeasured(s: State, step: Step, id: string, known: set<Measurement>)
    requires Enabled(s, step) && KeysStored(s.d) && TrackMeasured(s, id, known)
    requires step.InsertFormat? ==> JobMeasured(s.workers[step.w], known)
    ensures forall x :: x in Rows(NextStores(s, step), id) ==> Size(id, x.bitrate, x.sizeBytes) in known
  {
    hide KeysStored, NextStores;
    forall x | x in Rows(NextStores(s, step), id) ensures Size(id, x.bitrate, x.sizeBytes) in known {
      RowsAfter(s, step, id, x);
    }
  }

  lemma NewTrackPending(s: State, step: Step, id: string)
    requires Enabled(s, step) && id !in s.d.tracks && id in NextStores(s, step).tracks
    ensures NextStores(s, step).tracks[id].status == Pending
  {
  }

  lemma StepMeasures(s: State, step: Step, known: set<Measurement>)
    requires Enabled(s, step) && Safe(s) && AllMeasured(s, known)
    ensures AllMeasured(Apply(s, step), known + Measures(s, step))
  {
    hide KeysStored, NextStores, NextWorkers, NextCreators, Measures, JobMeasured, TrackMeasured;
    var s' := Apply(s, step);
    forall w | w in s'.workers ensures JobMeasured(s'.workers[w], known + Measures(s, step)) {
      JobStaysMeasured(s, step, w, known);
    }
    forall id | id in s'.creators ensures TrackMeasured(s', id, known + Measures(s, step)) {
      TrackStaysMeasured(s, step, id, known);
    }
  }

  lemma {:induction false} RunMeasures(s: State, steps: seq<Step>, known: set<Measurement>)
    requires IsRun(s, steps) && Safe(s) && AllMeasured(s, known)
    ensures AllMeasured(Run(s, steps), known + Measured(s, steps))
    decreases |steps|
  {
    hide Safe, AllMeasured, Apply, Enabled, Measures;
    if steps == [] {
      assert known + {} == known;
    } else {
      var now := known + Measures(s, steps[0]);
      ApplyKeepsSafe(s, steps[0]);
      StepMeasures(s, steps[0], known);
      RunMeasures(Apply(s, steps[0]), steps[1..], now);
      assert now + Measured(Apply(s, steps[0]), steps[1..]) == known + Measured(s, steps);
    }
  }

  /**
   * On every run the duration of a ready track made by Create, and the size of each of its formats, is one that a
   * worker on that track measured in this run, the size for that bitrate.
   */
  lemma ReadyIsMeasured(s: State, steps: seq<Step>, id: string)
    requires Init(s) && IsRun(s, steps) && id in Run(s, steps).creators
    ensures var d := Run(s, steps).d;
            && (id in d.tracks && d.tracks[id].status == Ready ==>
                  Duration(id, d.tracks[id].durationMs) in Measured(s, steps))
            && (forall x :: x in Rows(d, id) ==> Size(id, x.bitrate, x.sizeBytes) in Measured(s, steps))
  {
    RunMeasures(s, steps, {});
    assert {} + Measured(s, steps) == Measured(s, steps);
    assert TrackMeasured(Run(s, steps), id, Measured(s, steps));
  }
}
