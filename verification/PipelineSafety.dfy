/**
 * What every run keeps, for any number of interleaved workers, any crashes, redeliveries and failures:
 * keys in the tables name stored objects, and ready means completely transcoded.
 */
module PipelineSafety {
  import opened Pipeline

  ghost predicate Ascending(rows: seq<FormatRow>) {
    forall i, j :: 0 <= i < j < |rows| ==> rows[i].bitrate < rows[j].bitrate
  }

  ghost predicate HasBitrate(rows: seq<FormatRow>, bitrate: int) {
    exists k :: 0 <= k < |rows| && rows[k].bitrate == bitrate
  }

  /** Rows for the first n bitrates are there. */
  ghost predicate Encoded(d: Stores, id: string, n: nat) {
    forall k :: 0 <= k < n && k < |BITRATES| ==> HasBitrate(Rows(d, id), BITRATES[k])
  }

  /** Every key in the tables names an object that is stored; format rows are unique per bitrate. */
  ghost predicate KeysStored(d: Stores) {
    && (forall id :: id in d.tracks ==> d.tracks[id].audioKey in d.objects)
    && (forall id :: id in d.formats ==> Ascending(d.formats[id]))
    && (forall id, x :: id in d.formats && x in d.formats[id] ==> x.s3Key in d.objects)
  }

  /** The rows of a track made by Create are for the program's bitrates, under their own keys. */
  ghost predicate OwnRows(d: Stores, id: string) {
    forall x :: x in Rows(d, id) ==> x.bitrate in BITRATES && x.s3Key == FormatKey(id, x.bitrate)
  }

  ghost predicate EventSound(s: State, ev: UploadEvent) {
    && ev.trackId in s.creators && ev.trackId in s.d.tracks
    && ev.audioKey == AudioKey(ev.trackId) && ev.audioKey in s.d.objects
  }

  ghost predicate JobSound(s: State, job: Job) {
    && EventSound(s, job.ev)
    && match job.pc
       case Uploading(i, _) => i < |BITRATES| && Encoded(s.d, job.ev.trackId, i)
       case Inserting(i, _, _) => i < |BITRATES| && Encoded(s.d, job.ev.trackId, i)
                                  && FormatKey(job.ev.trackId, BITRATES[i]) in s.d.objects
       case Finishing(_) => Encoded(s.d, job.ev.trackId, |BITRATES|)
       case _ => true
  }

  ghost predicate CreatorSound(s: State, id: string)
    requires id in s.creators
  {
    match s.creators[id]
    case Storing(_) => id !in s.d.tracks
    case InsertingRow(_) => id !in s.d.tracks && AudioKey(id) in s.d.objects
    case Publishing => id in s.d.tracks && AudioKey(id) in s.d.objects
    case Done => true
  }

  ghost predicate ReadyIsComplete(s: State, id: string) {
    id in s.creators && id in s.d.tracks && s.d.tracks[id].status == Ready ==> Encoded(s.d, id, |BITRATES|)
  }

  ghost predicate Safe(s: State) {
    && KeysStored(s.d)
    && (forall id :: id in s.creators ==> CreatorSound(s, id) && OwnRows(s.d, id))
    && (forall ev :: ev in s.d.log ==> EventSound(s, ev))
    && (forall w :: w in s.workers ==> JobSound(s, s.workers[w]))
    && (forall id :: ReadyIsComplete(s, id))
  }

  /** Tables as an earlier installation left them: tracks with their objects, no uploads under way, nothing cached. */
  ghost predicate Init(s: State) {
    && KeysStored(s.d) && s.d.log == [] && s.d.cache == map[]
    && s.workers == map[] && s.creators == map[] && s.readers == map[] && s.passes == map[]
  }

  // ---------------------------------------------------------------- the upsert

  lemma {:induction false} UpsertHas(rows: seq<FormatRow>, r: FormatRow, bitrate: int)
    requires HasBitrate(rows, bitrate) || bitrate == r.bitrate
    ensures HasBitrate(Upsert(rows, r), bitrate)
  {
    var after := Upsert(rows, r);
    if rows == [] || r.bitrate < rows[0].bitrate {
      assert after[0] == r;
      if HasBitrate(rows, bitrate) {
        var k :| 0 <= k < |rows| && rows[k].bitrate == bitrate;
        assert after[k + 1] == rows[k];
      }
    } else if rows[0].bitrate == r.bitrate {
      assert after[0] == r;
      if HasBitrate(rows, bitrate) {
        var k :| 0 <= k < |rows| && rows[k].bitrate == bitrate;
        assert k > 0 ==> after[k] == rows[k];
      }
    } else {
      var rest := Upsert(rows[1..], r);
      assert after[0] == rows[0];
      if bitrate != rows[0].bitrate {
        if HasBitrate(rows, bitrate) {
          var k :| 0 <= k < |rows| && rows[k].bitrate == bitrate;
          assert rows[1..][k - 1] == rows[k];
        }
        UpsertHas(rows[1..], r, bitrate);
        var j :| 0 <= j < |rest| && rest[j].bitrate == bitrate;
        assert after[j + 1] == rest[j];
      }
    }
  }

  lemma {:induction false} UpsertRows(rows: seq<FormatRow>, r: FormatRow)
    ensures forall x :: x in Upsert(rows, r) ==> x in rows || x == r
  {
    if rows != [] && rows[0].bitrate < r.bitrate {
      UpsertRows(rows[1..], r);
    }
  }

  lemma {:induction false} UpsertAscends(rows: seq<FormatRow>, r: FormatRow)
    requires Ascending(rows)
    ensures Ascending(Upsert(rows, r))
  {
    if rows != [] && rows[0].bitrate < r.bitrate {
      var rest := Upsert(rows[1..], r);
      UpsertAscends(rows[1..], r);
      UpsertRows(rows[1..], r);
      forall k | 0 <= k < |rest| ensures rows[0].bitrate < rest[k].bitrate {
        assert rest[k] in rest;
      }
    }
  }

  // ---------------------------------------------------------------- what only grows

  ghost predicate Extends(d: Stores, d': Stores) {
    && d.objects <= d'.objects
    && d.tracks.Keys <= d'.tracks.Keys
    && (forall id :: id in d.tracks ==> d'.tracks[id].audioKey == d.tracks[id].audioKey)
    && (forall id, b :: HasBitrate(Rows(d, id), b) ==> HasBitrate(Rows(d', id), b))
  }

  lemma UpsertExtends(d: Stores, id: string, bitrate: nat, size: int)
    ensures Extends(d, UpsertFormat(d, id, bitrate, size))
    ensures HasBitrate(Rows(UpsertFormat(d, id, bitrate, size), id), bitrate)
  {
    var d' := UpsertFormat(d, id, bitrate, size);
    var r := FormatRow(bitrate, FormatKey(id, bitrate), size);
    UpsertHas(Rows(d, id), r, bitrate);
    forall id', b | HasBitrate(Rows(d, id'), b) ensures HasBitrate(Rows(d', id'), b) {
      if id' == id {
        UpsertHas(Rows(d, id), r, b);
      }
    }
  }

  lemma UpsertKeepsKeysStored(d: Stores, id: string, bitrate: nat, size: int)
    requires KeysStored(d) && FormatKey(id, bitrate) in d.objects
    ensures KeysStored(UpsertFormat(d, id, bitrate, size))
  {
    var r := FormatRow(bitrate, FormatKey(id, bitrate), size);
    UpsertAscends(Rows(d, id), r);
    UpsertRows(Rows(d, id), r);
  }

  lemma SameRowsExtend(d: Stores, d': Stores)
    requires d.objects <= d'.objects && d'.formats == d.formats
    requires forall id :: id in d.tracks ==> id in d'.tracks && d'.tracks[id].audioKey == d.tracks[id].audioKey
    ensures Extends(d, d')
  {
  }

  lemma ApplyExtends(s: State, step: Step)
    requires Enabled(s, step)
    ensures Extends(s.d, NextStores(s, step))
  {
    hide Extends;
    if step.InsertFormat? {
      var job := s.workers[step.w];
      UpsertExtends(s.d, job.ev.trackId, BITRATES[job.pc.i], job.pc.sizeBytes);
      SameRowsExtend(s.d, s.d);
    } else {
      SameRowsExtend(s.d, NextStores(s, step));
    }
  }

  /** Tables stay sound when rows stay and each track keeps its key or gets one that is stored. */
  lemma SameRowsKeepKeysStored(d: Stores, d': Stores)
    requires KeysStored(d) && d.objects <= d'.objects && d'.formats == d.formats
    requires forall id :: id in d'.tracks ==>
               || (id in d.tracks && d'.tracks[id].audioKey == d.tracks[id].audioKey)
               || d'.tracks[id].audioKey in d'.objects
    ensures KeysStored(d')
  {
  }

  lemma ApplyKeepsKeysStored(s: State, step: Step)
    requires Enabled(s, step) && KeysStored(s.d)
    requires step.CreateInsert? ==> CreatorSound(s, step.id)
    requires step.InsertFormat? ==> JobSound(s, s.workers[step.w])
    ensures KeysStored(NextStores(s, step))
  {
    hide KeysStored;
    if step.InsertFormat? {
      var job := s.workers[step.w];
      UpsertKeepsKeysStored(s.d, job.ev.trackId, BITRATES[job.pc.i], job.pc.sizeBytes);
    } else {
      SameRowsKeepKeysStored(s.d, NextStores(s, step));
    }
  }

  lemma JobStaysSound(s: State, s': State, job: Job)
    requires JobSound(s, job) && Extends(s.d, s'.d) && s.creators.Keys <= s'.creators.Keys
    ensures JobSound(s', job)
  {
  }

  lemma CreatorsGrow(s: State, step: Step)
    requires Enabled(s, step)
    ensures s.creators.Keys <= NextCreators(s, step).Keys
  {
  }

  lemma ApplyKeepsJobs(s: State, step: Step, w: nat)
    requires Enabled(s, step) && Safe(s) && w in NextWorkers(s, step)
    ensures JobSound(Apply(s, step), NextWorkers(s, step)[w])
  {
    hide NextStores, NextCreators, Extends, KeysStored;
    ApplyExtends(s, step);
    CreatorsGrow(s, step);
    var job' := NextWorkers(s, step)[w];
    if w in s.workers && job' == s.workers[w] {
      JobStaysSound(s, Apply(s, step), job');
    } else {
      NewJobSound(s, step, w);
    }
  }

  /** Each step of process establishes what its next place relies on. */
  lemma NewJobSound(s: State, step: Step, w: nat)
    requires Enabled(s, step) && w in NextWorkers(s, step)
    requires w !in s.workers || NextWorkers(s, step)[w] != s.workers[w]
    requires w in s.workers ==> JobSound(s, s.workers[w])
    requires step.Deliver? ==> EventSound(s, s.d.log[step.i])
    ensures JobSound(Apply(s, step), NextWorkers(s, step)[w])
  {
    hide NextCreators;
    CreatorsGrow(s, step);
    if step.Deliver? {
      assert step.w == w && EventSound(s, s.d.log[step.i]);
    } else {
      ApplyExtends(s, step);
      if step.InsertFormat? && step.o.Ok? {
        InsertedMore(s, step);
      }
    }
  }

  lemma InsertedMore(s: State, step: Step)
    requires Enabled(s, step) && step.InsertFormat? && step.o.Ok? && JobSound(s, s.workers[step.w])
    ensures var job := s.workers[step.w];
            Encoded(NextStores(s, step), job.ev.trackId, job.pc.i + 1)
  {
    var job := s.workers[step.w];
    UpsertExtends(s.d, job.ev.trackId, BITRATES[job.pc.i], job.pc.sizeBytes);
  }

  lemma ApplyKeepsCreators(s: State, step: Step, id: string)
    requires Enabled(s, step) && id in NextCreators(s, step)
    requires id in s.creators ==> CreatorSound(s, id)
    ensures CreatorSound(Apply(s, step), id)
  {
  }

  lemma ApplyKeepsOwnRows(s: State, step: Step, id: string)
    requires Enabled(s, step) && id in NextCreators(s, step)
    requires id in s.creators ==> OwnRows(s.d, id)
    ensures OwnRows(NextStores(s, step), id)
  {
    assert OwnRows(s.d, id);
    if step.InsertFormat? {
      var job := s.workers[step.w];
      UpsertKeepsOwnRows(s.d, job.ev.trackId, BITRATES[job.pc.i], job.pc.sizeBytes, id);
    } else {
      assert NextStores(s, step).formats == s.d.formats;
    }
  }

  lemma UpsertKeepsOwnRows(d: Stores, target: string, bitrate: nat, size: int, id: string)
    requires OwnRows(d, id) && bitrate in BITRATES
    ensures OwnRows(UpsertFormat(d, target, bitrate, size), id)
  {
    UpsertRows(Rows(d, target), FormatRow(bitrate, FormatKey(target, bitrate), size));
  }

  lemma ApplyKeepsLog(s: State, step: Step, ev: UploadEvent)
    requires Enabled(s, step) && ev in NextStores(s, step).log
    requires ev in s.d.log ==> EventSound(s, ev)
    requires step.CreatePublish? ==> CreatorSound(s, step.id)
    ensures EventSound(Apply(s, step), ev)
  {
    assert ev !in s.d.log ==> step.CreatePublish? && ev == UploadEvent(step.id, AudioKey(step.id));
  }

  /** Only a worker that has inserted every format makes a track of Create ready. */
  lemma ApplyKeepsReady(s: State, step: Step, id: string)
    requires Enabled(s, step) && ReadyIsComplete(s, id)
    requires step.Finish? ==> JobSound(s, s.workers[step.w])
    requires step.CreateStart? ==> step.id !in s.d.tracks
    ensures ReadyIsComplete(Apply(s, step), id)
  {
    ApplyExtends(s, step);
  }

  lemma ApplyKeepsSafe(s: State, step: Step)
    requires Enabled(s, step) && Safe(s)
    ensures Safe(Apply(s, step))
  {
    hide KeysStored, OwnRows, CreatorSound, EventSound, JobSound, ReadyIsComplete;
    hide NextStores, NextWorkers, NextCreators, NextReaders, NextPasses;
    var s' := Apply(s, step);
    ApplyKeepsKeysStored(s, step);
    forall id | id in s'.creators ensures CreatorSound(s', id) && OwnRows(s'.d, id) {
      ApplyKeepsCreators(s, step, id);
      ApplyKeepsOwnRows(s, step, id);
    }
    forall ev | ev in s'.d.log ensures EventSound(s', ev) {
      ApplyKeepsLog(s, step, ev);
    }
    forall w | w in s'.workers ensures JobSound(s', s'.workers[w]) {
      ApplyKeepsJobs(s, step, w);
    }
    forall id ensures ReadyIsComplete(s', id) {
      ApplyKeepsReady(s, step, id);
    }
  }

  lemma {:induction false} RunKeepsSafe(s: State, steps: seq<Step>)
    requires IsRun(s, steps) && Safe(s)
    ensures Safe(Run(s, steps))
    decreases |steps|
  {
    if steps != [] {
      ApplyKeepsSafe(s, steps[0]);
      RunKeepsSafe(Apply(s, steps[0]), steps[1..]);
    }
  }

  // ---------------------------------------------------------------- main results

  function Bitrates(rows: seq<FormatRow>): seq<int> {
    seq(|rows|, i requires 0 <= i < |rows| => rows[i].bitrate)
  }

  function Rank(bitrate: nat): nat {
    if bitrate == BITRATES[0] then 0 else if bitrate == BITRATES[1] then 1 else 2
  }

  lemma {:induction false} RankGrows(rows: seq<FormatRow>, i: nat)
    requires Ascending(rows) && i < |rows|
    requires forall x :: x in rows ==> x.bitrate in BITRATES
    ensures i <= Rank(rows[i].bitrate)
  {
    assert rows[i] in rows;
    if i > 0 {
      assert rows[i - 1] in rows;
      RankGrows(rows, i - 1);
    }
  }

  lemma AllBitratesOnce(rows: seq<FormatRow>)
    requires Ascending(rows)
    requires forall x :: x in rows ==> x.bitrate in BITRATES
    requires forall k :: 0 <= k < |BITRATES| ==> HasBitrate(rows, BITRATES[k])
    ensures Bitrates(rows) == BITRATES
  {
    assert HasBitrate(rows, BITRATES[0]) && HasBitrate(rows, BITRATES[1]) && HasBitrate(rows, BITRATES[2]);
    assert |rows| >= 3;
    if |rows| > 3 {
      RankGrows(rows, 3);
    }
    RankGrows(rows, 0);
    RankGrows(rows, 1);
    RankGrows(rows, 2);
    assert forall i :: 0 <= i < |rows| ==> rows[i] in rows;
  }

  /**
   * Ready means complete: on every run, a track made by Create whose status is ready has exactly one
   * format row per bitrate, each under its own key, and each of those objects is stored.
   */
  lemma ReadyMeansComplete(s: State, steps: seq<Step>, id: string)
    requires Init(s) && IsRun(s, steps)
    requires var s' := Run(s, steps); id in s'.creators && id in s'.d.tracks && s'.d.tracks[id].status == Ready
    ensures var d := Run(s, steps).d;
            && Bitrates(Rows(d, id)) == [64, 128, 320]
            && (forall x :: x in Rows(d, id) ==> x.s3Key == FormatKey(id, x.bitrate) && x.s3Key in d.objects)
            && d.tracks[id].audioKey in d.objects
  {
    RunKeepsSafe(s, steps);
    var s' := Run(s, steps);
    assert ReadyIsComplete(s', id) && OwnRows(s'.d, id);
    AllBitratesOnce(Rows(s'.d, id));
  }

  /** On every run, whatever key a table or the topic holds names an object that is already stored. */
  lemma KeysNameObjects(s: State, steps: seq<Step>)
    requires Init(s) && IsRun(s, steps)
    ensures var d := Run(s, steps).d;
            && (forall id :: id in d.tracks ==> d.tracks[id].audioKey in d.objects)
            && (forall id, x :: x in Rows(d, id) ==> x.s3Key in d.objects)
            && (forall ev :: ev in d.log ==> ev.audioKey in d.objects && ev.trackId in d.tracks)
  {
    RunKeepsSafe(s, steps);
  }
}
