/**
 * The three programs of the pipeline as straight-line code over mutable stores. What the environment answers
 * to each operation is an input. Each program is shown to take, undisturbed, exactly the steps of its process in
 * the transition system under those answers, whatever fails along the way.
 */
module PipelineCode {
  import opened Pipeline
  import opened PipelineSafety

  /**
   * What the environment answers to the operations of one call of process. fetch stands for the temporary
   * directory, the download and the probe; upload(i) for transcoding, reading and uploading rendition i.
   */
  datatype Answers = Answers(
    check: Outcome,
    claim: Outcome,
    fetch: Outcome,
    durationMs: int,
    upload: nat -> Outcome,
    sizes: nat -> int,
    insert: nat -> Outcome,
    finish: Outcome,
    markError: Outcome)

  /** The one step that process takes at the place its worker stands at, under the given answers. */
  ghost function StepOf(a: Answers, s: State, w: nat): Step
    requires w in s.workers
  {
    match s.workers[w].pc
    case Checking => Check(w, a.check)
    case Claiming => ClaimStep(w, a.claim)
    case Fetching => Fetch(w, FetchOutcome(a, s.d, s.workers[w].ev), a.durationMs)
    case Uploading(i, _) => Upload(w, a.upload(i), a.sizes(i))
    case Inserting(i, _, _) => InsertFormat(w, a.insert(i))
    case Finishing(_) => Finish(w, a.finish)
    case MarkingError => MarkError(w, a.markError)
  }

  /** Downloading a missing object fails. */
  function FetchOutcome(a: Answers, d: Stores, ev: UploadEvent): Outcome {
    if a.fetch.Ok? && ev.audioKey in d.objects then Ok else Fail
  }

  /** The steps are those that process takes, one after the other. */
  ghost predicate Follows(a: Answers, s: State, steps: seq<Step>, w: nat)
    decreases |steps|
  {
    steps == [] ||
    (w in s.workers && steps[0] == StepOf(a, s, w) && Enabled(s, steps[0])
     && Follows(a, Apply(s, steps[0]), steps[1..], w))
  }

  lemma {:induction false} FollowsOn(a: Answers, s: State, steps: seq<Step>, w: nat)
    requires Follows(a, s, steps, w) && IsRun(s, steps) && w in Run(s, steps).workers
    requires Enabled(Run(s, steps), StepOf(a, Run(s, steps), w))
    ensures Follows(a, s, steps + [StepOf(a, Run(s, steps), w)], w)
    decreases |steps|
  {
    hide Apply, Enabled, StepOf;
    var more := steps + [StepOf(a, Run(s, steps), w)];
    if steps == [] {
      assert more[1..] == [];
    } else {
      assert more[0] == steps[0] && more[1..] == steps[1..] + [StepOf(a, Run(s, steps), w)];
      FollowsOn(a, Apply(s, steps[0]), steps[1..], w);
    }
  }

  /** The worker's next step, as a longer run. */
  lemma TakesStep(a: Answers, s: State, steps: seq<Step>, w: nat) returns (more: seq<Step>)
    requires Follows(a, s, steps, w) && IsRun(s, steps) && w in Run(s, steps).workers
    requires Enabled(Run(s, steps), StepOf(a, Run(s, steps), w))
    ensures more == steps + [StepOf(a, Run(s, steps), w)] && Follows(a, s, more, w)
    ensures IsRun(s, more) && Run(s, more) == Apply(Run(s, steps), StepOf(a, Run(s, steps), w))
  {
    more := steps + [StepOf(a, Run(s, steps), w)];
    FollowsOn(a, s, steps, w);
    Extended(s, steps, StepOf(a, Run(s, steps), w));
  }

  /** The answers fix the run: two that end with the worker idle are the same. */
  lemma {:induction false} AnswersFixRun(a: Answers, s: State, first: seq<Step>, second: seq<Step>, w: nat)
    requires IsRun(s, first) && Follows(a, s, first, w) && w !in Run(s, first).workers
    requires IsRun(s, second) && Follows(a, s, second, w) && w !in Run(s, second).workers
    ensures first == second
    decreases |first|
  {
    hide Apply, Enabled, StepOf;
    if first != [] && second != [] {
      AnswersFixRun(a, Apply(s, first[0]), first[1..], second[1..], w);
      assert first == [first[0]] + first[1..] && second == [second[0]] + second[1..];
    }
  }

  class Backend {
    var objects: set<string>
    var tracks: map<string, Track>
    var formats: map<string, seq<FormatRow>>
    var log: seq<UploadEvent>
    var cache: map<string, View>

    function Contents(): Stores
      reads this
    {
      Stores(objects, tracks, formats, log, cache)
    }

    constructor (d: Stores)
      ensures Contents() == d
    {
      objects, tracks, formats, log, cache := d.objects, d.tracks, d.formats, d.log, d.cache;
    }

    // ---------------------------------------------------------------- single operations, with their outcomes

    method StorePut(key: string, o: Outcome)
      modifies this`objects
      ensures Contents() == if o.Fail? then old(Contents()) else PutObject(old(Contents()), key)
    {
      if !o.Fail? {
        objects := objects + {key};
      }
    }

    method ExecInsertTrack(id: string, meta: string, o: Outcome)
      modifies this`tracks
      ensures Contents() == if o.Fail? then old(Contents()) else InsertTrack(old(Contents()), id, meta)
    {
      if !o.Fail? && id !in tracks {
        tracks := tracks[id := Track(meta, AudioKey(id), 0, Pending, 0)];
      }
    }

    method Publish(ev: UploadEvent, o: Outcome)
      modifies this`log
      ensures Contents() == if o.Fail? then old(Contents()) else Append(old(Contents()), ev)
    {
      if !o.Fail? {
        log := log + [ev];
      }
    }

    method ExecClaim(id: string, o: Outcome)
      modifies this`tracks
      ensures Contents() == if o.Fail? then old(Contents()) else Claim(old(Contents()), id)
    {
      if !o.Fail? && id in tracks && tracks[id].status == Pending {
        tracks := tracks[id := tracks[id].(status := Processing)];
      }
    }

    method ExecUpsertFormat(id: string, bitrate: nat, size: int, o: Outcome)
      modifies this`formats
      ensures Contents() == if o.Fail? then old(Contents()) else UpsertFormat(old(Contents()), id, bitrate, size)
    {
      if !o.Fail? {
        formats := formats[id := Upsert(Rows(Contents(), id), FormatRow(bitrate, FormatKey(id, bitrate), size))];
      }
    }

    method ExecReady(id: string, durationMs: int, o: Outcome)
      modifies this`tracks
      ensures Contents() == if o.Fail? then old(Contents()) else SetReady(old(Contents()), id, durationMs)
    {
      if !o.Fail? && id in tracks {
        tracks := tracks[id := tracks[id].(status := Ready, durationMs := durationMs)];
      }
    }

    method ExecError(id: string, o: Outcome)
      modifies this`tracks
      ensures Contents() == if o.Fail? then old(Contents()) else SetStatus(old(Contents()), id, Error)
    {
      if !o.Fail? && id in tracks {
        tracks := tracks[id := tracks[id].(status := Error)];
      }
    }

    method CacheSet(id: string, view: View, o: Outcome)
      modifies this`cache
      ensures Contents() == if o.Fail? then old(Contents()) else old(Contents()).(cache := old(cache)[id := view])
    {
      if !o.Fail? {
        cache := cache[id := view];
      }
    }

    // ---------------------------------------------------------------- the worker's process

    /** A run of process's own steps after which worker w stands at pc; nobody else has moved; stores are as here. */
    ghost predicate Standing(a: Answers, before: State, steps: seq<Step>, w: nat, ev: UploadEvent, pc: Pc)
      reads this
    {
      && IsRun(before, steps) && Follows(a, before, steps, w)
      && Run(before, steps) == Moved(before, Contents(), before.workers[w := Job(ev, pc)], Run(before, steps).passes)
    }

    /** A run of process's own steps after which worker w is idle; nobody else has moved; stores are as here. */
    ghost predicate Stopped(a: Answers, before: State, steps: seq<Step>, w: nat)
      reads this
    {
      && IsRun(before, steps) && Follows(a, before, steps, w)
      && Run(before, steps) == Moved(before, Contents(), before.workers - {w}, Run(before, steps).passes)
    }

    /** markError, after which process returns its error. */
    method MarkErrorAndStop(a: Answers, w: nat, ev: UploadEvent, ghost before: State, ghost steps: seq<Step>)
      returns (ghost run: seq<Step>)
      requires Standing(a, before, steps, w, ev, MarkingError)
      modifies this`tracks
      ensures Stopped(a, before, run, w) && run == steps + [Step.MarkError(w, a.markError)]
      ensures tracks == if a.markError.Fail? then old(tracks) else WithStatus(old(tracks), ev.trackId, Error)
    {
      ExecError(ev.trackId, a.markError);
      run := TakesStep(a, before, steps, w);
      Overwrite(before.workers, w, Job(ev, MarkingError), Job(ev, MarkingError));
    }

    /** Transcode, read the result, upload it. ok is false when an error return is due. */
    method EncodeAndUpload(a: Answers, w: nat, ev: UploadEvent, i: nat, durationMs: int,
                           ghost before: State, ghost steps: seq<Step>)
      returns (ok: bool, ghost run: seq<Step>)
      requires i < |BITRATES| && Standing(a, before, steps, w, ev, Uploading(i, durationMs))
      modifies this`objects
      ensures Standing(a, before, run, w, ev, if ok then Inserting(i, durationMs, a.sizes(i)) else MarkingError)
      ensures ok == a.upload(i).Ok? && |run| == |steps| + 1
      ensures ok ==> objects == old(objects) + {FormatKey(ev.trackId, BITRATES[i])}
    {
      StorePut(FormatKey(ev.trackId, BITRATES[i]), a.upload(i));
      ok := a.upload(i).Ok?;
      run := TakesStep(a, before, steps, w);
      Overwrite(before.workers, w, Job(ev, Uploading(i, durationMs)),
                Job(ev, if ok then Inserting(i, durationMs, a.sizes(i)) else MarkingError));
    }

    /** The upsert that ends one pass of the loop over Bitrates. */
    method InsertEncoded(a: Answers, w: nat, ev: UploadEvent, i: nat, durationMs: int, sizeBytes: int,
                         ghost before: State, ghost steps: seq<Step>)
      returns (ok: bool, ghost run: seq<Step>)
      requires i < |BITRATES| && Standing(a, before, steps, w, ev, Inserting(i, durationMs, sizeBytes))
      modifies this`formats
      ensures Standing(a, before, run, w, ev, NextPc(ok, i, durationMs))
      ensures ok ==> Contents() == UpsertFormat(old(Contents()), ev.trackId, BITRATES[i], sizeBytes)
      ensures ok == a.insert(i).Ok? && |run| == |steps| + 1
    {
      ExecUpsertFormat(ev.trackId, BITRATES[i], sizeBytes, a.insert(i));
      ok := a.insert(i).Ok?;
      run := TakesStep(a, before, steps, w);
      Overwrite(before.workers, w, Job(ev, Inserting(i, durationMs, sizeBytes)), Job(ev, NextPc(ok, i, durationMs)));
    }

    /** One pass of the loop over Bitrates. */
    method Encode(a: Answers, w: nat, ev: UploadEvent, i: nat, durationMs: int,
                  ghost before: State, ghost steps: seq<Step>)
      returns (ok: bool, ghost run: seq<Step>)
      requires i < |BITRATES| && Standing(a, before, steps, w, ev, Uploading(i, durationMs))
      modifies this`objects, this`formats
      ensures Standing(a, before, run, w, ev, NextPc(ok, i, durationMs))
      ensures ok == (a.upload(i).Ok? && a.insert(i).Ok?) && |run| > |steps|
      ensures ok ==> objects == old(objects) + {FormatKey(ev.trackId, BITRATES[i])}
      ensures ok ==> Rows(Contents(), ev.trackId)
                     == Upsert(old(Rows(Contents(), ev.trackId)), Rendition(ev.trackId, i, a.sizes(i)))
      ensures ok && Encoded(old(Contents()), ev.trackId, i) ==> Encoded(Contents(), ev.trackId, i + 1)
    {
      hide Standing, Encoded;
      ok, run := EncodeAndUpload(a, w, ev, i, durationMs, before, steps);
      if ok {
        EncodedOneMore(old(Contents()), Contents(), ev.trackId, i, a.sizes(i));
        ok, run := InsertEncoded(a, w, ev, i, durationMs, a.sizes(i), before, run);
      }
    }

    /** The row of rendition i, with its size, and the object it names. */
    ghost predicate HasRendition(id: string, i: nat, sizeBytes: int)
      requires i < |BITRATES|
      reads this
    {
      Rendition(id, i, sizeBytes) in Rows(Contents(), id) && FormatKey(id, BITRATES[i]) in objects
    }

    /** The same spelled out. */
    ghost predicate Holds(id: string, bitrate: nat, name: string, sizeBytes: int)
      reads this
    {
      var key := "tracks/" + id + name;
      id in formats && FormatRow(bitrate, key, sizeBytes) in formats[id] && key in objects
    }

    /** The loop over Bitrates. */
    method EncodeAll(a: Answers, w: nat, ev: UploadEvent, ghost before: State, ghost steps: seq<Step>)
      returns (ok: bool, ghost run: seq<Step>)
      requires Standing(a, before, steps, w, ev, Uploading(0, a.durationMs))
      modifies this`objects, this`formats
      ensures Standing(a, before, run, w, ev, if ok then Finishing(a.durationMs) else MarkingError)
      ensures ok <==> forall i: nat :: i < |BITRATES| ==> a.upload(i).Ok? && a.insert(i).Ok?
      ensures ok ==> Encoded(Contents(), ev.trackId, |BITRATES|)
      ensures ok ==> Holds(ev.trackId, 64, "/64.ogg", a.sizes(0)) && Holds(ev.trackId, 128, "/128.ogg", a.sizes(1))
                     && Holds(ev.trackId, 320, "/320.ogg", a.sizes(2))
    {
      hide Standing, Encoded, Holds, Upsert;
      EncodedNone(Contents(), ev.trackId);
      run := steps;
      for i := 0 to |BITRATES|
        invariant Encoded(Contents(), ev.trackId, i)
        invariant forall j: nat :: j < i ==> a.upload(j).Ok? && a.insert(j).Ok?
        invariant forall j: nat :: j < i ==> HasRendition(ev.trackId, j, a.sizes(j))
        invariant Standing(a, before, run, w, ev,
                           if i < |BITRATES| then Uploading(i, a.durationMs) else Finishing(a.durationMs))
      {
        ghost var rows := Rows(Contents(), ev.trackId);
        ok, run := Encode(a, w, ev, i, a.durationMs, before, run);
        if !ok {
          return;
        }
        RenditionsKept(rows, ev.trackId, i, a.sizes(i));
      }
      ok := true;
      AllHeld(ev.trackId, a.sizes);
    }

    lemma AllHeld(id: string, sizes: nat -> int)
      requires forall j: nat :: j < |BITRATES| ==> HasRendition(id, j, sizes(j))
      ensures Holds(id, 64, "/64.ogg", sizes(0)) && Holds(id, 128, "/128.ogg", sizes(1))
              && Holds(id, 320, "/320.ogg", sizes(2))
    {
      FormatKeysSpelled(id);
      assert HasRendition(id, 0, sizes(0)) && HasRendition(id, 1, sizes(1)) && HasRendition(id, 2, sizes(2));
    }

    /** SELECT status, then the claim. go is false when process returns, and then ok says whether with nil. */
    method CheckAndClaim(a: Answers, w: nat, ev: UploadEvent, ghost before: State)
      returns (go: bool, ok: bool, ghost run: seq<Step>)
      requires Standing(a, before, [], w, ev, Checking)
      modifies this`tracks
      ensures if go then Standing(a, before, run, w, ev, Fetching) && ev.trackId in tracks && |run| == 2
              else Stopped(a, before, run, w)
      ensures var found := a.check.Ok? && ev.trackId in old(tracks);
              var pending := found && old(tracks)[ev.trackId].status == Pending;
              && go == (pending && a.claim.Ok?)
              && (!go ==> ok == (found && !pending))
              && tracks == if pending && !a.claim.Fail? then WithStatus(old(tracks), ev.trackId, Processing)
                           else old(tracks)
    {
      run := TakesStep(a, before, [], w);
      Overwrite(before.workers, w, Job(ev, Checking), Job(ev, Claiming));
      if !a.check.Ok? || ev.trackId !in tracks {
        return false, false, run;
      }
      if tracks[ev.trackId].status != Pending {
        return false, true, run;
      }
      ExecClaim(ev.trackId, a.claim);
      run := TakesStep(a, before, run, w);
      Overwrite(before.workers, w, Job(ev, Claiming), Job(ev, Fetching));
      go, ok := a.claim.Ok?, false;
    }

    /** Temporary directory, download and probe: local work, and an object that must be there. */
    method FetchOriginal(a: Answers, w: nat, ev: UploadEvent, ghost before: State, ghost steps: seq<Step>)
      returns (ok: bool, ghost run: seq<Step>)
      requires Standing(a, before, steps, w, ev, Fetching)
      ensures Standing(a, before, run, w, ev, if ok then Uploading(0, a.durationMs) else MarkingError)
      ensures ok == (a.fetch.Ok? && ev.audioKey in objects) && |run| == |steps| + 1
    {
      ok := a.fetch.Ok? && ev.audioKey in objects;
      run := TakesStep(a, before, steps, w);
      Overwrite(before.workers, w, Job(ev, Fetching), Job(ev, if ok then Uploading(0, a.durationMs) else MarkingError));
    }

    /** The last UPDATE, with markError behind it. The search index, filled afterwards, is best effort. */
    method SetReadyAndStop(a: Answers, w: nat, ev: UploadEvent, durationMs: int,
                           ghost before: State, ghost steps: seq<Step>)
      returns (ok: bool, ghost run: seq<Step>)
      requires Standing(a, before, steps, w, ev, Finishing(durationMs)) && ev.trackId in tracks
      modifies this`tracks
      ensures Stopped(a, before, run, w) && |run| > |steps|
      ensures ok == a.finish.Ok?
      ensures formats == old(formats)
      ensures ok ==> tracks == old(tracks)[ev.trackId :=
                                 old(tracks)[ev.trackId].(status := Ready, durationMs := durationMs)]
      ensures !ok && !a.markError.Fail? ==> ev.trackId in tracks && tracks[ev.trackId].status == Error
    {
      ExecReady(ev.trackId, durationMs, a.finish);
      ok := a.finish.Ok?;
      run := TakesStep(a, before, steps, w);
      Overwrite(before.workers, w, Job(ev, Finishing(durationMs)), Job(ev, MarkingError));
      if !ok {
        run := MarkErrorAndStop(a, w, ev, before, run);
      }
    }

    /**
     * process. Its steps are the process's own, up to the end of it, so the answers fix them and the stores.
     * It returns nil exactly if the track is there and not pending, or everything succeeded.
     */
    method Process(a: Answers, w: nat, ev: UploadEvent, ghost before: State) returns (ok: bool, ghost run: seq<Step>)
      requires before.d == Contents() && w in before.workers && before.workers[w] == Job(ev, Checking)
      modifies this
      ensures Stopped(a, before, run, w)
      ensures var found := a.check.Ok? && ev.trackId in old(tracks);
              var skips := found && old(tracks)[ev.trackId].status != Pending;
              && ok == (skips || (found && AllSucceed(a) && ev.audioKey in old(objects)))
              && (skips ==> Contents() == old(Contents()))
              && (ok && !skips ==>
                    && tracks == old(tracks)[ev.trackId :=
                                   old(tracks)[ev.trackId].(status := Ready, durationMs := a.durationMs)]
                    && Holds(ev.trackId, 64, "/64.ogg", a.sizes(0)) && Holds(ev.trackId, 128, "/128.ogg", a.sizes(1))
                    && Holds(ev.trackId, 320, "/320.ogg", a.sizes(2)) && Encoded(Contents(), ev.trackId, |BITRATES|))
              && (!ok && found && a.claim.Ok? && !a.markError.Fail? ==>
                    ev.trackId in tracks && tracks[ev.trackId].status == Error)
    {
      Overwrite(before.workers, w, before.workers[w], Job(ev, Checking));
      assert Standing(a, before, [], w, ev, Checking);
      hide Standing, Stopped, Encoded, HasRendition;
      var go: bool;
      go, ok, run := CheckAndClaim(a, w, ev, before);
      if !go {
        return;
      }
      ok, run := FetchOriginal(a, w, ev, before, run);
      if !ok {
        run := MarkErrorAndStop(a, w, ev, before, run);
        return;
      }
      ok, run := EncodeAll(a, w, ev, before, run);
      if !ok {
        run := MarkErrorAndStop(a, w, ev, before, run);
        return;
      }
      ok, run := SetReadyAndStop(a, w, ev, a.durationMs, before, run);
    }

    // ---------------------------------------------------------------- Create

    /** The creator's part of a run: nobody else has moved, and the stores are as they are here. */
    ghost predicate Created(before: State, steps: seq<Step>, id: string, c: Creator)
      reads this
    {
      IsRun(before, steps) && Run(before, steps) == before.(d := Contents(), creators := before.creators[id := c])
    }

    method StoreAudio(id: string, meta: string, put: Outcome, ghost before: State, ghost steps: seq<Step>)
      returns (ghost run: seq<Step>)
      requires Created(before, steps, id, Storing(meta))
      modifies this`objects
      ensures Created(before, run, id, if put.Ok? then InsertingRow(meta) else Done)
      ensures run == steps + [CreateStore(id, put)]
      ensures put.Ok? ==> Contents() == PutObject(old(Contents()), AudioKey(id))
    {
      StorePut(AudioKey(id), put);
      run := steps + [CreateStore(id, put)];
      Extended(before, steps, CreateStore(id, put));
      Restarted(before.creators, id, Storing(meta), if put.Ok? then InsertingRow(meta) else Done);
    }

    method InsertRow(id: string, meta: string, insert: Outcome, ghost before: State, ghost steps: seq<Step>)
      returns (ghost run: seq<Step>)
      requires Created(before, steps, id, InsertingRow(meta))
      modifies this`tracks
      ensures Created(before, run, id, if insert.Ok? then Publishing else Done)
      ensures run == steps + [CreateInsert(id, insert)]
      ensures insert.Ok? ==> Contents() == InsertTrack(old(Contents()), id, meta)
    {
      ExecInsertTrack(id, meta, insert);
      run := steps + [CreateInsert(id, insert)];
      Extended(before, steps, CreateInsert(id, insert));
      Restarted(before.creators, id, InsertingRow(meta), if insert.Ok? then Publishing else Done);
    }

    method PublishEvent(id: string, publish: Outcome, ghost before: State, ghost steps: seq<Step>)
      returns (ghost run: seq<Step>)
      requires Created(before, steps, id, Publishing)
      modifies this`log
      ensures Created(before, run, id, Done)
      ensures run == steps + [CreatePublish(id, publish)]
      ensures publish.Ok? ==> Contents() == Append(old(Contents()), UploadEvent(id, AudioKey(id)))
    {
      Publish(UploadEvent(id, AudioKey(id)), publish);
      run := steps + [CreatePublish(id, publish)];
      Extended(before, steps, CreatePublish(id, publish));
      Restarted(before.creators, id, Publishing, Done);
    }

    /** Create after its input checks; id is the new UUID. put, insert and publish are the environment's answers. */
    method Create(id: string, meta: string, put: Outcome, insert: Outcome, publish: Outcome, ghost before: State)
      returns (accepted: bool, ghost run: seq<Step>)
      requires before.d == Contents() && id !in before.creators && id !in tracks && id !in formats
      modifies this
      ensures Created(before, run, id, Done)
      ensures run == [CreateStart(id, meta), CreateStore(id, put)]
                     + (if !put.Ok? then [] else [CreateInsert(id, insert)])
                     + (if !put.Ok? || !insert.Ok? then [] else [CreatePublish(id, publish)])
      ensures accepted == (put.Ok? && insert.Ok? && publish.Ok?)
      ensures accepted ==>
                var key := "tracks/" + id + "/audio";
                && objects == old(objects) + {key}
                && tracks == old(tracks)[id := Track(meta, key, 0, Pending, 0)]
                && log == old(log) + [UploadEvent(id, key)]
                && formats == old(formats) && cache == old(cache)
    {
      run := [CreateStart(id, meta)];
      Extended(before, [], CreateStart(id, meta));
      assert [] + [CreateStart(id, meta)] == run;
      assert Created(before, run, id, Storing(meta));
      hide Created, InsertTrack, PutObject, Append;
      run := StoreAudio(id, meta, put, before, run);
      if !put.Ok? {
        return false, run;
      }
      run := InsertRow(id, meta, insert, before, run);
      if !insert.Ok? {
        return false, run;
      }
      run := PublishEvent(id, publish, before, run);
      accepted := publish.Ok?;
    }

    // ---------------------------------------------------------------- Get

    /** A run after which reader r stands where given, nobody else has moved, and the stores are as they are here. */
    ghost predicate Reading(before: State, steps: seq<Step>, r: nat, at: Reader)
      reads this
    {
      IsRun(before, steps) && Run(before, steps) == before.(d := Contents(), readers := before.readers[r := at])
    }

    ghost predicate ReadOver(before: State, steps: seq<Step>)
      reads this
    {
      IsRun(before, steps) && Run(before, steps) == before.(d := Contents())
    }

    /** The row query after a cache miss. */
    method QueryRow(r: nat, id: string, row: Outcome, ghost before: State)
      returns (found: bool, t: View, ghost run: seq<Step>)
      requires before.d == Contents() && r !in before.readers
      ensures found == (row.Ok? && id in tracks)
      ensures found ==> t == RowView(tracks[id]) && Reading(before, run, r, ListingFormats(id, t))
      ensures !found ==> ReadOver(before, run)
      ensures run == [Miss(r, id), ReadRow(r, row)]
    {
      run := [Miss(r, id)];
      Extended(before, [], Miss(r, id));
      assert [] + [Miss(r, id)] == run;
      Extended(before, run, ReadRow(r, row));
      run := run + [ReadRow(r, row)];
      found := row.Ok? && id in tracks;
      t := if found then RowView(tracks[id]) else View("", 0, 0, Pending, []);
      Reread(before.readers, r, ReadingRow(id), ListingFormats(id, t));
    }

    /** The formats query, and the loop over its rows; a failure cuts it short and is not reported. */
    method QueryFormats(r: nat, id: string, row: View, listing: Listing, ghost before: State, ghost steps: seq<Step>)
      returns (t: View, ghost run: seq<Step>)
      requires row.formats == [] && Reading(before, steps, r, ListingFormats(id, row)) && r !in before.readers
      ensures t == row.(formats := Listed(Contents(), id, listing))
      ensures if row.status == Ready then Reading(before, run, r, Saving(id, t)) else ReadOver(before, run)
      ensures run == steps + [ListFormats(r, listing)]
    {
      hide Infos, Rows, NextStores, NextWorkers, NextCreators, NextPasses;
      var available := Infos(Rows(Contents(), id));
      var n := if listing.Partial? && listing.n < |available| then listing.n else |available|;
      t := row;
      for i := 0 to n
        invariant t == row.(formats := available[..i])
      {
        t := t.(formats := t.formats + [available[i]]);
      }
      assert t.formats == Listed(Contents(), id, listing);
      run := steps + [ListFormats(r, listing)];
      Extended(before, steps, ListFormats(r, listing));
      OnlyReaders(Run(before, steps), ListFormats(r, listing));
      Reread(before.readers, r, ListingFormats(id, row), Saving(id, t));
    }

    /**
     * Get. hits says whether the cache answers a key it holds; row, listing and save answer the other operations.
     * found is false, a 404, exactly if the cache did not answer and the row query failed or found no row.
     */
    method Get(r: nat, id: string, hits: bool, row: Outcome, listing: Listing, save: Outcome, ghost before: State)
      returns (found: bool, t: View, ghost run: seq<Step>)
      requires before.d == Contents() && r !in before.readers
      modifies this`cache
      ensures ReadOver(before, run)
      ensures var hit := hits && id in old(cache);
              var served := row.Ok? && id in old(tracks);
              && found == (hit || served)
              && (hit ==> t == old(cache)[id])
              && (!hit && served ==>
                    var rows := Rows(old(Contents()), id);
                    Shows(t, old(tracks)[id],
                          if listing.Partial? && listing.n < |rows| then rows[..listing.n] else rows))
              && (!hit && served && listing.All? ==> t == FreshView(old(Contents()), id))
              && (!hit && served && old(tracks)[id].status == Ready && save.Ok? ==> cache == old(cache)[id := t])
              && (hit || !served || old(tracks)[id].status != Ready ==> cache == old(cache))
              && run == (if hit then [] else [Miss(r, id), ReadRow(r, row)])
                        + (if hit || !served then [] else [ListFormats(r, listing)])
                        + (if hit || !served || old(tracks)[id].status != Ready then [] else [Save(r, save)])
    {
      hide Infos, Rows, NextStores, NextWorkers, NextCreators, NextPasses;
      run := [];
      if hits && id in cache {
        return true, cache[id], run;
      }
      found, t, run := QueryRow(r, id, row, before);
      if !found {
        return;
      }
      ListedShows(Contents(), id, listing);
      t, run := QueryFormats(r, id, t, listing, before, run);
      // Only ready tracks are cached.
      if t.status == Ready {
        CacheSet(id, t, save);
        Extended(before, run, Save(r, save));
        OnlySaves(Run(before, run), r, save);
        run := run + [Save(r, save)];
        Reread(before.readers, r, Saving(id, t), Saving(id, t));
      }
    }
  }

  /** Nothing that process does after the check fails, a missing original aside. */
  ghost predicate AllSucceed(a: Answers) {
    && a.claim.Ok? && a.fetch.Ok? && a.finish.Ok?
    && forall i: nat :: i < |BITRATES| ==> a.upload(i).Ok? && a.insert(i).Ok?
  }

  function WithStatus(tracks: map<string, Track>, id: string, status: Status): map<string, Track> {
    if id in tracks then tracks[id := tracks[id].(status := status)] else tracks
  }

  function Rendition(id: string, i: nat, sizeBytes: int): FormatRow
    requires i < |BITRATES|
  {
    FormatRow(BITRATES[i], FormatKey(id, BITRATES[i]), sizeBytes)
  }

  lemma {:induction false} UpsertKeeps(rows: seq<FormatRow>, r: FormatRow, x: FormatRow)
    ensures r in Upsert(rows, r)
    ensures x in rows && x.bitrate != r.bitrate ==> x in Upsert(rows, r)
  {
    if rows != [] && r.bitrate > rows[0].bitrate {
      UpsertKeeps(rows[1..], r, x);
    }
  }

  /** The new rendition does not displace another one. */
  lemma RenditionsKept(rows: seq<FormatRow>, id: string, i: nat, sizeBytes: int)
    requires i < |BITRATES|
    ensures var r := Rendition(id, i, sizeBytes);
            r in Upsert(rows, r) && forall x :: x in rows && x.bitrate != r.bitrate ==> x in Upsert(rows, r)
  {
    var r := Rendition(id, i, sizeBytes);
    forall x ensures r in Upsert(rows, r) && (x in rows && x.bitrate != r.bitrate ==> x in Upsert(rows, r)) {
      UpsertKeeps(rows, r, x);
    }
    UpsertKeeps(rows, r, r);
  }

  function NextPc(ok: bool, i: nat, durationMs: int): Pc {
    if !ok then MarkingError else if i + 1 < |BITRATES| then Uploading(i + 1, durationMs) else Finishing(durationMs)
  }

  lemma EncodedNone(d: Stores, id: string)
    ensures Encoded(d, id, 0)
  {
  }

  /** Objects may change before an upsert; the rows do not. */
  lemma EncodedOneMore(d: Stores, d': Stores, id: string, i: nat, size: int)
    requires i < |BITRATES| && d'.formats == d.formats
    ensures Encoded(d, id, i) ==> Encoded(UpsertFormat(d', id, BITRATES[i], size), id, i + 1)
  {
    UpsertExtends(d', id, BITRATES[i], size);
    assert forall b :: HasBitrate(Rows(d, id), b) ==> HasBitrate(Rows(d', id), b);
  }

  lemma OnlyReaders(s: State, step: Step)
    requires Enabled(s, step) && step.ListFormats?
    ensures Apply(s, step) == s.(readers := NextReaders(s, step))
  {
  }

  lemma OnlySaves(s: State, r: nat, o: Outcome)
    requires Enabled(s, Save(r, o))
    ensures var d' := if o.Fail? then s.d else s.d.(cache := s.d.cache[s.readers[r].id := s.readers[r].view]);
            Apply(s, Save(r, o)) == s.(d := d', readers := s.readers - {r})
  {
  }

  lemma Reread(m: map<nat, Reader>, r: nat, a: Reader, b: Reader)
    ensures m[r := a][r := b] == m[r := b]
    ensures r !in m ==> m[r := a] - {r} == m
  {
  }

  ghost function Moved(s: State, d: Stores, workers: map<nat, Job>, passes: map<string, nat>): State {
    State(d, workers, s.creators, s.readers, passes)
  }

  lemma Overwrite(m: map<nat, Job>, w: nat, a: Job, b: Job)
    ensures m[w := a][w := b] == m[w := b]
    ensures m[w := a] - {w} == m - {w}
    ensures w in m && m[w] == b ==> m[w := b] == m
  {
  }

  lemma Restarted(m: map<string, Creator>, id: string, a: Creator, b: Creator)
    ensures m[id := a][id := b] == m[id := b]
  {
  }
}
