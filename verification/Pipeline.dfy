/**
 * The upload pipeline and the track cache as one transition system.
 *
 * Processes: Create handlers, upload workers and Get handlers, any number of each. Their steps are the
 * single S3, SQL, Kafka and Redis operations of the program, interleaved freely. Every operation may
 * fail, with or without having taken effect, and every process may crash between two steps.
 *
 * A worker may be handed any event of the log at any time, which covers every consumer group's
 * redelivery, rebalancing and offset commits.
 */
module Pipeline {
  import opened Formatting

  datatype Status = Pending | Processing | Ready | Error

  /** A row of tracks. meta stands for title, artist, release date and creation time, which never change. */
  datatype Track = Track(meta: string, audioKey: string, durationMs: int, status: Status, playCount: int)

  /** A row of track_formats; the codec is always 'ogg'. */
  datatype FormatRow = FormatRow(bitrate: nat, s3Key: string, sizeBytes: int)

  datatype FormatInfo = FormatInfo(bitrate: int, sizeBytes: int)

  /** The JSON of one track, as returned by Get and as cached. */
  datatype View = View(meta: string, durationMs: int, playCount: int, status: Status, formats: seq<FormatInfo>)

  datatype UploadEvent = UploadEvent(trackId: string, audioKey: string)

  const BITRATES := [64, 128, 320]

  function AudioKey(trackId: string): string {
    "tracks/" + trackId + "/audio"
  }

  function FormatKey(trackId: string, bitrate: nat): string {
    "tracks/" + trackId + "/" + Decimal(bitrate) + ".ogg"
  }

  /** No two renditions, of one track or of two, share a key. */
  lemma FormatKeysDiffer(a: string, b: nat, a': string, b': nat)
    requires FormatKey(a, b) == FormatKey(a', b')
    ensures a == a' && b == b'
  {
    var x, x' := "tracks/" + a + "/" + Decimal(b), "tracks/" + a' + "/" + Decimal(b');
    assert x == FormatKey(a, b)[..|x|] && x' == FormatKey(a', b')[..|x'|];
    NumberedKeyInjective("tracks/" + a, b, "tracks/" + a', b', "/");
    assert a == ("tracks/" + a)[|"tracks/"|..] && a' == ("tracks/" + a')[|"tracks/"|..];
  }

  /** No two tracks share an original. */
  lemma AudioKeysDiffer(a: string, a': string)
    requires AudioKey(a) == AudioKey(a')
    ensures a == a'
  {
    var n := |"tracks/"|;
    assert a == AudioKey(a)[n..n + |a|] && a' == AudioKey(a')[n..n + |a'|];
    assert |AudioKey(a)| == n + |a| + |"/audio"| && |AudioKey(a')| == n + |a'| + |"/audio"|;
  }

  /** No original is a rendition. */
  lemma AudioIsNoFormat(a: string, a': string, b: nat)
    ensures AudioKey(a) != FormatKey(a', b)
  {
    var x, y := AudioKey(a), FormatKey(a', b);
    assert x[|x| - 1] == 'o' && y[|y| - 1] == 'g';
  }

  /** The keys of the three renditions, spelled out. */
  lemma FormatKeysSpelled(id: string)
    ensures FormatKey(id, 64) == "tracks/" + id + "/64.ogg"
    ensures FormatKey(id, 128) == "tracks/" + id + "/128.ogg"
    ensures FormatKey(id, 320) == "tracks/" + id + "/320.ogg"
    ensures BITRATES == [64, 128, 320]
  {
    assert Decimal(64) == "64";
    assert Decimal(12) == "12" && Decimal(128) == "128";
    assert Decimal(32) == "32" && Decimal(320) == "320";
    var t := "tracks/" + id + "/";
    assert (t + "64") + ".ogg" == t + "64.ogg" && (t + "128") + ".ogg" == t + "128.ogg";
    assert (t + "320") + ".ogg" == t + "320.ogg";
    assert t + "64.ogg" == "tracks/" + id + "/64.ogg" && t + "128.ogg" == "tracks/" + id + "/128.ogg";
    assert t + "320.ogg" == "tracks/" + id + "/320.ogg";
  }

  /** What became of an operation on a remote store: LostAck took effect but reported an error. */
  datatype Outcome = Ok | Fail | LostAck

  // ---------------------------------------------------------------- shared stores

  /** Object storage, the two tables, the upload topic, and the cache. */
  datatype Stores = Stores(
    objects: set<string>,
    tracks: map<string, Track>,
    formats: map<string, seq<FormatRow>>,
    log: seq<UploadEvent>,
    cache: map<string, View>)

  /** The rows of one track in bitrate order; (track, bitrate, codec) is unique. */
  function Rows(d: Stores, id: string): seq<FormatRow> {
    if id in d.formats then d.formats[id] else []
  }

  /** INSERT ... ON CONFLICT (track_id, bitrate, codec) DO UPDATE. */
  function Upsert(rows: seq<FormatRow>, r: FormatRow): seq<FormatRow> {
    if rows == [] || r.bitrate < rows[0].bitrate then [r] + rows
    else if rows[0].bitrate == r.bitrate then [r] + rows[1..]
    else [rows[0]] + Upsert(rows[1..], r)
  }

  function SetStatus(d: Stores, id: string, status: Status): Stores {
    if id in d.tracks then d.(tracks := d.tracks[id := d.tracks[id].(status := status)]) else d
  }

  function Infos(rows: seq<FormatRow>): seq<FormatInfo> {
    if rows == [] then [] else
      Infos(rows[..|rows| - 1]) + [FormatInfo(rows[|rows| - 1].bitrate, rows[|rows| - 1].sizeBytes)]
  }

  function RowView(t: Track): View {
    View(t.meta, t.durationMs, t.playCount, t.status, [])
  }

  /** The list shows each row's bitrate and size, in order. */
  ghost predicate Lists(infos: seq<FormatInfo>, rows: seq<FormatRow>) {
    && |infos| == |rows|
    && forall i :: 0 <= i < |rows| ==> infos[i].bitrate == rows[i].bitrate && infos[i].sizeBytes == rows[i].sizeBytes
  }

  /** The view shows the track's row and, of its formats, the given ones. */
  ghost predicate Shows(v: View, t: Track, rows: seq<FormatRow>) {
    && v.meta == t.meta && v.durationMs == t.durationMs && v.playCount == t.playCount && v.status == t.status
    && Lists(v.formats, rows)
  }

  /** What an undisturbed read of the database returns. */
  function FreshView(d: Stores, id: string): View
    requires id in d.tracks
  {
    RowView(d.tracks[id]).(formats := Infos(Rows(d, id)))
  }

  // Single operations. Each takes effect as a whole or not at all.

  function PutObject(d: Stores, key: string): Stores {
    d.(objects := d.objects + {key})
  }

  /** A second row with the same primary key is refused. */
  function InsertTrack(d: Stores, id: string, meta: string): Stores {
    if id in d.tracks then d
    else d.(tracks := d.tracks[id := Track(meta, AudioKey(id), 0, Pending, 0)])
  }

  function Append(d: Stores, ev: UploadEvent): Stores {
    d.(log := d.log + [ev])
  }

  /** UPDATE ... SET status = 'processing' WHERE id = ... AND status = 'pending'. */
  function Claim(d: Stores, id: string): Stores {
    if id in d.tracks && d.tracks[id].status == Pending then SetStatus(d, id, Processing) else d
  }

  function UpsertFormat(d: Stores, id: string, bitrate: nat, size: int): Stores {
    d.(formats := d.formats[id := Upsert(Rows(d, id), FormatRow(bitrate, FormatKey(id, bitrate), size))])
  }

  function SetReady(d: Stores, id: string, durationMs: int): Stores {
    if id in d.tracks
    then d.(tracks := d.tracks[id := d.tracks[id].(status := Ready, durationMs := durationMs)])
    else d
  }

  // ---------------------------------------------------------------- processes

  /** Where process stands: about to do the named operation. i indexes BITRATES. */
  datatype Pc =
    | Checking
    | Claiming
    | Fetching
    | Uploading(i: nat, durationMs: int)
    | Inserting(i: nat, durationMs: int, sizeBytes: int)
    | Finishing(durationMs: int)
    | MarkingError

  datatype Job = Job(ev: UploadEvent, pc: Pc)

  datatype Creator = Storing(meta: string) | InsertingRow(meta: string) | Publishing | Done

  datatype Reader = ReadingRow(id: string) | ListingFormats(id: string, view: View) | Saving(id: string, view: View)

  /** Whether the formats query delivered all rows, or stopped with an error after n of them. */
  datatype Listing = All | Partial(n: nat)

  /** Idle workers and readers are absent. passes counts transcode passes started, per track. */
  datatype State = State(
    d: Stores,
    workers: map<nat, Job>,
    creators: map<string, Creator>,
    readers: map<nat, Reader>,
    passes: map<string, nat>)

  datatype Step =
    | CreateStart(id: string, meta: string)
    | CreateStore(id: string, o: Outcome)
    | CreateInsert(id: string, o: Outcome)
    | CreatePublish(id: string, o: Outcome)
    | CreateCrash(id: string)
    | Deliver(w: nat, i: nat)
    | Check(w: nat, o: Outcome)
    | ClaimStep(w: nat, o: Outcome)
    | Fetch(w: nat, o: Outcome, durationMs: int)
    | Upload(w: nat, o: Outcome, sizeBytes: int)
    | InsertFormat(w: nat, o: Outcome)
    | Finish(w: nat, o: Outcome)
    | MarkError(w: nat, o: Outcome)
    | WorkerCrash(w: nat)
    | Miss(r: nat, id: string)
    | ReadRow(r: nat, o: Outcome)
    | ListFormats(r: nat, listing: Listing)
    | Save(r: nat, o: Outcome)
    | ReaderCrash(r: nat)
    | Evict(id: string)
    | Play(id: string)


  predicate Enabled(s: State, step: Step) {
    match step
    // A new UUID: no track, creator or format row has it.
    case CreateStart(id, _) => id !in s.creators && id !in s.d.tracks && id !in s.d.formats
    case CreateStore(id, _) => id in s.creators && s.creators[id].Storing?
    case CreateInsert(id, _) => id in s.creators && s.creators[id].InsertingRow?
    case CreatePublish(id, _) => id in s.creators && s.creators[id].Publishing?
    case CreateCrash(id) => id in s.creators
    case Deliver(w, i) => w !in s.workers && i < |s.d.log|
    case Check(w, _) => w in s.workers && s.workers[w].pc.Checking?
    case ClaimStep(w, _) => w in s.workers && s.workers[w].pc.Claiming?
    // Downloading a missing object fails.
    case Fetch(w, o, _) =>
      w in s.workers && s.workers[w].pc.Fetching? && (o.Ok? ==> s.workers[w].ev.audioKey in s.d.objects)
    case Upload(w, _, _) => w in s.workers && s.workers[w].pc.Uploading? && s.workers[w].pc.i < |BITRATES|
    case InsertFormat(w, _) => w in s.workers && s.workers[w].pc.Inserting? && s.workers[w].pc.i < |BITRATES|
    case Finish(w, _) => w in s.workers && s.workers[w].pc.Finishing?
    case MarkError(w, _) => w in s.workers && s.workers[w].pc.MarkingError?
    case WorkerCrash(w) => w in s.workers
    case Miss(r, _) => r !in s.readers
    case ReadRow(r, _) => r in s.readers && s.readers[r].ReadingRow?
    case ListFormats(r, _) => r in s.readers && s.readers[r].ListingFormats?
    case Save(r, _) => r in s.readers && s.readers[r].Saving?
    case ReaderCrash(r) => r in s.readers
    case Evict(_) => true
    case Play(id) => id in s.d.tracks
  }

  /** The outcome of the operation a step performs on a store. */
  function Result(step: Step): Outcome {
    match step
    case CreateStore(_, o) => o
    case CreateInsert(_, o) => o
    case CreatePublish(_, o) => o
    case Check(_, o) => o
    case ClaimStep(_, o) => o
    case Fetch(_, o, _) => o
    case Upload(_, o, _) => o
    case InsertFormat(_, o) => o
    case Finish(_, o) => o
    case MarkError(_, o) => o
    case ReadRow(_, o) => o
    case Save(_, o) => o
    case _ => Ok
  }

  /** The stores after the step's operation, if it takes effect. */
  function Operation(s: State, step: Step): Stores
    requires Enabled(s, step)
  {
    match step
    case CreateStore(id, _) => PutObject(s.d, AudioKey(id))
    case CreateInsert(id, _) => InsertTrack(s.d, id, s.creators[id].meta)
    case CreatePublish(id, _) => Append(s.d, UploadEvent(id, AudioKey(id)))
    case ClaimStep(w, _) => Claim(s.d, s.workers[w].ev.trackId)
    case Upload(w, _, _) => PutObject(s.d, FormatKey(s.workers[w].ev.trackId, BITRATES[s.workers[w].pc.i]))
    case InsertFormat(w, _) =>
      var job := s.workers[w];
      UpsertFormat(s.d, job.ev.trackId, BITRATES[job.pc.i], job.pc.sizeBytes)
    case Finish(w, _) => SetReady(s.d, s.workers[w].ev.trackId, s.workers[w].pc.durationMs)
    case MarkError(w, _) => SetStatus(s.d, s.workers[w].ev.trackId, Error)
    case Save(r, _) => s.d.(cache := s.d.cache[s.readers[r].id := s.readers[r].view])
    case Evict(id) => s.d.(cache := s.d.cache - {id})
    case Play(id) => s.d.(tracks := s.d.tracks[id := s.d.tracks[id].(playCount := s.d.tracks[id].playCount + 1)])
    case _ => s.d
  }

  function NextStores(s: State, step: Step): Stores
    requires Enabled(s, step)
  {
    if Result(step).Fail? then s.d else Operation(s, step)
  }

  /** Create: object, then row, then event; an error answers 500 and ends it. */
  function NextCreators(s: State, step: Step): map<string, Creator>
    requires Enabled(s, step)
  {
    match step
    case CreateStart(id, meta) => s.creators[id := Storing(meta)]
    case CreateStore(id, o) => s.creators[id := if o.Ok? then InsertingRow(s.creators[id].meta) else Done]
    case CreateInsert(id, o) => s.creators[id := if o.Ok? then Publishing else Done]
    case CreatePublish(id, _) => s.creators[id := Done]
    case CreateCrash(id) => s.creators[id := Done]
    case _ => s.creators
  }

  /** The worker goes on to the given place. */
  function Goto(s: State, w: nat, pc: Pc): map<nat, Job>
    requires w in s.workers
  {
    s.workers[w := s.workers[w].(pc := pc)]
  }

  /** process, one operation after the other; an error after the claim leads to markError. */
  function NextWorkers(s: State, step: Step): map<nat, Job>
    requires Enabled(s, step)
  {
    match step
    case Deliver(w, i) => s.workers[w := Job(s.d.log[i], Checking)]
    case Check(w, o) =>
      var id := s.workers[w].ev.trackId;
      if o.Ok? && id in s.d.tracks && s.d.tracks[id].status == Pending then Goto(s, w, Claiming) else s.workers - {w}
    // The number of rows the claim affected is not looked at.
    case ClaimStep(w, o) => if o.Ok? then Goto(s, w, Fetching) else s.workers - {w}
    case Fetch(w, o, durationMs) => Goto(s, w, if o.Ok? then Uploading(0, durationMs) else MarkingError)
    case Upload(w, o, sizeBytes) =>
      var pc := s.workers[w].pc;
      Goto(s, w, if o.Ok? then Inserting(pc.i, pc.durationMs, sizeBytes) else MarkingError)
    case InsertFormat(w, o) =>
      var pc := s.workers[w].pc;
      Goto(s, w, if !o.Ok? then MarkingError
                 else if pc.i + 1 < |BITRATES| then Uploading(pc.i + 1, pc.durationMs) else Finishing(pc.durationMs))
    case Finish(w, o) => if o.Ok? then s.workers - {w} else Goto(s, w, MarkingError)
    // markError ignores its own error.
    case MarkError(w, _) => s.workers - {w}
    case WorkerCrash(w) => s.workers - {w}
    case _ => s.workers
  }

  /** Get: cache, row, formats, cache again if the row said ready. */
  function NextReaders(s: State, step: Step): map<nat, Reader>
    requires Enabled(s, step)
  {
    match step
    // A cache error counts as a miss, so a miss can happen for a cached track too.
    case Miss(r, id) => s.readers[r := ReadingRow(id)]
    case ReadRow(r, o) =>
      var id := s.readers[r].id;
      if o.Ok? && id in s.d.tracks then s.readers[r := ListingFormats(id, RowView(s.d.tracks[id]))] else s.readers - {r}
    case ListFormats(r, listing) =>
      var id, view := s.readers[r].id, s.readers[r].view;
      if view.status == Ready
      then s.readers[r := Saving(id, view.(formats := Listed(s.d, id, listing)))]
      else s.readers - {r}
    case Save(r, _) => s.readers - {r}
    case ReaderCrash(r) => s.readers - {r}
    case _ => s.readers
  }

  /** A failing formats query is ignored: the rows that came are kept. */
  function Listed(d: Stores, id: string, listing: Listing): seq<FormatInfo> {
    var infos := Infos(Rows(d, id));
    if listing.Partial? && listing.n < |infos| then infos[..listing.n] else infos
  }

  function Passes(s: State, id: string): nat {
    if id in s.passes then s.passes[id] else 0
  }

  /** Going on after the claim starts a transcode pass. */
  function NextPasses(s: State, step: Step): map<string, nat>
    requires Enabled(s, step)
  {
    if step.ClaimStep? && step.o.Ok?
    then var id := s.workers[step.w].ev.trackId; s.passes[id := Passes(s, id) + 1]
    else s.passes
  }

  function Apply(s: State, step: Step): State
    requires Enabled(s, step)
  {
    State(NextStores(s, step), NextWorkers(s, step), NextCreators(s, step), NextReaders(s, step), NextPasses(s, step))
  }

  // ---------------------------------------------------------------- runs

  predicate IsRun(s: State, steps: seq<Step>)
    decreases |steps|
  {
    steps == [] || (Enabled(s, steps[0]) && IsRun(Apply(s, steps[0]), steps[1..]))
  }

  function Run(s: State, steps: seq<Step>): State
    requires IsRun(s, steps)
    decreases |steps|
  {
    if steps == [] then s else Run(Apply(s, steps[0]), steps[1..])
  }

  lemma {:induction false} Joined(s: State, first: seq<Step>, second: seq<Step>)
    requires IsRun(s, first) && IsRun(Run(s, first), second)
    ensures IsRun(s, first + second) && Run(s, first + second) == Run(Run(s, first), second)
    decreases |first|
  {
    if first == [] {
      assert first + second == second;
    } else {
      assert (first + second)[1..] == first[1..] + second;
      Joined(Apply(s, first[0]), first[1..], second);
    }
  }

  /** One step more on a run. */
  lemma Extended(s: State, steps: seq<Step>, step: Step)
    requires IsRun(s, steps) && Enabled(Run(s, steps), step)
    ensures IsRun(s, steps + [step]) && Run(s, steps + [step]) == Apply(Run(s, steps), step)
  {
    var mid := Run(s, steps);
    assert [step][1..] == [] && IsRun(Apply(mid, step), []) && Run(Apply(mid, step), []) == Apply(mid, step);
    assert IsRun(mid, [step]) && Run(mid, [step]) == Apply(mid, step);
    Joined(s, steps, [step]);
  }

  lemma {:induction false} InfosList(rows: seq<FormatRow>)
    ensures Lists(Infos(rows), rows)
  {
    if rows != [] {
      InfosList(rows[..|rows| - 1]);
    }
  }

  /** A fresh view shows the row and all formats. */
  lemma FreshViewShows(d: Stores, id: string)
    requires id in d.tracks
    ensures Shows(FreshView(d, id), d.tracks[id], Rows(d, id))
  {
    InfosList(Rows(d, id));
  }

  /** A query cut short lists the rows that came. */
  lemma ListedShows(d: Stores, id: string, listing: Listing)
    ensures var rows := Rows(d, id);
            Lists(Listed(d, id, listing),
                  if listing.Partial? && listing.n < |rows| then rows[..listing.n] else rows)
  {
    InfosList(Rows(d, id));
  }
}
