/** What every run of the play-event consumers keeps. */
module ConsumerRuns {
  import opened Analytics
  import opened Consumer

  /** Below the committed offset of its partition. */
  ghost predicate Committed(s: State, a: Address) {
    a.0 < |s.committed| && a.1 < s.committed[a.0]
  }

  /** Below the position of session c. */
  ghost predicate Passed(s: State, c: nat, a: Address) {
    c in s.sessions && a.0 == s.sessions[c].partition && a.1 < s.sessions[c].position
  }

  /** The record was handed to the handler, and the event was recorded unless some handling of it failed. */
  ghost predicate Settled(s: State, a: Address) {
    InLog(s, a) && a in s.attempted && (a in s.recorded || a in s.failed)
  }

  ghost predicate SessionSound(s: State, c: nat)
    requires c in s.sessions
  {
    var n := s.sessions[c];
    && n.marked <= n.position && n.partition < |s.logs|
    && (!n.phase.Polling? ==> InLog(s, Current(s, c)) && Current(s, c) in s.attempted)
    && (n.phase.Returned? ==> Settled(s, Current(s, c)))
  }

  /** Everything below a committed offset or a session's position is settled. */
  ghost predicate PrefixesSettled(s: State) {
    && |s.committed| == |s.logs|
    && (forall a: Address :: Committed(s, a) ==> Settled(s, a))
    && (forall c: nat, a: Address :: Passed(s, c, a) ==> Settled(s, a))
    && (forall c: nat :: c in s.sessions ==> SessionSound(s, c))
  }

  lemma StaysSettled(s: State, step: Step, a: Address)
    requires Enabled(s, step) && Settled(s, a)
    ensures Settled(Apply(s, step), a)
  {
  }

  lemma SessionStaysSound(s: State, step: Step, c: nat)
    requires PrefixesSettled(s) && Enabled(s, step) && c in Apply(s, step).sessions
    ensures SessionSound(Apply(s, step), c)
  {
    if c in s.sessions {
      assert SessionSound(s, c);
      if SessionSound(s, c) && s.sessions[c].phase.Returned? {
        StaysSettled(s, step, Current(s, c));
      }
    }
  }

  lemma ApplySettles(s: State, step: Step)
    requires PrefixesSettled(s) && Enabled(s, step)
    ensures PrefixesSettled(Apply(s, step))
  {
    var s' := Apply(s, step);
    forall a: Address | Committed(s', a) ensures Settled(s', a) {
      if step.Commit? {
        assert SessionSound(s, step.consumer);
        assert Committed(s, a) || Passed(s, step.consumer, a);
      } else {
        assert Committed(s, a);
      }
      StaysSettled(s, step, a);
    }
    forall c: nat, a: Address | Passed(s', c, a) ensures Settled(s', a) {
      if step == Mark(c) {
        assert SessionSound(s, c);
        assert Passed(s, c, a) || a == Current(s, c);
      } else {
        assert Passed(s, c, a) || Committed(s, a);
      }
      StaysSettled(s, step, a);
    }
    forall c: nat | c in s'.sessions ensures SessionSound(s', c) {
      SessionStaysSound(s, step, c);
    }
  }

  // ---------------------------------------------------------------- counting

  ghost predicate IsEventOf(s: State, a: Address, track: string) {
    InLog(s, a) && s.logs[a.0][a.1].Event? && s.logs[a.0][a.1].event.track == track
  }

  ghost function Only(s: State, addresses: set<Address>, track: string): set<Address> {
    set a | a in addresses && IsEventOf(s, a, track)
  }

  /** The committed records of a track, over all partitions. */
  ghost function CommittedOf(s: State, track: string): set<Address> {
    set p, o | 0 <= p < |s.committed| && 0 <= o < s.committed[p] && IsEventOf(s, (p, o), track) :: (p, o)
  }

  /** Sessions at work on a record of the track. */
  ghost function AtWork(s: State, track: string): set<nat> {
    set c | c in s.sessions && s.sessions[c].phase.Handling? && IsEventOf(s, Current(s, c), track)
  }

  /** Recorded records have play events beyond the base, and each of those comes from a delivery of its own. */
  ghost predicate CountsBracketed(s: State, track: string, base: nat) {
    && base + |Only(s, s.recorded, track)| <= Plays(s.db.plays, track)
    && Plays(s.db.plays, track) + |AtWork(s, track)| <= base + Plays(s.deliveries, track)
    && (forall a :: a in s.recorded ==> InLog(s, a))
  }

  lemma {:induction false} SubsetSize<T>(a: set<T>, b: set<T>)
    requires a <= b
    ensures |a| <= |b|
    decreases |a|
  {
    if a != {} {
      var x :| x in a;
      SubsetSize(a - {x}, b - {x});
    }
  }

  /** The log only grows, so records keep their events. */
  lemma EventsStay(s: State, step: Step, a: Address, track: string)
    requires Enabled(s, step) && InLog(s, a)
    ensures IsEventOf(Apply(s, step), a, track) <==> IsEventOf(s, a, track)
  {
  }

  lemma AtWorkAfter(s: State, step: Step, track: string)
    requires PrefixesSettled(s) && Enabled(s, step)
    ensures var s' := Apply(s, step);
            match step
            case Start(c) =>
              AtWork(s', track) == AtWork(s, track) + (if IsEventOf(s, Current(s, c), track) then {c} else {})
            case Finish(c, _) => AtWork(s', track) == AtWork(s, track) - {c}
            case _ => AtWork(s', track) <= AtWork(s, track)
  {
    var s' := Apply(s, step);
    forall c | c in s.sessions && c in s'.sessions && s.sessions[c].phase.Handling?
      ensures IsEventOf(s', Current(s, c), track) <==> IsEventOf(s, Current(s, c), track)
    {
      assert SessionSound(s, c);
      EventsStay(s, step, Current(s, c), track);
    }
    if step.Start? {
      EventsStay(s, step, Current(s, step.consumer), track);
    }
  }

  lemma OnlyStays(s: State, step: Step, addresses: set<Address>, track: string)
    requires Enabled(s, step) && forall a :: a in addresses ==> InLog(s, a)
    ensures Only(Apply(s, step), addresses, track) == Only(s, addresses, track)
    ensures forall a :: a in addresses ==> InLog(Apply(s, step), a)
  {
    forall a | a in addresses ensures IsEventOf(Apply(s, step), a, track) <==> IsEventOf(s, a, track) {
      EventsStay(s, step, a, track);
    }
  }

  lemma OnlyPlusOne(s: State, addresses: set<Address>, a: Address, track: string)
    ensures |Only(s, addresses + {a}, track)| <= |Only(s, addresses, track)| + One(IsEventOf(s, a, track))
  {
    SubsetSize(Only(s, addresses + {a}, track), Only(s, addresses, track) + if IsEventOf(s, a, track) then {a} else {});
  }

  function One(b: bool): nat { if b then 1 else 0 }

  /** A play event of the track is committed by this step. */
  ghost predicate Records(s: State, step: Step, track: string)
    requires Enabled(s, step)
  {
    step.Finish? && Apply(s, step).db != s.db && IsEventOf(s, Current(s, step.consumer), track)
  }

  ghost predicate Delivers(s: State, step: Step, track: string)
    requires Enabled(s, step)
  {
    step.Start? && IsEventOf(s, Current(s, step.consumer), track)
  }

  lemma PlaysAfter(s: State, step: Step, track: string)
    requires Enabled(s, step)
    ensures Plays(Apply(s, step).db.plays, track) == Plays(s.db.plays, track) + One(Records(s, step, track))
    ensures Plays(Apply(s, step).deliveries, track) == Plays(s.deliveries, track) + One(Delivers(s, step, track))
  {
    hide Plays;
    if step.Start? || step.Finish? {
      var a := Current(s, step.consumer);
      var r := s.logs[a.0][a.1];
      if r.Event? {
        PlaysAppend(s.deliveries, r.event, track);
        PlaysAppend(s.db.plays, r.event, track);
        GrowsBy(s.db.plays, r.event);
      }
    }
  }

  lemma GrowsBy(plays: seq<PlayEvent>, ev: PlayEvent)
    ensures plays + [ev] != plays
  {
    assert |plays + [ev]| == |plays| + 1;
  }

  lemma RecordedAfter(s: State, step: Step, track: string)
    requires Enabled(s, step) && forall a :: a in s.recorded ==> InLog(s, a)
    ensures var s' := Apply(s, step);
            && |Only(s', s'.recorded, track)| <= |Only(s, s.recorded, track)| + One(Records(s, step, track))
            && forall a :: a in s'.recorded ==> InLog(s', a)
  {
    var s' := Apply(s, step);
    OnlyStays(s, step, s.recorded, track);
    if s'.recorded != s.recorded {
      var a := Current(s, step.consumer);
      OnlyPlusOne(s', s.recorded, a, track);
      EventsStay(s, step, a, track);
    }
  }

  lemma WorkAfter(s: State, step: Step, track: string)
    requires PrefixesSettled(s) && Enabled(s, step)
    ensures |AtWork(Apply(s, step), track)| + One(Records(s, step, track))
            <= |AtWork(s, track)| + One(Delivers(s, step, track))
  {
    hide PrefixesSettled, Apply;
    AtWorkAfter(s, step, track);
    match step
    case Start(c) =>
    case Finish(c, _) =>
      assert IsEventOf(s, Current(s, c), track) <==> c in AtWork(s, track);
    case _ =>
      SubsetSize(AtWork(Apply(s, step), track), AtWork(s, track));
  }

  lemma StepBrackets(s: State, step: Step, track: string, base: nat)
    requires PrefixesSettled(s) && CountsBracketed(s, track, base) && Enabled(s, step)
    ensures CountsBracketed(Apply(s, step), track, base)
  {
    hide PrefixesSettled, Apply, Only, AtWork, Records, Delivers, Plays;
    PlaysAfter(s, step, track);
    RecordedAfter(s, step, track);
    WorkAfter(s, step, track);
  }

  // ---------------------------------------------------------------- main results

  ghost predicate Inv(s: State, track: string, base: nat) {
    PrefixesSettled(s) && CountsBracketed(s, track, base)
  }

  lemma {:induction false} RunKeepsInv(s: State, steps: seq<Step>, track: string, base: nat)
    requires IsRun(s, steps) && Inv(s, track, base)
    ensures Inv(Run(s, steps), track, base)
    decreases |steps|
  {
    if steps != [] {
      ApplySettles(s, steps[0]);
      StepBrackets(s, steps[0], track, base);
      RunKeepsInv(Apply(s, steps[0]), steps[1..], track, base);
    }
  }

  /** Every record below a committed offset was handed to the handler, and recorded unless a handling failed. */
  lemma CommittedWasAttempted(s: State, steps: seq<Step>, a: Address)
    requires Init(s) && IsRun(s, steps) && Committed(Run(s, steps), a)
    ensures var s' := Run(s, steps);
            a in s'.attempted && (a in s'.recorded || a in s'.failed)
  {
    RunKeepsInv(s, steps, "", Plays(s.db.plays, ""));
  }

  /**
   * On every run, with crashes, redelivery, several sessions per partition and handler errors: the new play
   * events of a track are at least its committed records that never failed, and at most its deliveries.
   */
  lemma PlaysBracketed(s: State, steps: seq<Step>, track: string)
    requires Init(s) && IsRun(s, steps)
    ensures var s' := Run(s, steps);
            |CommittedOf(s', track) - s'.failed| <= Plays(s'.db.plays, track) - Plays(s.db.plays, track)
            <= Plays(s'.deliveries, track)
  {
    RunKeepsInv(s, steps, track, Plays(s.db.plays, track));
    var s' := Run(s, steps);
    forall a | a in CommittedOf(s', track) - s'.failed ensures a in Only(s', s'.recorded, track) {
      assert Committed(s', a);
    }
    SubsetSize(CommittedOf(s', track) - s'.failed, Only(s', s'.recorded, track));
  }

  /** Without handler errors nothing committed is lost. */
  lemma NeverUndercounts(s: State, steps: seq<Step>, track: string)
    requires Init(s) && IsRun(s, steps) && Run(s, steps).failed == {}
    ensures var s' := Run(s, steps);
            |CommittedOf(s', track)| <= Plays(s'.db.plays, track) - Plays(s.db.plays, track)
            <= Plays(s'.deliveries, track)
  {
    PlaysBracketed(s, steps, track);
    assert CommittedOf(Run(s, steps), track) - {} == CommittedOf(Run(s, steps), track);
  }

  /** play_count minus the play events of a track; 0 while the track does not exist. */
  function Lead(db: Db, track: string): int {
    (if track in db.playCount then db.playCount[track] else 0) - Plays(db.plays, track)
  }

  lemma StepKeepsLead(s: State, step: Step, track: string)
    requires Enabled(s, step)
    ensures Lead(Apply(s, step).db, track) == Lead(s.db, track)
  {
    if step.Finish? {
      var a := Current(s, step.consumer);
      var r := s.logs[a.0][a.1];
      if track in s.db.playCount {
        HandleConserves(s.db, r, step.faults, track);
      } else if r.Event? {
        PlaysAppend(s.db.plays, r.event, track);
      }
    }
  }

  /** Conservation: over every run, play_count moves exactly as the number of play events does. */
  lemma {:induction false} PlayCountConserved(s: State, steps: seq<Step>, track: string)
    requires IsRun(s, steps)
    ensures Lead(Run(s, steps).db, track) == Lead(s.db, track)
    decreases |steps|
  {
    if steps != [] {
      StepKeepsLead(s, steps[0], track);
      PlayCountConserved(Apply(s, steps[0]), steps[1..], track);
    }
  }

  // ---------------------------------------------------------------- redelivery of failed records

  /** The records of the partition that session c handles next. */
  ghost predicate Fetches(s: State, c: nat, records: seq<Record>) {
    && c in s.sessions && s.sessions[c].phase.Polling? && s.sessions[c].partition < |s.logs|
    && var n := s.sessions[c];
       && n.position + |records| <= |s.logs[n.partition]|
       && s.logs[n.partition][n.position..n.position + |records|] == records
  }

  /** Session c handles a fetch, undisturbed. */
  lemma {:induction false} FetchRun(s: State, c: nat, records: seq<Record>, faults: seq<Faults>)
    returns (steps: seq<Step>)
    requires |faults| == |records| && Fetches(s, c, records)
    ensures IsRun(s, steps)
    ensures var n, s' := s.sessions[c], Run(s, steps);
            && s'.logs == s.logs && s'.committed == s.committed && s'.db == DbAfter(s.db, records, faults)
            && c in s'.sessions && s'.sessions == s.sessions[c := s'.sessions[c]]
            && s'.sessions[c] == Session(n.partition, n.position + |records|, s'.sessions[c].marked, Polling)
            && MarksSuccesses(s.db, records, faults, n.position, n.marked, s'.sessions[c].marked)
            && n.marked <= s'.sessions[c].marked
            && (s'.sessions[c].marked <= n.marked || s'.sessions[c].marked <= n.position + |records|)
    decreases |records|
  {
    hide Succeeds, SucceedsFrom, MarksSuccesses, Handle, Apply, Enabled;
    steps := [];
    if records == [] {
      NothingMarked(s.db, s.sessions[c].position, s.sessions[c].marked);
    } else {
      hide DbAfter;
      var k, n := |records| - 1, s.sessions[c];
      assert s.logs[n.partition][n.position..n.position + k] == records[..k];
      assert s.logs[n.partition][n.position + k] == records[k];
      steps := FetchRun(s, c, records[..k], faults[..k]);
      var s1 := Run(s, steps);
      var last := HandleOne(s1, c, faults[k]);
      MarksOneMore(s.db, records, faults, k, n.position, n.marked, s1.sessions[c].marked);
      assert records[..k + 1] == records && faults[..k + 1] == faults;
      LastHandled(s.db, records, faults);
      Joined(s, steps, last);
      steps := steps + last;
    }
  }

  /** Session c commits and crashes; a new session takes over the partition. */
  lemma CommitAndRestart(s: State, c: nat) returns (steps: seq<Step>)
    requires c in s.sessions && s.sessions[c].partition < |s.committed| && s.sessions[c].partition < |s.logs|
    ensures IsRun(s, steps)
    ensures var n, s' := s.sessions[c], Run(s, steps);
            && s'.committed == s.committed[n.partition := n.marked]
            && s'.sessions == s.sessions[c := Session(n.partition, n.marked, n.marked, Polling)]
            && s'.db == s.db && s'.logs == s.logs
  {
    var n := s.sessions[c];
    steps := [Commit(c), Crash(c), Join(c, n.partition)];
    var s1 := Apply(s, steps[0]);
    var s2 := Apply(s1, steps[1]);
    var s3 := Apply(s2, steps[2]);
    assert steps[1..] == [steps[1], steps[2]] && steps[1..][1..] == [steps[2]] && steps[1..][1..][1..] == [];
    assert IsRun(s3, []) && Run(s3, []) == s3;
    assert IsRun(s2, [steps[2]]) && Run(s2, [steps[2]]) == s3;
    assert IsRun(s1, steps[1..]) && Run(s1, steps[1..]) == s3;
  }

  /**
   * When a failed record is redelivered: a session handles any fetch, commits, and is replaced. Of the fetch, a record
   * that failed is below the committed offset, and so behind the new session, exactly when a later one succeeded.
   * That marked <= position, every session of every run keeps.
   */
  lemma RedeliveredIff(s: State, c: nat, records: seq<Record>, faults: seq<Faults>) returns (steps: seq<Step>)
    requires |faults| == |records| && Fetches(s, c, records)
    requires s.sessions[c].partition < |s.committed| && s.sessions[c].marked <= s.sessions[c].position
    ensures IsRun(s, steps)
    ensures var n, s' := s.sessions[c], Run(s, steps);
            && s'.db == DbAfter(s.db, records, faults) && s'.logs == s.logs
            && c in s'.sessions && s'.sessions[c].phase.Polling? && s'.sessions[c].partition == n.partition
            && forall j: nat :: j < |records| && !Succeeds(s.db, records, faults, j) ==>
                 && (Committed(s', (n.partition, n.position + j)) <==> SucceedsFrom(s.db, records, faults, j + 1))
                 && (s'.sessions[c].position <= n.position + j <==> !SucceedsFrom(s.db, records, faults, j + 1))
  {
    var fetch := FetchRun(s, c, records, faults);
    var s1 := Run(s, fetch);
    var rest := CommitAndRestart(s1, c);
    Joined(s, fetch, rest);
    steps := fetch + rest;
    hide Succeeds, DbAfter, IsRun, Run;
    forall j: nat | j < |records| && !Succeeds(s.db, records, faults, j)
      ensures SucceedsFrom(s.db, records, faults, j) <==> SucceedsFrom(s.db, records, faults, j + 1)
    {
      if i :| j <= i < |records| && Succeeds(s.db, records, faults, i) {
        assert i != j;
      }
    }
  }

  /** The hypothesis of RedeliveredIff holds of every session of every run. */
  lemma MarkedIsPassed(s: State, steps: seq<Step>, c: nat)
    requires Init(s) && IsRun(s, steps) && c in Run(s, steps).sessions
    ensures Run(s, steps).sessions[c].marked <= Run(s, steps).sessions[c].position
  {
    RunKeepsInv(s, steps, "", Plays(s.db.plays, ""));
    assert SessionSound(Run(s, steps), c);
  }

  /** Offset o is below where the session joined, or the session has succeeded at o or after it. */
  ghost predicate JoinedPastOrSucceeded(s: State, c: nat, o: nat) {
    (c in s.joinedAt && o < s.joinedAt[c]) || exists i :: i in Successes(s, c) && o <= i
  }

  ghost predicate MarksCover(s: State, c: nat)
    requires c in s.sessions
  {
    c in s.joinedAt && forall o: nat :: o < s.sessions[c].marked <==> JoinedPastOrSucceeded(s, c, o)
  }

  lemma SuccessesAfter(s: State, step: Step, c: nat)
    requires Enabled(s, step) && c in s.sessions && c in Apply(s, step).sessions
    ensures Successes(Apply(s, step), c) == Successes(s, c) +
              if step == Mark(c) && s.sessions[c].phase.ok then {s.sessions[c].position} else {}
    ensures c in s.joinedAt ==> c in Apply(s, step).joinedAt && Apply(s, step).joinedAt[c] == s.joinedAt[c]
  {
  }

  lemma StepKeepsCover(s: State, step: Step, c: nat)
    requires Enabled(s, step) && c in Apply(s, step).sessions
    requires c in s.sessions ==> MarksCover(s, c)
    ensures MarksCover(Apply(s, step), c)
  {
    var s' := Apply(s, step);
    if c in s.sessions {
      SuccessesAfter(s, step, c);
      hide Successes;
      var n, done := s.sessions[c], step == Mark(c) && s.sessions[c].phase.ok;
      forall o: nat ensures o < s'.sessions[c].marked <==> JoinedPastOrSucceeded(s', c, o) {
        assert o < n.marked <==> JoinedPastOrSucceeded(s, c, o);
        assert done ==> n.position in Successes(s', c);
      }
    }
  }

  lemma {:induction false} RunKeepsCover(s: State, steps: seq<Step>)
    requires IsRun(s, steps) && forall c :: c in s.sessions ==> MarksCover(s, c)
    ensures forall c :: c in Run(s, steps).sessions ==> MarksCover(Run(s, steps), c)
    decreases |steps|
  {
    hide Apply, Enabled, MarksCover;
    if steps != [] {
      forall c | c in Apply(s, steps[0]).sessions ensures MarksCover(Apply(s, steps[0]), c) {
        StepKeepsCover(s, steps[0], c);
      }
      RunKeepsCover(Apply(s, steps[0]), steps[1..]);
    }
  }

  /**
   * What a commit covers, on every run, however sessions interleave: an offset is below what session c would commit
   * now exactly if c joined past it, or succeeded at it or at a later offset since it joined.
   */
  lemma CommitCoversIff(s: State, steps: seq<Step>, c: nat, o: nat)
    requires Init(s) && IsRun(s, steps) && c in Run(s, steps).sessions
    requires Run(s, steps).sessions[c].partition < |Run(s, steps).committed|
    ensures var s' := Run(s, steps);
            Committed(Apply(s', Commit(c)), (s'.sessions[c].partition, o)) <==> JoinedPastOrSucceeded(s', c, o)
  {
    RunKeepsCover(s, steps);
    assert MarksCover(Run(s, steps), c);
  }

  // ---------------------------------------------------------------- a run that loses a record

  const NO_FAULTS := Faults(false, false, false, Analytics.Committed)

  /** The database is away for the first of two records of an existing track. */
  lemma FirstFails(db: Db, ev: PlayEvent)
    requires ev.track in db.playCount
    ensures var rs, fs := [Event(ev), Event(ev)], [NO_FAULTS.(beginFails := true), NO_FAULTS];
            && DbAfter(db, rs, fs) == AfterPlay(db, ev)
            && !Succeeds(db, rs, fs, 0) && Succeeds(db, rs, fs, 1)
  {
    var rs, fs := [Event(ev), Event(ev)], [NO_FAULTS.(beginFails := true), NO_FAULTS];
    assert rs[..0] == [] && rs[..1] == [rs[0]] && fs[..1] == [fs[0]];
    assert rs[..1][..0] == [] && fs[..1][..0] == [];
    assert DbAfter(db, rs[..1], fs[..1]) == db;
  }

  /** Two events of one track in one partition, and a session that polls it. */
  lemma TwoPublished(track: string) returns (s: State, steps: seq<Step>)
    ensures Init(s) && IsRun(s, steps) && s.db == Db([], map[track := 0])
    ensures var ev, s' := PlayEvent(track, ""), Run(s, steps);
            && s'.logs == [[Event(ev), Event(ev)]] && s'.committed == [0] && s'.db == s.db
            && s'.sessions == map[0 := Session(0, 0, 0, Polling)]
  {
    var r := Event(PlayEvent(track, ""));
    s := State([[]], [0], map[], Db([], map[track := 0]), [], {}, {}, {}, map[], map[]);
    steps := [Publish(0, r), Publish(0, r), Join(0, 0)];
    var s1 := Apply(s, steps[0]);
    var s2 := Apply(s1, steps[1]);
    var s3 := Apply(s2, steps[2]);
    assert steps[1..] == [steps[1], steps[2]] && steps[1..][1..] == [steps[2]] && steps[1..][1..][1..] == [];
    assert s1.logs[0] == [] + [r] == [r] && s2.logs[0] == [r] + [r] == [r, r];
    assert s2.logs == [s2.logs[0]];
    assert IsRun(s3, []) && Run(s3, []) == s3;
    assert IsRun(s2, [steps[2]]) && Run(s2, [steps[2]]) == s3;
    assert IsRun(s1, steps[1..]) && Run(s1, steps[1..]) == s3;
  }

  /**
   * The promise that a failed record is redelivered fails: a run from an empty topic after which the first of two
   * records is committed and behind the new session, and one play event stands for two plays.
   */
  lemma FailedRecordIsLost(track: string) returns (s: State, steps: seq<Step>)
    ensures Init(s) && IsRun(s, steps) && s.db == Db([], map[track := 0])
    ensures var s' := Run(s, steps);
            && s'.logs == [[Event(PlayEvent(track, "")), Event(PlayEvent(track, ""))]]
            && Committed(s', (0, 0)) && 0 in s'.sessions && s'.sessions[0].partition == 0 && s'.sessions[0].position > 0
            && s'.db.plays == [PlayEvent(track, "")]
  {
    var first;
    s, first := TwoPublished(track);
    var s1, ev := Run(s, first), PlayEvent(track, "");
    var rs, fs := [Event(ev), Event(ev)], [NO_FAULTS.(beginFails := true), NO_FAULTS];
    assert s1.logs[0][0..0 + |rs|] == rs;
    FirstFails(s1.db, ev);
    hide Succeeds, DbAfter, IsRun, Run;
    var rest := RedeliveredIff(s1, 0, rs, fs);
    assert SucceedsFrom(s1.db, rs, fs, 1);
    assert Committed(Run(s1, rest), (0, 0 + 0));
    Joined(s, first, rest);
    steps := first + rest;
  }
}
