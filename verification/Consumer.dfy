/**
 * At-least-once consumption of play events: partitions with committed offsets, and any number of
 * consumer sessions that fetch, handle, mark, commit and crash, interleaved at will.
 *
 * A session marks a record when its handler returns nil; committing moves the partition's offset to
 * one past the highest mark. Several sessions may hold one partition (an old one outliving a rebalance).
 */
module Consumer {
  import opened Analytics

  datatype Phase = Polling | Handling | Returned(ok: bool)

  datatype Session = Session(partition: nat, position: nat, marked: nat, phase: Phase)

  /** Partition and offset. */
  type Address = (nat, nat)

  /**
   * attempted, recorded, failed and deliveries are bookkeeping about the run so far; so are joinedAt and succeeded,
   * the offset each session joined at and the offsets it handled successfully since.
   */
  datatype State = State(
    logs: seq<seq<Record>>,
    committed: seq<nat>,
    sessions: map<nat, Session>,
    db: Db,
    deliveries: seq<PlayEvent>,
    attempted: set<Address>,
    recorded: set<Address>,
    failed: set<Address>,
    joinedAt: map<nat, nat>,
    succeeded: map<nat, set<nat>>)

  datatype Step =
    | Publish(partition: nat, record: Record)
    | CreateTrack(track: string)
    | Join(consumer: nat, partition: nat)
    | Start(consumer: nat)
    | Finish(consumer: nat, faults: Faults)
    | Mark(consumer: nat)
    | Commit(consumer: nat)
    | Crash(consumer: nat)

  function Current(s: State, c: nat): Address
    requires c in s.sessions
  {
    (s.sessions[c].partition, s.sessions[c].position)
  }

  function Successes(s: State, c: nat): set<nat> {
    if c in s.succeeded then s.succeeded[c] else {}
  }

  predicate InLog(s: State, a: Address) {
    a.0 < |s.logs| && a.1 < |s.logs[a.0]|
  }

  predicate Enabled(s: State, step: Step) {
    match step
    case Publish(p, _) => p < |s.logs|
    case CreateTrack(t) => t !in s.db.playCount
    case Join(c, p) => c !in s.sessions && p < |s.logs| && p < |s.committed|
    case Start(c) => c in s.sessions && s.sessions[c].phase.Polling? && InLog(s, Current(s, c))
    case Finish(c, _) => c in s.sessions && s.sessions[c].phase.Handling? && InLog(s, Current(s, c))
    case Mark(c) => c in s.sessions && s.sessions[c].phase.Returned?
    case Commit(c) => c in s.sessions && s.sessions[c].partition < |s.committed|
    case Crash(c) => c in s.sessions
  }

  function Apply(s: State, step: Step): State
    requires Enabled(s, step)
  {
    match step
    case Publish(p, r) => s.(logs := s.logs[p := s.logs[p] + [r]])
    case CreateTrack(t) => s.(db := s.db.(playCount := s.db.playCount[t := 0]))
    case Join(c, p) =>
      s.(sessions := s.sessions[c := Session(p, s.committed[p], s.committed[p], Polling)],
         joinedAt := s.joinedAt[c := s.committed[p]],
         succeeded := s.succeeded[c := {}])
    case Start(c) =>
      var a := Current(s, c);
      var r := s.logs[a.0][a.1];
      s.(sessions := s.sessions[c := s.sessions[c].(phase := Handling)],
         attempted := s.attempted + {a},
         deliveries := if r.Event? then s.deliveries + [r.event] else s.deliveries)
    case Finish(c, f) =>
      var a := Current(s, c);
      var (db, ok) := Handle(s.db, s.logs[a.0][a.1], f);
      s.(sessions := s.sessions[c := s.sessions[c].(phase := Returned(ok))],
         db := db,
         recorded := if db != s.db then s.recorded + {a} else s.recorded,
         failed := if ok then s.failed else s.failed + {a})
    case Mark(c) =>
      var n := s.sessions[c];
      var marked := if n.phase.ok && n.marked < n.position + 1 then n.position + 1 else n.marked;
      s.(sessions := s.sessions[c := Session(n.partition, n.position + 1, marked, Polling)],
         succeeded := if n.phase.ok then s.succeeded[c := Successes(s, c) + {n.position}] else s.succeeded)
    case Commit(c) =>
      s.(committed := s.committed[s.sessions[c].partition := s.sessions[c].marked])
    case Crash(c) => s.(sessions := s.sessions - {c})
  }

  predicate IsRun(s: State, steps: seq<Step>)
    decreases |steps|
  {
    steps == [] || (Enabled(s, steps[0]) && IsRun(Apply(s, steps[0]), steps[1..]))
  }

  function Run(s: State, steps: seq<Step>): State
    requires IsRun(s, steps)
    decreases |steps|
  {
    if steps == [] then s else Run(Apply(s, steps[0]), steps[1..])
  }

  /** Empty topic of n partitions, nobody consuming, any tables. */
  ghost predicate Init(s: State) {
    && (forall p :: 0 <= p < |s.logs| ==> s.logs[p] == [])
    && |s.committed| == |s.logs| && (forall p :: 0 <= p < |s.committed| ==> s.committed[p] == 0)
    && s.sessions == map[] && s.deliveries == []
    && s.attempted == {} && s.recorded == {} && s.failed == {} && s.joinedAt == map[] && s.succeeded == map[]
    && (forall t :: t !in s.db.playCount ==> Plays(s.db.plays, t) == 0)
  }

  // ---------------------------------------------------------------- one fetch

  /** The database after the records of a fetch have been handled one after the other. */
  function DbAfter(db: Db, records: seq<Record>, faults: seq<Faults>): Db
    requires |faults| == |records|
  {
    if records == [] then db else
      var n := |records| - 1;
      Handle(DbAfter(db, records[..n], faults[..n]), records[n], faults[n]).0
  }

  /** Whether the handler returned nil for record i of the fetch. */
  predicate Succeeds(db: Db, records: seq<Record>, faults: seq<Faults>, i: nat)
    requires |faults| == |records| && i < |records|
  {
    Handle(DbAfter(db, records[..i], faults[..i]), records[i], faults[i]).1
  }

  /** Some record of the fetch from the j-th on succeeds. */
  ghost predicate SucceedsFrom(db: Db, records: seq<Record>, faults: seq<Faults>, j: nat)
    requires |faults| == |records|
  {
    exists i :: j <= i < |records| && Succeeds(db, records, faults, i)
  }

  /** After a fetch the highest mark covers record j iff it did so before, or j or a later record succeeded. */
  ghost predicate MarksSuccesses(db: Db, records: seq<Record>, faults: seq<Faults>,
                                 offset: nat, before: nat, marked: nat)
    requires |faults| == |records|
  {
    forall j: nat :: j < |records| ==>
      (offset + j < marked <==> offset + j < before || SucceedsFrom(db, records, faults, j))
  }

  lemma NothingMarked(db: Db, offset: nat, marked: nat)
    ensures MarksSuccesses(db, [], [], offset, marked, marked) && DbAfter(db, [], []) == db
  {
  }

  lemma LastHandled(db: Db, records: seq<Record>, faults: seq<Faults>)
    requires |faults| == |records| && records != []
    ensures var n := |records| - 1;
            Handle(DbAfter(db, records[..n], faults[..n]), records[n], faults[n])
            == (DbAfter(db, records, faults), Succeeds(db, records, faults, n))
  {
  }

  lemma SucceedsInPrefix(db: Db, records: seq<Record>, faults: seq<Faults>, i: nat)
    requires |faults| == |records| && i < |records|
    ensures Succeeds(db, records[..i + 1], faults[..i + 1], i) == Succeeds(db, records, faults, i)
  {
    assert records[..i + 1][..i] == records[..i] && faults[..i + 1][..i] == faults[..i];
  }

  /** One record more in the fetch. */
  lemma MarksOneMore(db: Db, records: seq<Record>, faults: seq<Faults>, k: nat, offset: nat, before: nat, marked: nat)
    requires |faults| == |records| && k < |records|
    requires MarksSuccesses(db, records[..k], faults[..k], offset, before, marked)
    requires before <= marked && (marked <= before || marked <= offset + k)
    ensures var covers := Succeeds(db, records, faults, k) && marked < offset + k + 1;
            var marked' := if covers then offset + k + 1 else marked;
            MarksSuccesses(db, records[..k + 1], faults[..k + 1], offset, before, marked')
  {
    var rs, fs := records[..k + 1], faults[..k + 1];
    assert Succeeds(db, rs, fs, k) == Succeeds(db, records, faults, k) by {
      assert rs[..k] == records[..k] && fs[..k] == faults[..k];
    }
    forall i: nat | i < k ensures Succeeds(db, records[..k], faults[..k], i) == Succeeds(db, rs, fs, i) {
      assert records[..k][..i] == rs[..i] && faults[..k][..i] == fs[..i];
    }
    forall j: nat | j < k
      ensures SucceedsFrom(db, rs, fs, j) <==> SucceedsFrom(db, records[..k], faults[..k], j) || Succeeds(db, rs, fs, k)
    {
      if i :| j <= i < k && Succeeds(db, records[..k], faults[..k], i) {
        assert Succeeds(db, rs, fs, i);
      }
    }
    assert SucceedsFrom(db, rs, fs, k) <==> Succeeds(db, rs, fs, k);
  }

  // ---------------------------------------------------------------- the consumer loop as a program

  class Client {
    const worker: AnalyticsWorker
    var marked: nat

    constructor (worker: AnalyticsWorker, marked: nat)
      ensures this.worker == worker && this.marked == marked
    {
      this.worker := worker;
      this.marked := marked;
    }

    method MarkCommitRecords(offset: nat)
      modifies this
      ensures marked == if old(marked) < offset + 1 then offset + 1 else old(marked)
    {
      if marked < offset + 1 {
        marked := offset + 1;
      }
    }

    /**
     * The body of Consume's loop for one fetch of a partition: handle each record, mark it unless the
     * handler failed. Undisturbed, it takes session c of the system through Start, Finish and Mark.
     */
    method EachRecord(records: seq<Record>, offset: nat, faults: seq<Faults>, c: nat, ghost before: State)
      returns (ghost steps: seq<Step>)
      requires |faults| == |records|
      requires c in before.sessions && before.db == worker.db
      requires before.sessions[c].marked == marked && before.sessions[c].position == offset
      requires before.sessions[c].phase.Polling? && before.sessions[c].partition < |before.logs|
      requires offset + |records| <= |before.logs[before.sessions[c].partition]|
      requires before.logs[before.sessions[c].partition][offset..offset + |records|] == records
      modifies this, worker
      ensures IsRun(before, steps)
      ensures var after := Run(before, steps);
              && after.db == worker.db
              && c in after.sessions && after.sessions == before.sessions[c := after.sessions[c]]
              && after.sessions[c] == Session(before.sessions[c].partition, offset + |records|, marked, Polling)
              && after.logs == before.logs && after.committed == before.committed
      ensures old(marked) <= marked
      ensures worker.db == DbAfter(before.db, records, faults)
      ensures MarksSuccesses(before.db, records, faults, offset, old(marked), marked)
    {
      hide DbAfter, MarksSuccesses, Succeeds, Apply, Enabled, Handle;
      NothingMarked(before.db, offset, marked);
      steps := [];
      ghost var p := before.sessions[c].partition;
      for i := 0 to |records|
        invariant IsRun(before, steps)
        invariant var now := Run(before, steps);
                  && now.db == worker.db && c in now.sessions && now.sessions == before.sessions[c := now.sessions[c]]
                  && now.sessions[c] == Session(p, offset + i, marked, Polling)
                  && now.logs == before.logs && now.committed == before.committed
        invariant old(marked) <= marked && (marked <= old(marked) || marked <= offset + i)
        invariant worker.db == DbAfter(before.db, records[..i], faults[..i])
        invariant MarksSuccesses(before.db, records[..i], faults[..i], offset, old(marked), marked)
      {
        MarksOneMore(before.db, records, faults, i, offset, old(marked), marked);
        LastHandled(before.db, records[..i + 1], faults[..i + 1]);
        assert records[..i + 1][..i] == records[..i] && faults[..i + 1][..i] == faults[..i];
        SucceedsInPrefix(before.db, records, faults, i);
        assert before.logs[p][offset + i] == before.logs[p][offset..offset + |records|][i];
        ghost var now := Run(before, steps);
        ghost var three := HandleOne(now, c, faults[i]);
        var ok := worker.HandleRecord(records[i], faults[i]);
        if ok {
          MarkCommitRecords(offset + i);
        }
        Joined(before, steps, three);
        steps := steps + three;
      }
      assert records[..|records|] == records && faults[..|faults|] == faults;
    }
  }

  /** Start, Finish and Mark of one record. */
  lemma HandleOne(s: State, c: nat, f: Faults) returns (steps: seq<Step>)
    requires c in s.sessions && s.sessions[c].phase.Polling? && InLog(s, Current(s, c))
    ensures IsRun(s, steps)
    ensures var n := s.sessions[c];
            var (db, ok) := Handle(s.db, s.logs[n.partition][n.position], f);
            var s' := Run(s, steps);
            && s'.db == db && s'.logs == s.logs && s'.committed == s.committed
            && s'.sessions == s.sessions[c := Session(n.partition, n.position + 1,
                 if ok && n.marked < n.position + 1 then n.position + 1 else n.marked, Polling)]
  {
    steps := [Start(c), Finish(c, f), Mark(c)];
    var s1 := Apply(s, steps[0]);
    var s2 := Apply(s1, steps[1]);
    var s3 := Apply(s2, steps[2]);
    assert steps[1..] == [Finish(c, f), Mark(c)] && steps[1..][1..] == [Mark(c)] && steps[1..][1..][1..] == [];
    assert IsRun(s3, []) && Run(s3, []) == s3;
    assert IsRun(s2, [Mark(c)]) && Run(s2, [Mark(c)]) == s3;
    assert IsRun(s1, steps[1..]) && Run(s1, steps[1..]) == s3;
  }

  lemma {:induction false} Joined(s: State, first: seq<Step>, second: seq<Step>)
    requires IsRun(s, first) && IsRun(Run(s, first), second)
    ensures IsRun(s, first + second) && Run(s, first + second) == Run(Run(s, first), second)
    decreases |first|
  {
    if first == [] {
      assert first + second == second;
    } else {
      assert (first + second)[1..] == first[1..] + second;
      Joined(Apply(s, first[0]), first[1..], second);
    }
  }
}
