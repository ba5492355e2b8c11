/** The analytics worker's handler: one transaction that inserts a play event and bumps the track's counter. */
module Analytics {

  datatype PlayEvent = PlayEvent(track: string, source: string)

  /** A record of the topic: an event, or bytes that are not one. */
  datatype Record = Event(event: PlayEvent) | Garbage

  /** play_events, and play_count of every row of tracks. */
  datatype Db = Db(plays: seq<PlayEvent>, playCount: map<string, int>)

  datatype CommitOutcome = Committed | NotCommitted | CommittedButErrorReturned

  /** What the database connection does to one transaction. */
  datatype Faults = Faults(beginFails: bool, insertFails: bool, updateFails: bool, commit: CommitOutcome)

  /** Whether the transaction takes effect. The insert needs the track to exist (foreign key). */
  predicate TakesEffect(db: Db, ev: PlayEvent, f: Faults) {
    ev.track in db.playCount && !f.beginFails && !f.insertFails && !f.updateFails && !f.commit.NotCommitted?
  }

  function AfterPlay(db: Db, ev: PlayEvent): Db
    requires ev.track in db.playCount
  {
    Db(db.plays + [ev], db.playCount[ev.track := db.playCount[ev.track] + 1])
  }

  /** New database, and whether the handler returned nil. */
  function Handle(db: Db, r: Record, f: Faults): (Db, bool) {
    if r.Garbage? || !TakesEffect(db, r.event, f) then (db, false)
    else (AfterPlay(db, r.event), f.commit.Committed?)
  }

  class AnalyticsWorker {
    var db: Db

    constructor (db: Db)
      ensures this.db == db
    {
      this.db := db;
    }

    /** record: begin, insert, update, commit; a deferred rollback discards tx on every error path. */
    method Record(ev: PlayEvent, f: Faults) returns (ok: bool)
      modifies this
      ensures (db, ok) == Handle(old(db), Event(ev), f)
      ensures var takes := ev.track in old(db).playCount && !f.beginFails && !f.insertFails && !f.updateFails
                           && !f.commit.NotCommitted?;
              && ok == (takes && f.commit.Committed?)
              && db.plays == old(db).plays + (if takes then [ev] else [])
              && db.playCount.Keys == old(db).playCount.Keys
              && forall t :: t in db.playCount ==>
                   db.playCount[t] == old(db).playCount[t] + if takes && t == ev.track then 1 else 0
    {
      if f.beginFails {
        return false;
      }
      var tx := db;
      if f.insertFails || ev.track !in tx.playCount {
        return false;
      }
      tx := tx.(plays := tx.plays + [ev]);
      if f.updateFails {
        return false;
      }
      tx := tx.(playCount := tx.playCount[ev.track := tx.playCount[ev.track] + 1]);
      match f.commit
      case Committed =>
        db := tx;
        return true;
      case NotCommitted =>
        return false;
      case CommittedButErrorReturned =>
        db := tx;
        return false;
    }

    /** The handler passed to Consume: decode, then record. */
    method HandleRecord(r: Record, f: Faults) returns (ok: bool)
      modifies this
      ensures (db, ok) == Handle(old(db), r, f)
      ensures r.Garbage? ==> !ok && db == old(db)
      ensures ok ==> db.plays == old(db).plays + [r.event]
    {
      match r
      case Garbage =>
        ok := false;
      case Event(ev) =>
        ok := Record(ev, f);
    }
  }

  /** Number of play events of a track. */
  function Plays(plays: seq<PlayEvent>, track: string): nat {
    if plays == [] then 0
    else Plays(plays[..|plays| - 1], track) + if plays[|plays| - 1].track == track then 1 else 0
  }

  lemma PlaysAppend(plays: seq<PlayEvent>, ev: PlayEvent, track: string)
    ensures Plays(plays + [ev], track) == Plays(plays, track) + if ev.track == track then 1 else 0
  {
    assert (plays + [ev])[..|plays|] == plays;
  }

  /** play_count runs ahead of the play events by a constant per track. */
  lemma HandleConserves(db: Db, r: Record, f: Faults, track: string)
    requires track in db.playCount
    ensures var db' := Handle(db, r, f).0;
            && db'.playCount.Keys == db.playCount.Keys
            && db'.playCount[track] - Plays(db'.plays, track) == db.playCount[track] - Plays(db.plays, track)
  {
    if r.Event? {
      PlaysAppend(db.plays, r.event, track);
    }
  }
}
