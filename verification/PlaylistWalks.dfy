/** Following next_cursor to the end, on a table at rest and on one that changes between pages. */
module PlaylistWalks {
  import opened Playlist

  // ---------------------------------------------------------------- a table at rest

  /** The items of all pages from the given bound on. It ends on every table. */
  function Walk(rows: seq<Row>, bound: Bound, limit: nat): seq<Row>
    requires limit > 0
    decreases |After(rows, bound)|
  {
    var m := After(rows, bound);
    if |m| <= limit then m else
      AfterHas(rows, bound, m[limit - 1]);
      AfterShrinks(rows, bound, m[limit - 1]);
      m[..limit] + Walk(rows, LaterThan(m[limit - 1].addedAt), limit)
  }

  /** A client that asks for pages until next_cursor is empty. */
  method FollowCursors(table: PlaylistTracks) returns (all: seq<Row>)
    requires table.Valid()
    ensures all == Walk(table.rows, Anything, 50)
  {
    hide IsPage;
    var page := table.ListTracks("");
    all := page.items;
    ghost var bound := Anything;
    while page.nextCursor != ""
      invariant page == PageOf(After(table.rows, bound), PAGE_LIMIT)
      invariant var next := CursorOf(table.rows, bound, PAGE_LIMIT);
                all + (if page.hasMore then Walk(table.rows, next, PAGE_LIMIT) else [])
                == Walk(table.rows, Anything, PAGE_LIMIT)
      decreases |After(table.rows, bound)|
    {
      NextCursorBound(table.rows, bound, PAGE_LIMIT);
      bound := CursorOf(table.rows, bound, PAGE_LIMIT);
      page := table.ListTracks(page.nextCursor);
      all := all + page.items;
    }
    assert !page.hasMore by {
      if page.hasMore {
        NextCursorBound(table.rows, bound, PAGE_LIMIT);
      }
    }
  }

  /** The bound the next page is read with, when there is one. */
  ghost function CursorOf(rows: seq<Row>, bound: Bound, limit: nat): Bound
    requires limit > 0
  {
    var m := After(rows, bound);
    if |m| > limit then LaterThan(m[limit - 1].addedAt) else bound
  }

  lemma NextCursorBound(rows: seq<Row>, bound: Bound, limit: nat)
    requires limit > 0 && IsTable(rows) && |After(rows, bound)| > limit
    ensures var page, next := PageOf(After(rows, bound), limit), CursorOf(rows, bound, limit);
            && page.nextCursor != ""
            && CursorBound(rows, page.nextCursor) == Some(next)
            && |After(rows, next)| < |After(rows, bound)|
  {
    var cursor := After(rows, bound)[limit - 1];
    AfterHas(rows, bound, cursor);
    AfterShrinks(rows, bound, cursor);
    CursorBoundIs(rows, cursor);
  }

  /** Row k-1 separates: exactly the rows from k on were added later. */
  ghost predicate Separates(rows: seq<Row>, k: nat)
    requires 0 < k <= |rows|
  {
    && (forall i :: 0 <= i < k ==> rows[i].addedAt <= rows[k - 1].addedAt)
    && (forall i :: k <= i < |rows| ==> rows[i].addedAt > rows[k - 1].addedAt)
  }

  /** Every row that ends a full page, with more to come, separates. */
  ghost predicate PageEndsSeparate(rows: seq<Row>, limit: nat, from: nat)
    requires limit > 0
  {
    forall n: nat :: 0 < from + n * limit < |rows| && n > 0 ==> Separates(rows, from + n * limit)
  }

  /** Row k-1 separates exactly when its time selects the suffix. */
  lemma SeparatesIff(rows: seq<Row>, k: nat)
    requires UniqueTracks(rows) && 0 < k < |rows|
    ensures Separates(rows, k) <==> After(rows, LaterThan(rows[k - 1].addedAt)) == rows[k..]
  {
    var bound := LaterThan(rows[k - 1].addedAt);
    if Separates(rows, k) {
      AfterSuffix(rows, bound, k);
    }
    if After(rows, bound) == rows[k..] {
      forall i | 0 <= i < |rows| ensures Later(rows[i], bound) <==> i >= k {
        AfterHas(rows, bound, rows[i]);
        InSuffix(rows, k, i);
      }
    }
  }

  lemma InSuffix(rows: seq<Row>, k: nat, i: nat)
    requires UniqueTracks(rows) && k <= |rows| && i < |rows|
    ensures rows[i] in rows[k..] <==> i >= k
  {
    assert forall j :: 0 <= j < |rows| - k ==> rows[k..][j] == rows[k + j];
    assert i >= k ==> rows[k..][i - k] == rows[i];
  }

  lemma {:induction false} AfterSuffix(rows: seq<Row>, bound: Bound, k: nat)
    requires k <= |rows|
    requires forall i :: 0 <= i < |rows| ==> (Later(rows[i], bound) <==> i >= k)
    ensures After(rows, bound) == rows[k..]
  {
    if rows != [] {
      assert forall i :: 0 <= i < |rows[1..]| ==> rows[1..][i] == rows[i + 1];
      AfterSuffix(rows[1..], bound, if k == 0 then 0 else k - 1);
    }
  }

  /** The first row selected is the first row added later than the bound. */
  lemma {:induction false} AfterFirst(rows: seq<Row>, bound: Bound, k: nat)
    requires UniqueTracks(rows) && k < |rows|
    requires After(rows, bound) != [] && After(rows, bound)[0] == rows[k]
    ensures forall i :: 0 <= i < k ==> !Later(rows[i], bound)
  {
    if k > 0 {
      assert rows[0].track != rows[k].track;
      assert !Later(rows[0], bound);
      assert rows[1..][k - 1] == rows[k];
      AfterFirst(rows[1..], bound, k - 1);
      assert forall i :: 0 < i < k ==> rows[i] == rows[1..][i - 1];
    }
  }

  lemma {:induction false} WalkSelects(rows: seq<Row>, bound: Bound, limit: nat, x: Row)
    requires limit > 0 && x in Walk(rows, bound, limit)
    ensures x in After(rows, bound)
    decreases |After(rows, bound)|
  {
    var m := After(rows, bound);
    if |m| > limit && x !in m[..limit] {
      var cursor := m[limit - 1];
      AfterHas(rows, bound, cursor);
      AfterShrinks(rows, bound, cursor);
      WalkSelects(rows, LaterThan(cursor.addedAt), limit, x);
      AfterHas(rows, LaterThan(cursor.addedAt), x);
      AfterHas(rows, bound, x);
    }
  }

  /** From a page boundary k: the walk yields the rest of the table iff the later page ends all separate. */
  lemma {:induction false} WalkFrom(rows: seq<Row>, bound: Bound, limit: nat, k: nat)
    requires limit > 0 && UniqueTracks(rows) && k <= |rows| && After(rows, bound) == rows[k..]
    ensures Walk(rows, bound, limit) == rows[k..] <==> PageEndsSeparate(rows, limit, k)
    decreases |rows| - k
  {
    hide Walk, After, Separates, PageEndsSeparate;
    if |rows| - k <= limit {
      LastPage(rows, bound, limit, k);
    } else {
      var next := k + limit;
      var t := LaterThan(rows[next - 1].addedAt);
      WalkStep(rows, bound, limit, k);
      SeparatesIff(rows, next);
      PageEndsStep(rows, limit, k);
      if Walk(rows, t, limit) == rows[next..] {
        WalkSeparates(rows, limit, next);
      }
      if Separates(rows, next) {
        WalkFrom(rows, t, limit, next);
      }
    }
  }

  lemma WalkStep(rows: seq<Row>, bound: Bound, limit: nat, k: nat)
    requires limit > 0 && k + limit < |rows| && After(rows, bound) == rows[k..]
    ensures Walk(rows, bound, limit) == rows[k..] <==>
            Walk(rows, LaterThan(rows[k + limit - 1].addedAt), limit) == rows[k + limit..]
  {
    var rest := Walk(rows, LaterThan(rows[k + limit - 1].addedAt), limit);
    assert rows[k..][limit - 1] == rows[k + limit - 1];
    assert Walk(rows, bound, limit) == rows[k..][..limit] + rest;
    hide Walk, After;
    assert rows[k + limit..] == rows[k..][limit..];
    SameHead(rows[k..], limit, rest);
  }

  lemma SameHead(s: seq<Row>, limit: nat, rest: seq<Row>)
    requires limit <= |s|
    ensures s[..limit] + rest == s <==> rest == s[limit..]
  {
    assert (s[..limit] + rest)[limit..] == rest;
    assert s[..limit] + s[limit..] == s;
  }

  lemma LastPage(rows: seq<Row>, bound: Bound, limit: nat, k: nat)
    requires limit > 0 && k <= |rows| <= k + limit && After(rows, bound) == rows[k..]
    ensures Walk(rows, bound, limit) == rows[k..] && PageEndsSeparate(rows, limit, k)
  {
    forall n: nat | n > 0 ensures k + n * limit >= |rows| {
      assert n * limit == limit + (n - 1) * limit && (n - 1) * limit >= 0;
    }
  }

  /** If the walk goes on correctly after row k-1, that row separates. */
  lemma WalkSeparates(rows: seq<Row>, limit: nat, k: nat)
    requires limit > 0 && UniqueTracks(rows) && 0 < k < |rows|
    requires Walk(rows, LaterThan(rows[k - 1].addedAt), limit) == rows[k..]
    ensures Separates(rows, k)
  {
    var t := LaterThan(rows[k - 1].addedAt);
    forall i | k <= i < |rows| ensures Later(rows[i], t) {
      assert rows[k..][i - k] == rows[i];
      WalkSelects(rows, t, limit, rows[i]);
      AfterHas(rows, t, rows[i]);
    }
    assert Walk(rows, t, limit)[0] == After(rows, t)[0];
    AfterFirst(rows, t, k);
  }

  lemma PageEndsStep(rows: seq<Row>, limit: nat, k: nat)
    requires limit > 0 && k + limit < |rows|
    ensures PageEndsSeparate(rows, limit, k) <==> Separates(rows, k + limit) && PageEndsSeparate(rows, limit, k + limit)
  {
    if PageEndsSeparate(rows, limit, k) {
      assert k + 1 * limit == k + limit;
      forall n: nat | 0 < k + limit + n * limit < |rows| && n > 0 ensures Separates(rows, k + limit + n * limit) {
        assert k + (n + 1) * limit == k + limit + n * limit;
      }
    }
    if Separates(rows, k + limit) && PageEndsSeparate(rows, limit, k + limit) {
      forall n: nat | 0 < k + n * limit < |rows| && n > 0 ensures Separates(rows, k + n * limit) {
        assert k + limit + (n - 1) * limit == k + n * limit;
      }
    }
  }

  /** Following cursors returns every row exactly once and in order, exactly when every page end separates by time. */
  lemma WalkExactIff(rows: seq<Row>, limit: nat)
    requires limit > 0 && IsTable(rows)
    ensures Walk(rows, Anything, limit) == rows <==> PageEndsSeparate(rows, limit, 0)
  {
    AfterAnything(rows);
    assert rows[0..] == rows;
    WalkFrom(rows, Anything, limit, 0);
  }

  ghost predicate StrictTimes(rows: seq<Row>) {
    forall i, j :: 0 <= i < j < |rows| ==> rows[i].addedAt < rows[j].addedAt
  }

  /** In particular when times rise strictly along the sort order. */
  lemma WalkExact(rows: seq<Row>, limit: nat)
    requires limit > 0 && IsTable(rows) && StrictTimes(rows)
    ensures Walk(rows, Anything, limit) == rows
  {
    WalkExactIff(rows, limit);
  }

  /** Rows inserted by one statement share their time: of more than a page, only the first page is ever returned. */
  lemma EqualTimesTruncate(rows: seq<Row>, limit: nat, time: int)
    requires limit > 0 && |rows| > limit && forall i :: 0 <= i < |rows| ==> rows[i].addedAt == time
    ensures Walk(rows, Anything, limit) == rows[..limit]
  {
    AfterAnything(rows);
    AfterSuffix(rows, LaterThan(time), |rows|);
    assert rows[|rows|..] == [];
  }

  /**
   * A playlist that was given positions from 1 on, as the seed data is, and then gets a track through AddTrack: the new
   * row comes first in order and last in time, so once there is a second page the walk returns it again.
   */
  lemma AddToPositionedRepeats(rows: seq<Row>, limit: nat, track: string, now: int)
    requires IsTable(rows) && StrictTimes(rows) && !HasTrack(rows, track) && track != ""
    requires forall i :: 0 <= i < |rows| ==> rows[i].position >= 1 && rows[i].addedAt < now
    requires 2 <= limit <= |rows|
    ensures multiset(Walk(AfterAdd(rows, track, now), Anything, limit))[Row(track, 0, now)] >= 2
  {
    var r, rows' := Row(track, 0, now), AfterAdd(rows, track, now);
    assert rows' == [r] + rows;
    AfterAnything(rows');
    var bound := LaterThan(rows'[limit - 1].addedAt);
    assert rows'[limit - 1] == rows[limit - 2];
    var first, second := rows'[..limit], Walk(rows', bound, limit);
    assert Walk(rows', Anything, limit) == first + second;
    assert After(rows', bound)[0] == r && second[0] == r && first[0] == r;
    assert r in multiset(first) && r in multiset(second);
  }

  // ---------------------------------------------------------------- a table that changes between pages

  datatype Edit = Add(track: string, now: int) | Remove(track: string)

  function ApplyEdit(rows: seq<Row>, e: Edit): seq<Row> {
    match e
    case Add(track, now) => AfterAdd(rows, track, now)
    case Remove(track) => DeleteTrack(rows, track)
  }

  function ApplyEdits(rows: seq<Row>, es: seq<Edit>): seq<Row>
    decreases |es|
  {
    if es == [] then rows else ApplyEdits(ApplyEdit(rows, es[0]), es[1..])
  }

  /** The items a client collects, page by page, when batch i of edits is applied after its page i. */
  function Crawl(rows: seq<Row>, after: string, limit: nat, batches: seq<seq<Edit>>): seq<Row>
    requires limit > 0
    decreases |batches|
  {
    var page := PageOf(Matched(rows, after), limit);
    if !page.hasMore || batches == [] then page.items
    else page.items + Crawl(ApplyEdits(rows, batches[0]), page.nextCursor, limit, batches[1..])
  }

  /** The client saw a page with no next cursor. */
  predicate Finished(rows: seq<Row>, after: string, limit: nat, batches: seq<seq<Edit>>)
    requires limit > 0
    decreases |batches|
  {
    var page := PageOf(Matched(rows, after), limit);
    !page.hasMore || (batches != [] && Finished(ApplyEdits(rows, batches[0]), page.nextCursor, limit, batches[1..]))
  }

  /** No batch removes the track that is the cursor when the batch is applied. */
  predicate CursorsKept(rows: seq<Row>, after: string, limit: nat, batches: seq<seq<Edit>>)
    requires limit > 0
    decreases |batches|
  {
    var page := PageOf(Matched(rows, after), limit);
    !page.hasMore || batches == [] ||
    (Remove(page.nextCursor) !in batches[0]
     && CursorsKept(ApplyEdits(rows, batches[0]), page.nextCursor, limit, batches[1..]))
  }

  /** A new row's time is no other row's at that moment; it may be earlier than some. */
  ghost predicate DistinctTimes(rows: seq<Row>, es: seq<Edit>)
    decreases |es|
  {
    es == [] || ((es[0].Add? ==> es[0].track != "" && (HasTrack(rows, es[0].track) || NoRowAt(rows, es[0].now)))
                 && DistinctTimes(ApplyEdit(rows, es[0]), es[1..]))
  }

  ghost predicate NoRowAt(rows: seq<Row>, time: int) {
    forall i :: 0 <= i < |rows| ==> rows[i].addedAt != time
  }

  ghost predicate AllDistinct(rows: seq<Row>, batches: seq<seq<Edit>>)
    decreases |batches|
  {
    batches == [] || (DistinctTimes(rows, batches[0]) && AllDistinct(ApplyEdits(rows, batches[0]), batches[1..]))
  }

  /** A playlist filled by AddTrack alone, at distinct times. */
  ghost predicate Filled(rows: seq<Row>) {
    IsTable(rows) && StrictTimes(rows) && forall i :: 0 <= i < |rows| ==> rows[i].position == 0
  }

  lemma AddKeepsFilled(rows: seq<Row>, track: string, now: int)
    requires Filled(rows) && track != "" && (HasTrack(rows, track) || NoRowAt(rows, now))
    ensures Filled(AfterAdd(rows, track, now)) && forall x :: x in rows ==> x in AfterAdd(rows, track, now)
  {
    if !HasTrack(rows, track) {
      var r := Row(track, 0, now);
      var rows' := InsertRow(rows, r);
      InsertKeepsTable(rows, r);
      forall x ensures x in rows' <==> x in rows || x == r {
        InsertHas(rows, r, x);
      }
      forall i, j | 0 <= i < j < |rows'| ensures rows'[i].addedAt < rows'[j].addedAt {
        TimesDiffer(rows, r, rows'[i], rows'[j]);
        assert NotAfter(rows'[i], rows'[j]);
        assert rows'[i] in rows' && rows'[j] in rows';
      }
      assert forall i :: 0 <= i < |rows'| ==> rows'[i] in rows';
    }
  }

  /** Rows of a table with the new one added, if they are of different tracks, are of different times. */
  lemma TimesDiffer(rows: seq<Row>, r: Row, x: Row, y: Row)
    requires StrictTimes(rows) && NoRowAt(rows, r.addedAt)
    requires (x in rows || x == r) && (y in rows || y == r) && x.track != y.track
    ensures x.addedAt != y.addedAt
  {
  }

  lemma {:induction false} RemoveKeepsFilled(rows: seq<Row>, track: string)
    requires Filled(rows)
    ensures Filled(DeleteTrack(rows, track))
  {
    DeleteKeepsTable(rows, track);
    if rows != [] {
      var rest := DeleteTrack(rows[1..], track);
      RemoveKeepsFilled(rows[1..], track);
      forall k | 0 <= k < |rest| ensures rest[k].addedAt > rows[0].addedAt {
        DeleteHas(rows[1..], track, rest[k]);
      }
    }
  }

  lemma EditKeepsFilled(rows: seq<Row>, e: Edit)
    requires Filled(rows) && DistinctTimes(rows, [e])
    ensures Filled(ApplyEdit(rows, e))
    ensures forall x :: x in rows && e != Remove(x.track) ==> x in ApplyEdit(rows, e)
  {
    match e
    case Add(track, now) =>
      AddKeepsFilled(rows, track, now);
    case Remove(track) =>
      RemoveKeepsFilled(rows, track);
      forall x | x in rows && x.track != track ensures x in DeleteTrack(rows, track) {
        DeleteHas(rows, track, x);
      }
  }

  lemma {:induction false} EditsKeepFilled(rows: seq<Row>, es: seq<Edit>)
    requires Filled(rows) && DistinctTimes(rows, es)
    ensures Filled(ApplyEdits(rows, es))
    ensures forall x :: x in rows && Remove(x.track) !in es ==> x in ApplyEdits(rows, es)
    decreases |es|
  {
    hide Filled, ApplyEdit, HasTrack, NoRowAt;
    if es != [] {
      EditKeepsFilled(rows, es[0]);
      EditsKeepFilled(ApplyEdit(rows, es[0]), es[1..]);
    }
  }

  /** A playlist that starts empty and is only edited through the handlers, no two rows at one time, is filled so. */
  lemma EditedPlaylistIsFilled(es: seq<Edit>)
    requires DistinctTimes([], es)
    ensures Filled(ApplyEdits([], es))
  {
    EditsKeepFilled([], es);
  }

  lemma {:induction false} AfterStrict(rows: seq<Row>, bound: Bound)
    requires StrictTimes(rows)
    ensures StrictTimes(After(rows, bound))
  {
    if rows != [] {
      var rest := After(rows[1..], bound);
      AfterStrict(rows[1..], bound);
      forall k | 0 <= k < |rest| ensures rest[k].addedAt > rows[0].addedAt {
        AfterHas(rows[1..], bound, rest[k]);
        assert rest[k] in rows[1..];
      }
      assert After(rows, bound) == (if Later(rows[0], bound) then [rows[0]] else []) + rest;
    }
  }

  ghost predicate NeverRemoved(r: Row, batches: seq<seq<Edit>>) {
    forall i :: 0 <= i < |batches| ==> Remove(r.track) !in batches[i]
  }

  lemma {:induction false} CrawlFrom(rows: seq<Row>, after: string, bound: Bound, limit: nat, batches: seq<seq<Edit>>)
    requires limit > 0 && Filled(rows) && AllDistinct(rows, batches)
    requires CursorBound(rows, after) == Some(bound) && CursorsKept(rows, after, limit, batches)
    ensures StrictTimes(Crawl(rows, after, limit, batches))
    ensures forall x :: x in Crawl(rows, after, limit, batches) ==> Later(x, bound)
    ensures Finished(rows, after, limit, batches) ==>
              forall x :: x in rows && Later(x, bound) && NeverRemoved(x, batches) ==>
                x in Crawl(rows, after, limit, batches)
    decreases |batches|
  {
    hide After, Filled, ApplyEdits, DistinctTimes, StrictTimes;
    var m := After(rows, bound);
    FilledMatches(rows, bound);
    if |m| > limit {
      assert m == m[..limit] + m[limit..];
      PageStrict(m, limit);
      if batches != [] {
        var cursor := m[limit - 1];
        var rows' := ApplyEdits(rows, batches[0]);
        assert cursor in rows;
        EditsKeepFilled(rows, batches[0]);
        FilledCursor(rows', cursor);
        CrawlFrom(rows', cursor.track, LaterThan(cursor.addedAt), limit, batches[1..]);
        CrawlJoins(m, limit, Crawl(rows', cursor.track, limit, batches[1..]));
        assert forall x :: NeverRemoved(x, batches) ==> NeverRemoved(x, batches[1..]) && Remove(x.track) !in batches[0];
      }
    }
  }

  lemma FilledMatches(rows: seq<Row>, bound: Bound)
    requires Filled(rows)
    ensures StrictTimes(After(rows, bound))
    ensures forall x :: x in After(rows, bound) <==> x in rows && Later(x, bound)
  {
    AfterStrict(rows, bound);
    forall x ensures x in After(rows, bound) <==> x in rows && Later(x, bound) {
      AfterHas(rows, bound, x);
    }
  }

  lemma FilledCursor(rows: seq<Row>, cursor: Row)
    requires Filled(rows) && cursor in rows
    ensures CursorBound(rows, cursor.track) == Some(LaterThan(cursor.addedAt))
  {
    CursorBoundIs(rows, cursor);
  }

  /** The first page of matched rows ends before all the others. */
  lemma PageStrict(m: seq<Row>, limit: nat)
    requires 0 < limit <= |m| && StrictTimes(m)
    ensures StrictTimes(m[..limit])
    ensures forall x :: x in m[limit..] ==> x.addedAt > m[limit - 1].addedAt
  {
  }

  /** A page and what comes after its last row, joined. */
  lemma CrawlJoins(m: seq<Row>, limit: nat, rest: seq<Row>)
    requires 0 < limit <= |m| && StrictTimes(m) && StrictTimes(rest)
    requires forall x :: x in rest ==> x.addedAt > m[limit - 1].addedAt
    ensures StrictTimes(m[..limit] + rest)
  {
    assert forall k :: 0 <= k < |rest| ==> rest[k] in rest;
  }

  lemma {:induction false} StrictOnce(rows: seq<Row>, x: Row)
    requires StrictTimes(rows)
    ensures multiset(rows)[x] == if x in rows then 1 else 0
  {
    if rows != [] {
      StrictOnce(rows[1..], x);
      assert rows == [rows[0]] + rows[1..];
    }
  }

  /**
   * Whatever is added at whatever unused times, and whatever is removed except the cursor of the moment: a client
   * that reaches the end has received every track present throughout exactly once, and all in order.
   */
  lemma CrawlExact(rows: seq<Row>, limit: nat, batches: seq<seq<Edit>>, x: Row)
    requires limit > 0 && Filled(rows) && AllDistinct(rows, batches)
    requires CursorsKept(rows, "", limit, batches) && Finished(rows, "", limit, batches)
    requires x in rows && NeverRemoved(x, batches)
    ensures StrictTimes(Crawl(rows, "", limit, batches))
    ensures multiset(Crawl(rows, "", limit, batches))[x] == 1
  {
    CrawlFrom(rows, "", Anything, limit, batches);
    StrictOnce(Crawl(rows, "", limit, batches), x);
  }

  // ---------------------------------------------------------------- what becomes of a cursor

  /** Removing the cursor's own track ends the walk: the next page is empty and says there is no more. */
  lemma RemovedCursorEndsWalk(rows: seq<Row>, cursor: string, limit: nat)
    requires limit > 0 && cursor != ""
    ensures PageOf(Matched(DeleteTrack(rows, cursor), cursor), limit) == Page([], "", false)
  {
    forall i | 0 <= i < |DeleteTrack(rows, cursor)| ensures DeleteTrack(rows, cursor)[i].track != cursor {
      DeleteHas(rows, cursor, DeleteTrack(rows, cursor)[i]);
    }
    CursorGone(DeleteTrack(rows, cursor), cursor);
  }

  /** The next query selects what is later than the cursor's row, as it was when its page was read. */
  ghost predicate CursorHolds(rows: seq<Row>, cursor: Row) {
    Matched(rows, cursor.track) == After(rows, LaterThan(cursor.addedAt))
  }

  ghost predicate NoneLater(rows: seq<Row>, time: int) {
    forall x :: x in rows ==> x.addedAt <= time
  }

  /** No row's time is past the earlier one of two and not past the other. */
  ghost predicate NoneBetween(rows: seq<Row>, s: int, t: int) {
    forall x :: x in rows ==> !(s < x.addedAt <= t) && !(t < x.addedAt <= s)
  }

  lemma {:induction false} AfterSame(rows: seq<Row>, s: int, t: int)
    requires NoneBetween(rows, s, t)
    ensures After(rows, LaterThan(s)) == After(rows, LaterThan(t))
  {
    if rows != [] {
      AfterSame(rows[1..], s, t);
    }
  }

  lemma AfterSameIff(rows: seq<Row>, s: int, t: int)
    ensures After(rows, LaterThan(s)) == After(rows, LaterThan(t)) <==> NoneBetween(rows, s, t)
  {
    if NoneBetween(rows, s, t) {
      AfterSame(rows, s, t);
    } else {
      var x :| x in rows && (s < x.addedAt <= t || t < x.addedAt <= s);
      AfterHas(rows, LaterThan(s), x);
      AfterHas(rows, LaterThan(t), x);
    }
  }

  lemma AfterNoneIff(rows: seq<Row>, time: int)
    ensures After(rows, LaterThan(time)) == [] <==> NoneLater(rows, time)
  {
    if NoneLater(rows, time) {
      if After(rows, LaterThan(time)) != [] {
        AfterHas(rows, LaterThan(time), After(rows, LaterThan(time))[0]);
      }
    } else {
      var x :| x in rows && x.addedAt > time;
      AfterHas(rows, LaterThan(time), x);
    }
  }

  /**
   * Whatever the table has become since the page was read. With the cursor's track gone the cursor holds exactly if
   * nothing later is left. With the track there, possibly removed and added again, it holds exactly if no row's
   * time lies between the one it had and the one it has.
   */
  lemma CursorHoldsIff(rows: seq<Row>, cursor: Row)
    requires IsTable(rows) && cursor.track != ""
    ensures !HasTrack(rows, cursor.track) ==> (CursorHolds(rows, cursor) <==> NoneLater(rows, cursor.addedAt))
    ensures forall r :: r in rows && r.track == cursor.track ==>
              (CursorHolds(rows, cursor) <==> NoneBetween(rows, r.addedAt, cursor.addedAt))
  {
    if !HasTrack(rows, cursor.track) {
      CursorGone(rows, cursor.track);
      AfterNoneIff(rows, cursor.addedAt);
    }
    forall r | r in rows && r.track == cursor.track
      ensures CursorHolds(rows, cursor) <==> NoneBetween(rows, r.addedAt, cursor.addedAt)
    {
      CursorBoundIs(rows, r);
      AfterSameIff(rows, r.addedAt, cursor.addedAt);
    }
  }

  /** Whenever the cursor's track is added again, it is after the time it had. */
  predicate ReaddedLater(cursor: Row, es: seq<Edit>) {
    forall e :: e in es && e.Add? && e.track == cursor.track ==> e.now > cursor.addedAt
  }

  lemma {:induction false} CursorAfterEdits(rows: seq<Row>, cursor: Row, es: seq<Edit>, x: Row)
    requires IsTable(rows) && ReaddedLater(cursor, es) && (forall e :: e in es && e.Add? ==> e.track != "")
    requires forall y :: y in rows && y.track == cursor.track ==> y == cursor || y.addedAt > cursor.addedAt
    requires x in ApplyEdits(rows, es) && x.track == cursor.track
    ensures x == cursor || x.addedAt > cursor.addedAt
    decreases |es|
  {
    if es != [] {
      var rows' := ApplyEdit(rows, es[0]);
      EditKeepsTable(rows, es[0]);
      forall y | y in rows' && y.track == cursor.track ensures y == cursor || y.addedAt > cursor.addedAt {
        EditHas(rows, es[0], y);
      }
      CursorAfterEdits(rows', cursor, es[1..], x);
    }
  }

  lemma EditKeepsTable(rows: seq<Row>, e: Edit)
    requires IsTable(rows) && (e.Add? ==> e.track != "")
    ensures IsTable(ApplyEdit(rows, e))
  {
    match e
    case Add(track, now) =>
      if !HasTrack(rows, track) {
        InsertKeepsTable(rows, Row(track, 0, now));
      }
    case Remove(track) => DeleteKeepsTable(rows, track);
  }

  lemma EditHas(rows: seq<Row>, e: Edit, y: Row)
    requires y in ApplyEdit(rows, e)
    ensures y in rows || (e.Add? && y == Row(e.track, 0, e.now))
  {
    match e
    case Add(track, now) => InsertHas(rows, Row(track, 0, now), y);
    case Remove(track) => DeleteHas(rows, track, y);
  }

  lemma {:induction false} EditsKeepTable(rows: seq<Row>, es: seq<Edit>)
    requires IsTable(rows) && forall e :: e in es && e.Add? ==> e.track != ""
    ensures IsTable(ApplyEdits(rows, es))
    decreases |es|
  {
    if es != [] {
      EditKeepsTable(rows, es[0]);
      EditsKeepTable(ApplyEdit(rows, es[0]), es[1..]);
    }
  }

  /**
   * After any edits between two pages, the cursor's own removal and later re-adding included: the cursor holds exactly
   * if its row is still there or nothing later is left.
   */
  lemma CursorSurvivesIff(rows: seq<Row>, cursor: Row, es: seq<Edit>)
    requires IsTable(rows) && cursor in rows && ReaddedLater(cursor, es)
    requires forall e :: e in es && e.Add? ==> e.track != ""
    ensures var rows' := ApplyEdits(rows, es);
            CursorHolds(rows', cursor) <==> cursor in rows' || NoneLater(rows', cursor.addedAt)
  {
    hide CursorHolds, ApplyEdits;
    var rows' := ApplyEdits(rows, es);
    EditsKeepTable(rows, es);
    CursorHoldsIff(rows', cursor);
    if HasTrack(rows', cursor.track) {
      var i :| 0 <= i < |rows'| && rows'[i].track == cursor.track;
      CursorAfterEdits(rows, cursor, es, rows'[i]);
    }
  }
}
