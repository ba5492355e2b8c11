/** The tracks of one playlist: the table, its three handlers, and the cursor query. */
module Playlist {

  /** A row of playlist_tracks. Times are in the database's microseconds. */
  datatype Row = Row(track: string, position: int, addedAt: int)

  datatype Bound = Anything | LaterThan(time: int)

  datatype Page = Page(items: seq<Row>, nextCursor: string, hasMore: bool)

  const PAGE_LIMIT := 50

  // ---------------------------------------------------------------- the table

  /** ORDER BY position, added_at. */
  predicate NotAfter(a: Row, b: Row) {
    a.position < b.position || (a.position == b.position && a.addedAt <= b.addedAt)
  }

  ghost predicate InOrder(rows: seq<Row>) {
    forall i, j :: 0 <= i < j < |rows| ==> NotAfter(rows[i], rows[j])
  }

  /** The primary key. */
  ghost predicate UniqueTracks(rows: seq<Row>) {
    forall i, j :: 0 <= i < j < |rows| ==> rows[i].track != rows[j].track
  }

  /** Rows are held in query order; rows that tie in it are held in some fixed order. IDs are never empty. */
  ghost predicate IsTable(rows: seq<Row>) {
    InOrder(rows) && UniqueTracks(rows) && forall i :: 0 <= i < |rows| ==> rows[i].track != ""
  }

  predicate HasTrack(rows: seq<Row>, track: string) {
    exists i :: 0 <= i < |rows| && rows[i].track == track
  }

  /** The row goes after the last row it does not precede. */
  function InsertRow(rows: seq<Row>, r: Row): seq<Row> {
    if rows != [] && NotAfter(rows[0], r) then [rows[0]] + InsertRow(rows[1..], r) else [r] + rows
  }

  function DeleteTrack(rows: seq<Row>, track: string): seq<Row> {
    if rows == [] then []
    else (if rows[0].track == track then [] else [rows[0]]) + DeleteTrack(rows[1..], track)
  }

  /** INSERT with position 0 and added_at now, ON CONFLICT DO NOTHING. */
  function AfterAdd(rows: seq<Row>, track: string, now: int): seq<Row> {
    if HasTrack(rows, track) then rows else InsertRow(rows, Row(track, 0, now))
  }

  // ---------------------------------------------------------------- the query

  predicate Later(r: Row, bound: Bound) {
    bound.Anything? || r.addedAt > bound.time
  }

  /** WHERE added_at > bound, in order. */
  function After(rows: seq<Row>, bound: Bound): seq<Row> {
    if rows == [] then []
    else (if Later(rows[0], bound) then [rows[0]] else []) + After(rows[1..], bound)
  }

  /** added_at of the cursor's track; None stands for the subquery's NULL. */
  datatype Cursor = None | Some(bound: Bound)

  function CursorBound(rows: seq<Row>, after: string): Cursor {
    if after == "" then Some(Anything)
    else if rows == [] then None
    else if rows[0].track == after then Some(LaterThan(rows[0].addedAt))
    else CursorBound(rows[1..], after)
  }

  /** Comparing with NULL selects nothing. */
  function Matched(rows: seq<Row>, after: string): seq<Row> {
    match CursorBound(rows, after)
    case None => []
    case Some(bound) => After(rows, bound)
  }

  function PageOf(m: seq<Row>, limit: nat): Page
    requires limit > 0
  {
    if |m| > limit then Page(m[..limit], m[limit - 1].track, true) else Page(m, "", false)
  }

  /** The rows a request is about: all, or those added later than the cursor's row, if that is there. */
  ghost predicate Selected(rows: seq<Row>, after: string, x: Row) {
    x in rows && (after == "" || exists r :: r in rows && r.track == after && x.addedAt > r.addedAt)
  }

  /** By position, then by time. */
  ghost predicate Before(a: Row, b: Row) {
    a.position < b.position || (a.position == b.position && a.addedAt <= b.addedAt)
  }

  /** A page: the first rows selected, in order, at most as many as the limit, and whether there are more. */
  ghost predicate IsPage(page: Page, rows: seq<Row>, after: string, limit: nat) {
    && |page.items| <= limit
    && (forall i, j :: 0 <= i < j < |page.items| ==>
          Before(page.items[i], page.items[j]) && page.items[i] != page.items[j])
    && (forall x :: x in page.items ==> Selected(rows, after, x))
    && (forall x, y :: Selected(rows, after, x) && x !in page.items && y in page.items ==> Before(y, x))
    && (page.hasMore <==> exists x :: Selected(rows, after, x) && x !in page.items)
    && (if page.hasMore then |page.items| == limit && limit > 0 && page.nextCursor == page.items[limit - 1].track
        else page.nextCursor == "")
  }

  // ---------------------------------------------------------------- the program

  class PlaylistTracks {
    var rows: seq<Row>

    ghost predicate Valid()
      reads this
    {
      IsTable(rows)
    }

    constructor ()
      ensures Valid() && rows == []
    {
      rows := [];
    }

    /** The SQL query, LIMIT included. */
    method Query(after: string, count: nat) returns (r: seq<Row>)
      ensures r == if |Matched(rows, after)| > count then Matched(rows, after)[..count] else Matched(rows, after)
    {
      var m := Matched(rows, after);
      r := if |m| > count then m[..count] else m;
    }

    /** The loop that scans the query's rows. */
    method Scan(after: string, count: nat) returns (items: seq<Row>)
      ensures items == if |Matched(rows, after)| > count then Matched(rows, after)[..count] else Matched(rows, after)
    {
      hide Matched;
      var dbRows := Query(after, count);
      items := [];
      for i := 0 to |dbRows|
        invariant items == dbRows[..i]
      {
        items := items + [dbRows[i]];
      }
      assert items == dbRows;
    }

    method ListTracks(after: string) returns (page: Page)
      requires Valid()
      ensures page == PageOf(Matched(rows, after), PAGE_LIMIT)
      ensures IsPage(page, rows, after, 50)
    {
      PageIs(rows, after, 50);
      hide Matched, IsPage, IsTable, Selected;
      var limit := PAGE_LIMIT;
      var items := Scan(after, limit + 1);
      OneRowMore(Matched(rows, after), limit, items);
      var hasMore := |items| > limit;
      if hasMore {
        items := items[..limit];
      }
      var nextCursor := "";
      if hasMore && |items| > 0 {
        nextCursor := items[|items| - 1].track;
      }
      page := Page(items, nextCursor, hasMore);
    }

    method AddTrack(track: string, now: int)
      requires Valid() && track != ""
      modifies this
      ensures Valid() && rows == AfterAdd(old(rows), track, now)
      ensures HasTrack(old(rows), track) ==> rows == old(rows)
      ensures !HasTrack(old(rows), track) ==> forall x :: x in rows <==> x in old(rows) || x == Row(track, 0, now)
    {
      forall x ensures x in InsertRow(rows, Row(track, 0, now)) <==> x in rows || x == Row(track, 0, now) {
        InsertHas(rows, Row(track, 0, now), x);
      }
      if !HasTrack(rows, track) {
        InsertKeepsTable(rows, Row(track, 0, now));
        rows := InsertRow(rows, Row(track, 0, now));
      }
    }

    method RemoveTrack(track: string)
      requires Valid()
      modifies this
      ensures Valid() && rows == DeleteTrack(old(rows), track)
      ensures forall x :: x in rows <==> x in old(rows) && x.track != track
    {
      DeleteKeepsTable(rows, track);
      forall x ensures x in DeleteTrack(rows, track) <==> x in rows && x.track != track {
        DeleteHas(rows, track, x);
      }
      rows := DeleteTrack(rows, track);
    }
  }

  // ---------------------------------------------------------------- the table stays a table

  lemma {:induction false} InsertHas(rows: seq<Row>, r: Row, x: Row)
    ensures x in InsertRow(rows, r) <==> x in rows || x == r
  {
    if rows != [] && NotAfter(rows[0], r) {
      InsertHas(rows[1..], r, x);
    }
  }

  lemma {:induction false} InsertKeepsTable(rows: seq<Row>, r: Row)
    requires IsTable(rows) && !HasTrack(rows, r.track) && r.track != ""
    ensures IsTable(InsertRow(rows, r))
  {
    if rows != [] && NotAfter(rows[0], r) {
      var rest := InsertRow(rows[1..], r);
      InsertKeepsTable(rows[1..], r);
      forall k | 0 <= k < |rest| ensures NotAfter(rows[0], rest[k]) && rest[k].track != rows[0].track {
        InsertHas(rows[1..], r, rest[k]);
      }
    }
  }

  lemma {:induction false} DeleteHas(rows: seq<Row>, track: string, x: Row)
    ensures x in DeleteTrack(rows, track) <==> x in rows && x.track != track
  {
    if rows != [] {
      DeleteHas(rows[1..], track, x);
    }
  }

  lemma {:induction false} DeleteKeepsTable(rows: seq<Row>, track: string)
    requires IsTable(rows)
    ensures IsTable(DeleteTrack(rows, track))
  {
    if rows != [] {
      var rest := DeleteTrack(rows[1..], track);
      DeleteKeepsTable(rows[1..], track);
      forall k | 0 <= k < |rest| ensures NotAfter(rows[0], rest[k]) && rest[k].track != rows[0].track {
        DeleteHas(rows[1..], track, rest[k]);
      }
    }
  }

  // ---------------------------------------------------------------- what the query selects

  lemma {:induction false} AfterHas(rows: seq<Row>, bound: Bound, x: Row)
    ensures x in After(rows, bound) <==> x in rows && Later(x, bound)
  {
    if rows != [] {
      AfterHas(rows[1..], bound, x);
    }
  }

  lemma {:induction false} AfterAnything(rows: seq<Row>)
    ensures After(rows, Anything) == rows
  {
    if rows != [] {
      AfterAnything(rows[1..]);
    }
  }

  lemma {:induction false} AfterKeepsTable(rows: seq<Row>, bound: Bound)
    requires IsTable(rows)
    ensures IsTable(After(rows, bound))
  {
    if rows != [] {
      var rest := After(rows[1..], bound);
      AfterKeepsTable(rows[1..], bound);
      forall x | x in rest ensures x in rows[1..] {
        AfterHas(rows[1..], bound, x);
      }
      assert After(rows, bound) == (if Later(rows[0], bound) then [rows[0]] else []) + rest;
      hide After, Later;
      FirstKeepsTable(rows, rest);
    }
  }

  lemma FirstKeepsTable(rows: seq<Row>, rest: seq<Row>)
    requires IsTable(rows) && rows != [] && IsTable(rest) && forall x :: x in rest ==> x in rows[1..]
    ensures IsTable([rows[0]] + rest) && [] + rest == rest
  {
    hide NotAfter;
    forall x | x in rest ensures NotAfter(rows[0], x) && x.track != rows[0].track && x.track != "" {
      var i :| 0 <= i < |rows[1..]| && rows[1..][i] == x;
      assert rows[i + 1] == x;
    }
    assert forall k :: 0 <= k < |rest| ==> rest[k] in rest;
  }

  /** The query finds exactly the rows selected, in order. */
  lemma MatchedIs(rows: seq<Row>, after: string)
    requires IsTable(rows)
    ensures IsTable(Matched(rows, after))
    ensures forall x :: x in Matched(rows, after) <==> Selected(rows, after, x)
  {
    var bound := Anything;
    if after != "" && !HasTrack(rows, after) {
      CursorGone(rows, after);
    } else {
      if after != "" {
        var i :| 0 <= i < |rows| && rows[i].track == after;
        CursorBoundIs(rows, rows[i]);
        bound := LaterThan(rows[i].addedAt);
        assert forall r :: r in rows && r.track == after ==> r == rows[i];
      }
      AfterKeepsTable(rows, bound);
      forall x ensures x in After(rows, bound) <==> x in rows && Later(x, bound) {
        AfterHas(rows, bound, x);
      }
    }
  }

  /** What asking for one row more than the page holds shows. */
  lemma OneRowMore(m: seq<Row>, limit: nat, queried: seq<Row>)
    requires queried == if |m| > limit + 1 then m[..limit + 1] else m
    ensures |queried| > limit <==> |m| > limit
    ensures if |m| > limit then queried[..limit] == m[..limit] else queried == m
  {
  }

  lemma PageIs(rows: seq<Row>, after: string, limit: nat)
    requires IsTable(rows) && limit > 0
    ensures IsPage(PageOf(Matched(rows, after), limit), rows, after, limit)
  {
    MatchedIs(rows, after);
    hide Matched, Selected;
    var m := Matched(rows, after);
    var page := PageOf(m, limit);
    assert forall k :: 0 <= k < |page.items| ==> page.items[k] == m[k];
    forall x, y | x in m && x !in page.items && y in page.items ensures Before(y, x) {
      var i, j :| 0 <= i < |m| && m[i] == x && 0 <= j < |page.items| && page.items[j] == y;
      assert m[j] == y && NotAfter(m[j], m[i]);
    }
    if |m| > limit {
      assert m[limit] in m && m[limit] !in page.items;
    }
  }

  /** A stricter bound selects fewer rows, once it shuts out a row the weaker one lets in. */
  lemma {:induction false} AfterShrinks(rows: seq<Row>, bound: Bound, cursor: Row)
    requires Later(cursor, bound)
    ensures |After(rows, LaterThan(cursor.addedAt))| <= |After(rows, bound)|
    ensures cursor in rows ==> |After(rows, LaterThan(cursor.addedAt))| < |After(rows, bound)|
  {
    if rows != [] {
      AfterShrinks(rows[1..], bound, cursor);
    }
  }

  lemma {:induction false} CursorBoundIs(rows: seq<Row>, r: Row)
    requires UniqueTracks(rows) && r in rows && r.track != ""
    ensures CursorBound(rows, r.track) == Some(LaterThan(r.addedAt))
  {
    if rows[0] != r {
      CursorBoundIs(rows[1..], r);
    }
  }

  lemma {:induction false} CursorGone(rows: seq<Row>, after: string)
    requires after != "" && !HasTrack(rows, after)
    ensures CursorBound(rows, after) == None
  {
    if rows != [] {
      assert forall i :: 0 <= i < |rows[1..]| ==> rows[1..][i] == rows[i + 1];
      CursorGone(rows[1..], after);
    }
  }
}
