/** The fan-out-on-write timeline store: posting pushes the tweet's ID onto every follower's timeline. */
module Timeline {

  datatype Tweet = Tweet(id: int, author: int, text: string, createdAt: int)

  const TIMELINE_CAP := 200

  datatype State = State(
    tweets: map<int, Tweet>,
    followers: map<int, seq<int>>,
    timelines: map<int, seq<int>>,
    nextID: int)

  const EMPTY := State(map[], map[], map[], 0)

  /** Reading an absent key of a Go map of slices gives the empty slice. */
  function At(m: map<int, seq<int>>, k: int): seq<int> {
    if k in m then m[k] else []
  }

  /** How often x occurs in s. */
  function Count(s: seq<int>, x: int): nat {
    multiset(s)[x]
  }

  function Take<T>(s: seq<T>, n: nat): seq<T> {
    if |s| > n then s[..n] else s
  }

  // ---------------------------------------------------------------- effect of each operation

  function AfterFollow(s: State, follower: int, followee: int): State {
    s.(followers := s.followers[followee := At(s.followers, followee) + [follower]])
  }

  /** One capped push per entry of the follower list, in list order. */
  function FanOut(timelines: map<int, seq<int>>, followers: seq<int>, id: int): map<int, seq<int>> {
    if followers == [] then timelines else
      var before := FanOut(timelines, followers[..|followers| - 1], id);
      var f := followers[|followers| - 1];
      before[f := Take([id] + At(before, f), TIMELINE_CAP)]
  }

  function AfterPost(s: State, author: int, text: string, now: int): State {
    var id := s.nextID + 1;
    State(s.tweets[id := Tweet(id, author, text, now)], s.followers,
          FanOut(s.timelines, At(s.followers, author), id), id)
  }

  /** The tweets with the given IDs, skipping IDs of no tweet. */
  function Existing(tweets: map<int, Tweet>, ids: seq<int>): seq<Tweet> {
    if ids == [] then [] else
      var last := ids[|ids| - 1];
      Existing(tweets, ids[..|ids| - 1]) + if last in tweets then [tweets[last]] else []
  }

  function View(s: State, user: int, limit: nat): seq<Tweet> {
    Existing(s.tweets, Take(At(s.timelines, user), limit))
  }

  // ---------------------------------------------------------------- the program

  class InMemoryStore {
    var tweets: map<int, Tweet>
    var followers: map<int, seq<int>>
    var timelines: map<int, seq<int>>
    var nextID: int

    function Contents(): State
      reads this
    {
      State(tweets, followers, timelines, nextID)
    }

    constructor ()
      ensures Contents() == EMPTY
    {
      tweets, followers, timelines, nextID := map[], map[], map[], 0;
    }

    /** One more edge, of this pair only; lists stay in order of following; nobody's timeline shows anything else. */
    method Follow(followerID: int, followeeID: int)
      modifies this`followers
      ensures forall user, author :: Count(At(followers, author), user)
                == Count(At(old(followers), author), user) + if user == followerID && author == followeeID then 1 else 0
      ensures forall author :: At(old(followers), author) <= At(followers, author)
      ensures forall user, limit: nat :: View(Contents(), user, limit) == View(old(Contents()), user, limit)
      ensures Contents() == AfterFollow(old(Contents()), followerID, followeeID)
    {
      followers := followers[followeeID := At(followers, followeeID) + [followerID]];
    }

    /** The tweet's ID comes first on every follower's timeline, which holds 200 at most. */
    method PostTweet(authorID: int, text: string, now: int) returns (t: Tweet)
      modifies this
      ensures t.id == old(nextID) + 1 && t.author == authorID && t.text == text && t.createdAt == now
      ensures tweets == old(tweets)[t.id := t] && followers == old(followers) && nextID == t.id
      ensures forall user :: user in At(followers, authorID) ==>
                At(timelines, user) != [] && At(timelines, user)[0] == t.id && |At(timelines, user)| <= 200
      ensures forall user :: user !in At(followers, authorID) ==> At(timelines, user) == At(old(timelines), user)
      ensures Contents() == AfterPost(old(Contents()), authorID, text, now)
      ensures t == Tweet(old(nextID) + 1, authorID, text, now)
    {
      nextID := nextID + 1;
      t := Tweet(nextID, authorID, text, now);
      tweets := tweets[t.id := t];
      var targets := At(followers, authorID);
      for i := 0 to |targets|
        invariant timelines == FanOut(old(timelines), targets[..i], t.id)
        invariant tweets == old(tweets)[t.id := t] && followers == old(followers) && nextID == old(nextID) + 1
      {
        assert targets[..i + 1][..i] == targets[..i];
        var pushed := Prepend(At(timelines, targets[i]), t.id, TIMELINE_CAP);
        PrependIs(At(timelines, targets[i]), t.id, TIMELINE_CAP, pushed);
        timelines := timelines[targets[i] := pushed];
      }
      assert targets[..|targets|] == targets;
      forall user
        ensures user in targets ==>
                  At(timelines, user) != [] && At(timelines, user)[0] == t.id && |At(timelines, user)| <= 200
        ensures user !in targets ==> At(timelines, user) == At(old(timelines), user)
      {
        FanOutReaches(old(timelines), targets, t.id, user);
      }
    }

    /** A negative limit panics in the program (slice bounds), so callers owe limit >= 0. */
    method GetTimeline(userID: int, limit: int) returns (result: seq<Tweet>)
      requires limit >= 0
      ensures result == View(Contents(), userID, limit)
    {
      var ids := At(timelines, userID);
      if |ids| > limit {
        ids := ids[..limit];
      }
      result := [];
      for i := 0 to |ids|
        invariant result == Existing(tweets, ids[..i])
      {
        assert ids[..i + 1][..i] == ids[..i];
        if ids[i] in tweets {
          result := result + [tweets[ids[i]]];
        }
      }
      assert ids[..|ids|] == ids;
    }
  }

  lemma {:induction false} FanOutReaches(timelines: map<int, seq<int>>, followers: seq<int>, id: int, user: int)
    ensures var after := At(FanOut(timelines, followers, id), user);
            if user in followers then after != [] && after[0] == id && |after| <= 200 else after == At(timelines, user)
  {
    if followers != [] {
      FanOutReaches(timelines, followers[..|followers| - 1], id, user);
    }
  }

  /** The new ID comes first, and the old ones follow in order as far as there is room. */
  method Prepend(ids: seq<int>, id: int, maxLen: nat) returns (r: seq<int>)
    ensures |r| <= maxLen && (|r| < maxLen ==> |r| == |ids| + 1)
    ensures r != [] ==> r[0] == id && r[1..] <= ids
  {
    r := [id] + ids;
    if |r| > maxLen {
      r := r[..maxLen];
    }
  }

  /** That fixes the result. */
  lemma PrependIs(ids: seq<int>, id: int, maxLen: nat, r: seq<int>)
    requires |r| <= maxLen && (|r| < maxLen ==> |r| == |ids| + 1)
    requires r != [] ==> r[0] == id && r[1..] <= ids
    ensures r == Take([id] + ids, maxLen)
  {
    if r != [] {
      assert r == [id] + ids[..|r| - 1];
    }
  }
}
