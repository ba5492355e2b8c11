/**
 * Whole runs of the timeline store, against two references that never look at its state:
 * the full newest-first history of each user, and the merge a fan-out-on-read would do.
 */
module TimelineRuns {
  import opened Timeline

  datatype Op = Follow(follower: int, followee: int) | Post(author: int, text: string, now: int)

  function Apply(s: State, op: Op): State {
    match op
    case Follow(follower, followee) => AfterFollow(s, follower, followee)
    case Post(author, text, now) => AfterPost(s, author, text, now)
  }

  function Run(ops: seq<Op>): State {
    if ops == [] then EMPTY else Apply(Run(ops[..|ops| - 1]), ops[|ops| - 1])
  }

  // ---------------------------------------------------------------- references

  /** All tweets posted, oldest first; tweet number k has ID k, counting from 1. */
  function Posts(ops: seq<Op>): seq<Tweet> {
    if ops == [] then [] else
      var before := Posts(ops[..|ops| - 1]);
      match ops[|ops| - 1]
      case Follow(_, _) => before
      case Post(author, text, now) => before + [Tweet(|before| + 1, author, text, now)]
  }

  /** How many times user has followed author. */
  function Edges(ops: seq<Op>, user: int, author: int): nat {
    if ops == [] then 0 else
      Edges(ops[..|ops| - 1], user, author) + if ops[|ops| - 1] == Follow(user, author) then 1 else 0
  }

  function Copies(id: int, n: nat): seq<int> {
    seq(n, _ => id)
  }

  /** Unbounded, newest first: one copy of each tweet per follow edge there was when it was posted. */
  function FullTimeline(ops: seq<Op>, user: int): seq<int> {
    if ops == [] then [] else
      var before := ops[..|ops| - 1];
      match ops[|ops| - 1]
      case Follow(_, _) => FullTimeline(before, user)
      case Post(author, _, _) => Copies(|Posts(before)| + 1, Edges(before, user, author)) + FullTimeline(before, user)
  }

  /** The authors a user follows, each once. */
  function Followees(ops: seq<Op>, user: int): seq<int> {
    if ops == [] then [] else
      var before := Followees(ops[..|ops| - 1], user);
      match ops[|ops| - 1]
      case Post(_, _, _) => before
      case Follow(follower, followee) =>
        if follower == user && followee !in before then before + [followee] else before
  }

  /** The IDs of one author's posts, newest first. */
  function Feed(posts: seq<Tweet>, author: int): seq<int> {
    if posts == [] then [] else
      (if posts[|posts| - 1].author == author then [posts[|posts| - 1].id] else []) + Feed(posts[..|posts| - 1], author)
  }

  function Merge(a: seq<int>, b: seq<int>): seq<int> {
    if a == [] then b
    else if b == [] then a
    else if a[0] > b[0] then [a[0]] + Merge(a[1..], b)
    else [b[0]] + Merge(a, b[1..])
  }

  function MergeFeeds(posts: seq<Tweet>, authors: seq<int>): seq<int> {
    if authors == [] then [] else Merge(Feed(posts, authors[0]), MergeFeeds(posts, authors[1..]))
  }

  /** Fan-out on read: merge the feeds of the followed authors by descending ID. */
  function ReadTimeline(ops: seq<Op>, user: int): seq<int> {
    MergeFeeds(Posts(ops), Followees(ops, user))
  }

  // ---------------------------------------------------------------- the store against the history

  /** After any run an author's follower list holds each user once per follow. */
  lemma {:induction false} RunFollowers(ops: seq<Op>, user: int, author: int)
    ensures Count(At(Run(ops).followers, author), user) == Edges(ops, user, author)
  {
    if ops != [] {
      RunFollowers(ops[..|ops| - 1], user, author);
    }
  }

  lemma {:induction false} RunTweets(ops: seq<Op>)
    ensures Run(ops).nextID == |Posts(ops)|
    ensures forall id :: id in Run(ops).tweets <==> 1 <= id <= |Posts(ops)|
    ensures forall k :: 0 <= k < |Posts(ops)| ==> Posts(ops)[k].id == k + 1 && Run(ops).tweets[k + 1] == Posts(ops)[k]
  {
    if ops != [] {
      RunTweets(ops[..|ops| - 1]);
    }
  }

  /** Pushing onto a capped list is capping the pushed full list. */
  lemma PushCapped(id: int, k: nat, full: seq<int>, n: nat)
    ensures Take([id] + Take(Copies(id, k) + full, n), n) == Take(Copies(id, k + 1) + full, n)
  {
    assert [id] + (Copies(id, k) + full) == Copies(id, k + 1) + full;
  }

  lemma {:induction false} FanOutAt(timelines: map<int, seq<int>>, followers: seq<int>, id: int,
                                    user: int, full: seq<int>)
    requires At(timelines, user) == Take(full, TIMELINE_CAP)
    ensures At(FanOut(timelines, followers, id), user) == Take(Copies(id, Count(followers, user)) + full, TIMELINE_CAP)
  {
    if followers == [] {
      assert Copies(id, 0) + full == full;
    } else {
      hide Take, Copies;
      var init, f := followers[..|followers| - 1], followers[|followers| - 1];
      FanOutAt(timelines, init, id, user, full);
      CountLast(followers, user);
      if f == user {
        PushCapped(id, Count(init, user), full, TIMELINE_CAP);
      }
    }
  }

  lemma CountLast(s: seq<int>, x: int)
    requires s != []
    ensures Count(s, x) == Count(s[..|s| - 1], x) + if s[|s| - 1] == x then 1 else 0
  {
    assert s == s[..|s| - 1] + [s[|s| - 1]];
  }

  /** Each stored timeline is the first 200 entries of the full history. */
  lemma {:induction false} TimelineRefinesHistory(ops: seq<Op>, user: int)
    ensures At(Run(ops).timelines, user) == Take(FullTimeline(ops, user), 200)
  {
    if ops != [] {
      var before := ops[..|ops| - 1];
      TimelineRefinesHistory(before, user);
      match ops[|ops| - 1]
      case Follow(_, _) =>
      case Post(author, _, _) =>
        RunFollowers(before, user, author);
        RunTweets(before);
        FanOutAt(Run(before).timelines, At(Run(before).followers, author), |Posts(before)| + 1,
                 user, FullTimeline(before, user));
    }
  }

  lemma {:induction false} HistoryIsPosted(ops: seq<Op>, user: int)
    ensures forall i :: 0 <= i < |FullTimeline(ops, user)| ==> 1 <= FullTimeline(ops, user)[i] <= |Posts(ops)|
  {
    if ops != [] {
      HistoryIsPosted(ops[..|ops| - 1], user);
    }
  }

  lemma {:induction false} NoneMissing(tweets: map<int, Tweet>, ids: seq<int>)
    requires forall i :: 0 <= i < |ids| ==> ids[i] in tweets
    ensures |Existing(tweets, ids)| == |ids|
    ensures forall i :: 0 <= i < |ids| ==> Existing(tweets, ids)[i] == tweets[ids[i]]
  {
    if ids != [] {
      NoneMissing(tweets, ids[..|ids| - 1]);
    }
  }

  /** The object goes through the specification's states, so what is proved of runs holds of its fields. */
  method Execute(ops: seq<Op>) returns (store: InMemoryStore)
    ensures fresh(store) && store.Contents() == Run(ops)
    ensures forall user :: At(store.timelines, user) == Take(FullTimeline(ops, user), 200)
    ensures forall user, author :: Count(At(store.followers, author), user) == Edges(ops, user, author)
  {
    store := new InMemoryStore();
    for i := 0 to |ops|
      invariant fresh(store) && store.Contents() == Run(ops[..i])
    {
      assert ops[..i + 1][..i] == ops[..i];
      match ops[i]
      case Follow(follower, followee) => store.Follow(follower, followee);
      case Post(author, text, now) => var t := store.PostTweet(author, text, now);
    }
    assert ops[..|ops|] == ops;
    forall user ensures At(store.timelines, user) == Take(FullTimeline(ops, user), 200) {
      TimelineRefinesHistory(ops, user);
    }
    forall user, author ensures Count(At(store.followers, author), user) == Edges(ops, user, author) {
      RunFollowers(ops, user, author);
    }
  }

  function Smaller(a: nat, b: nat): nat { if a <= b then a else b }

  /** Every tweet of the timeline is found, so the answer is the newest min(limit, 200) of the history. */
  lemma ViewShowsHistory(ops: seq<Op>, user: int, limit: nat)
    ensures var shown := Take(FullTimeline(ops, user), Smaller(limit, 200));
            var view := View(Run(ops), user, limit);
            && |view| == |shown|
            && forall i :: 0 <= i < |shown| ==> 1 <= shown[i] <= |Posts(ops)| && view[i] == Posts(ops)[shown[i] - 1]
  {
    TimelineRefinesHistory(ops, user);
    HistoryIsPosted(ops, user);
    RunTweets(ops);
    var ids := Take(At(Run(ops).timelines, user), limit);
    assert ids == Take(FullTimeline(ops, user), Smaller(limit, TIMELINE_CAP));
    NoneMissing(Run(ops).tweets, ids);
  }

  // ---------------------------------------------------------------- the history against fan-out on read

  ghost predicate Descending(s: seq<int>) {
    forall i, j :: 0 <= i < j < |s| ==> s[i] >= s[j]
  }

  ghost predicate StrictlyDescending(s: seq<int>) {
    forall i, j :: 0 <= i < j < |s| ==> s[i] > s[j]
  }

  /** A descending sequence is determined by how often each number occurs. */
  lemma {:induction false} DescendingUnique(a: seq<int>, b: seq<int>)
    requires Descending(a) && Descending(b) && multiset(a) == multiset(b)
    ensures a == b
    decreases |a|
  {
    assert |a| == |multiset(a)| == |multiset(b)| == |b|;
    if a != [] {
      SameFirst(a, b);
      TailCounts(a);
      TailCounts(b);
      DescendingUnique(a[1..], b[1..]);
    }
  }

  lemma SameFirst(a: seq<int>, b: seq<int>)
    requires Descending(a) && Descending(b) && multiset(a) == multiset(b) && a != [] && b != []
    ensures a[0] == b[0]
  {
    assert a[0] in multiset(b) && b[0] in multiset(a);
    var i, j :| 0 <= i < |b| && b[i] == a[0] && 0 <= j < |a| && a[j] == b[0];
  }

  lemma TailCounts(s: seq<int>)
    requires s != []
    ensures multiset(s[1..]) == multiset(s) - multiset{s[0]}
  {
    assert s == [s[0]] + s[1..];
  }

  /** How many edges user had to the author of post number id when it was posted. */
  function EdgesWhenPosted(ops: seq<Op>, user: int, id: int): nat {
    if ops == [] then 0 else
      var before := ops[..|ops| - 1];
      match ops[|ops| - 1]
      case Follow(_, _) => EdgesWhenPosted(before, user, id)
      case Post(author, _, _) =>
        if id == |Posts(before)| + 1 then Edges(before, user, author) else EdgesWhenPosted(before, user, id)
  }

  lemma {:induction false} HistoryDescends(ops: seq<Op>, user: int)
    ensures Descending(FullTimeline(ops, user))
  {
    if ops != [] {
      HistoryDescends(ops[..|ops| - 1], user);
      HistoryIsPosted(ops[..|ops| - 1], user);
    }
  }

  lemma CountCopies(id: int, n: nat, x: int)
    ensures Count(Copies(id, n), x) == if x == id then n else 0
    decreases n
  {
    if n > 0 {
      CountCopies(id, n - 1, x);
      assert Copies(id, n) == Copies(id, n - 1) + [id];
    }
  }

  lemma {:induction false} HistoryCounts(ops: seq<Op>, user: int, id: int)
    ensures Count(FullTimeline(ops, user), id) == EdgesWhenPosted(ops, user, id)
  {
    if ops != [] {
      var before := ops[..|ops| - 1];
      HistoryCounts(before, user, id);
      match ops[|ops| - 1]
      case Follow(_, _) =>
      case Post(author, _, _) =>
        var latest := |Posts(before)| + 1;
        CountCopies(latest, Edges(before, user, author), id);
        if id == latest {
          HistoryIsPosted(before, user);
          assert id !in FullTimeline(before, user);
        }
    }
  }

  lemma {:induction false} FolloweesAre(ops: seq<Op>, user: int)
    ensures forall i, j :: 0 <= i < j < |Followees(ops, user)| ==> Followees(ops, user)[i] != Followees(ops, user)[j]
    ensures forall a :: a in Followees(ops, user) <==> Edges(ops, user, a) > 0
  {
    if ops != [] {
      FolloweesAre(ops[..|ops| - 1], user);
    }
  }

  ghost predicate Numbered(posts: seq<Tweet>) {
    forall k :: 0 <= k < |posts| ==> posts[k].id == k + 1
  }

  ghost predicate PostedBy(posts: seq<Tweet>, authors: seq<int>, id: int) {
    1 <= id <= |posts| && posts[id - 1].author in authors
  }

  lemma {:induction false} FeedHas(posts: seq<Tweet>, author: int, id: int)
    requires Numbered(posts)
    ensures id in Feed(posts, author) <==> PostedBy(posts, [author], id)
  {
    if posts != [] {
      FeedHas(posts[..|posts| - 1], author, id);
    }
  }

  lemma {:induction false} FeedDescends(posts: seq<Tweet>, author: int)
    requires Numbered(posts)
    ensures StrictlyDescending(Feed(posts, author))
  {
    if posts != [] {
      var init := posts[..|posts| - 1];
      FeedDescends(init, author);
      forall k | 0 <= k < |Feed(init, author)| ensures Feed(init, author)[k] < |posts| {
        FeedHas(init, author, Feed(init, author)[k]);
      }
    }
  }

  lemma {:induction false} MergeIs(a: seq<int>, b: seq<int>)
    requires StrictlyDescending(a) && StrictlyDescending(b) && forall x :: !(x in a && x in b)
    ensures StrictlyDescending(Merge(a, b))
    ensures forall x :: x in Merge(a, b) <==> x in a || x in b
    decreases |a| + |b|
  {
    if a != [] && b != [] {
      assert a[0] in a && b[0] in b;
      assert a == [a[0]] + a[1..] && b == [b[0]] + b[1..];
      if a[0] > b[0] {
        MergeIs(a[1..], b);
        forall k | 0 <= k < |Merge(a[1..], b)| ensures Merge(a[1..], b)[k] < a[0] {
          assert Merge(a[1..], b)[k] in Merge(a[1..], b);
        }
      } else {
        MergeIs(a, b[1..]);
        forall k | 0 <= k < |Merge(a, b[1..])| ensures Merge(a, b[1..])[k] < b[0] {
          assert Merge(a, b[1..])[k] in Merge(a, b[1..]);
        }
      }
    }
  }

  lemma {:induction false} MergeFeedsIs(posts: seq<Tweet>, authors: seq<int>)
    requires Numbered(posts)
    requires forall i, j :: 0 <= i < j < |authors| ==> authors[i] != authors[j]
    ensures StrictlyDescending(MergeFeeds(posts, authors))
    ensures forall id :: id in MergeFeeds(posts, authors) <==> PostedBy(posts, authors, id)
  {
    if authors != [] {
      FeedDescends(posts, authors[0]);
      forall id ensures id in Feed(posts, authors[0]) <==> PostedBy(posts, [authors[0]], id) {
        FeedHas(posts, authors[0], id);
      }
      MergeFeedsIs(posts, authors[1..]);
      MergeIs(Feed(posts, authors[0]), MergeFeeds(posts, authors[1..]));
    }
  }

  lemma {:induction false} CountStrict(s: seq<int>, x: int)
    requires StrictlyDescending(s)
    ensures Count(s, x) == if x in s then 1 else 0
  {
    if s != [] {
      CountStrict(s[..|s| - 1], x);
      CountLast(s, x);
    }
  }

  /** Reading by merge shows each post of a followed author once, newest first. */
  lemma ReadTimelineIs(ops: seq<Op>, user: int)
    ensures StrictlyDescending(ReadTimeline(ops, user))
    ensures forall id :: Count(ReadTimeline(ops, user), id) ==
              if 1 <= id <= |Posts(ops)| && Edges(ops, user, Posts(ops)[id - 1].author) > 0 then 1 else 0
  {
    RunTweets(ops);
    FolloweesAre(ops, user);
    MergeFeedsIs(Posts(ops), Followees(ops, user));
    forall id ensures Count(ReadTimeline(ops, user), id) ==
              if 1 <= id <= |Posts(ops)| && Edges(ops, user, Posts(ops)[id - 1].author) > 0 then 1 else 0
    {
      CountStrict(ReadTimeline(ops, user), id);
    }
  }

  /** Whoever's posts the user follows now, exactly one edge was there when each was posted; otherwise none was. */
  ghost predicate FollowedInTime(ops: seq<Op>, user: int) {
    forall id :: 1 <= id <= |Posts(ops)| ==>
      EdgesWhenPosted(ops, user, id) == if Edges(ops, user, Posts(ops)[id - 1].author) > 0 then 1 else 0
  }

  /**
   * Fan-out on write and fan-out on read agree exactly when each post found one edge from the user to its author if
   * the user follows that author by now, and none otherwise. A repeat after the author's last post does no harm.
   */
  lemma WriteEqualsReadIff(ops: seq<Op>, user: int)
    ensures FullTimeline(ops, user) == ReadTimeline(ops, user) <==> FollowedInTime(ops, user)
  {
    var full, read := FullTimeline(ops, user), ReadTimeline(ops, user);
    HistoryDescends(ops, user);
    HistoryIsPosted(ops, user);
    ReadTimelineIs(ops, user);
    forall id ensures Count(full, id) == EdgesWhenPosted(ops, user, id) {
      HistoryCounts(ops, user, id);
    }
    if FollowedInTime(ops, user) {
      forall id ensures multiset(full)[id] == multiset(read)[id] {
        assert multiset(full)[id] == Count(full, id) && multiset(read)[id] == Count(read, id);
        if !(1 <= id <= |Posts(ops)|) {
          assert id !in full;
        }
      }
      assert multiset(full) == multiset(read);
      DescendingUnique(full, read);
    } else {
      var id :| 1 <= id <= |Posts(ops)| &&
        EdgesWhenPosted(ops, user, id) != if Edges(ops, user, Posts(ops)[id - 1].author) > 0 then 1 else 0;
      assert Count(full, id) != Count(read, id);
    }
  }

  ghost predicate FollowsFirst(ops: seq<Op>) {
    forall i, j :: 0 <= i < j < |ops| && ops[j].Follow? ==> ops[i].Follow?
  }

  ghost predicate NoRepeatedFollow(ops: seq<Op>) {
    forall i, j :: 0 <= i < j < |ops| && ops[i].Follow? ==> ops[i] != ops[j]
  }

  lemma {:induction false} SingleEdge(ops: seq<Op>, user: int, author: int)
    requires NoRepeatedFollow(ops)
    ensures Edges(ops, user, author) == if Follow(user, author) in ops then 1 else 0
  {
    if ops != [] {
      var before := ops[..|ops| - 1];
      SingleEdge(before, user, author);
      assert ops == before + [ops[|ops| - 1]];
    }
  }

  lemma {:induction false} FollowsFirstInTime(ops: seq<Op>, user: int, id: int)
    requires FollowsFirst(ops) && NoRepeatedFollow(ops) && 1 <= id <= |Posts(ops)|
    ensures EdgesWhenPosted(ops, user, id) == Edges(ops, user, Posts(ops)[id - 1].author)
  {
    var before, op := ops[..|ops| - 1], ops[|ops| - 1];
    match op
    case Follow(_, _) =>
      NoPostsYet(ops);
    case Post(author, _, _) =>
      if id != |Posts(before)| + 1 {
        FollowsFirstInTime(before, user, id);
      }
  }

  lemma {:induction false} NoPostsYet(ops: seq<Op>)
    requires FollowsFirst(ops) && (ops == [] || ops[|ops| - 1].Follow?)
    ensures Posts(ops) == []
  {
    if ops != [] {
      NoPostsYet(ops[..|ops| - 1]);
    }
  }

  /** If all follows come first and none repeats, GetTimeline is the first n of the merge, IDs strictly falling. */
  lemma GetTimelineReadsMerge(ops: seq<Op>, user: int, n: nat)
    requires FollowsFirst(ops) && NoRepeatedFollow(ops) && n <= 200
    ensures var shown := Take(ReadTimeline(ops, user), n);
            var view := View(Run(ops), user, n);
            && StrictlyDescending(shown)
            && |view| == |shown|
            && forall i :: 0 <= i < |shown| ==> view[i].id == shown[i] && view[i] in Posts(ops)
  {
    hide FullTimeline, ReadTimeline, View, Posts, Run, FollowedInTime, FollowsFirst, NoRepeatedFollow;
    FollowsFirstAreInTime(ops, user);
    WriteEqualsReadIff(ops, user);
    ViewShowsHistory(ops, user, n);
    ReadTimelineIs(ops, user);
    RunTweets(ops);
  }

  lemma FollowsFirstAreInTime(ops: seq<Op>, user: int)
    requires FollowsFirst(ops) && NoRepeatedFollow(ops)
    ensures FollowedInTime(ops, user)
  {
    hide FollowsFirst, NoRepeatedFollow;
    forall id | 1 <= id <= |Posts(ops)|
      ensures EdgesWhenPosted(ops, user, id) == if Edges(ops, user, Posts(ops)[id - 1].author) > 0 then 1 else 0
    {
      FollowsFirstInTime(ops, user, id);
      SingleEdge(ops, user, Posts(ops)[id - 1].author);
    }
  }

  /** A follow made after a post does not bring the post in: written and read timelines differ. */
  lemma LateFollowDiffers()
    ensures var ops := [Post(1, "first", 0), Follow(2, 1)];
            FullTimeline(ops, 2) == [] && ReadTimeline(ops, 2) == [1]
  {
    var ops := [Post(1, "first", 0), Follow(2, 1)];
    assert ops[..1] == [ops[0]] && ops[..1][..0] == [];
    assert Posts(ops[..1]) == [Tweet(1, 1, "first", 0)];
    assert Posts(ops)[..0] == [];
    assert Followees(ops[..1], 2) == [];
    assert Followees(ops, 2) == [1];
    assert FullTimeline(ops[..1], 2) == Copies(1, 0) + [];
  }
}
