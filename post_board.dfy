/**
 * The board: what it derives from the (already ordered) list of posts it is
 * given — the effective pin state, the time-remaining label, the top-three
 * rank by amount and the badges — and its infinite-scroll state.
 */
module PostBoard {
  import opened Wrappers
  import opened Posts
  import opened Sequences
  import opened Sorting
  import opened Text

  // ---------------------------------------------------------------- rank badge

  /** The comparator of the rank: larger amount first, absent amounts counting as 0. */
  function CompareByAmount(a: Post, b: Post): int {
    AmountOf(b) - AmountOf(a)
  }

  /** `findIndex` by id: the first position holding a post with `id`, or -1. */
  function IndexOfId(s: seq<Post>, id: int): (i: int)
    ensures -1 <= i < |s|
    ensures i >= 0 ==> s[i].id == id && forall j :: 0 <= j < i ==> s[j].id != id
    ensures i == -1 ==> forall j :: 0 <= j < |s| ==> s[j].id != id
  {
    if s == [] then -1
    else if s[0].id == id then 0
    else
      var k := IndexOfId(s[1..], id);
      if k == -1 then -1 else k + 1
  }

  /** The paid posts, largest amount first, ties in their given order. */
  function AmountRanking(posts: seq<Post>): seq<Post> {
    SortBy(Filter(posts, IsPaid), CompareByAmount)
  }

  /** One more than the position of the post's id in the amount ranking (0 when the id is not there). */
  function RankPosition(post: Post, posts: seq<Post>): int {
    IndexOfId(AmountRanking(posts), post.id) + 1
  }

  /** `getPostRank`: none for an unpaid post, otherwise the rank position when it is at most 3. */
  function PostRank(post: Post, posts: seq<Post>): Option<int> {
    if !IsPaid(post) then None
    else
      var rank := RankPosition(post, posts);
      if rank <= 3 then Some(rank) else None
  }

  lemma AmountOrderIsTotalPreorder()
    ensures IsTotalPreorder(CompareByAmount)
  {
  }

  /**
   * A paid post of the list has a position among the paid posts, so its rank
   * is 1, 2 or 3, or none when at least three paid posts are ranked above
   * it; an unpaid post never has a rank.
   */
  lemma PostRankRange(post: Post, posts: seq<Post>)
    ensures !IsPaid(post) ==> PostRank(post, posts) == None
    ensures post in posts && IsPaid(post) ==>
      && 1 <= RankPosition(post, posts) <= |Filter(posts, IsPaid)|
      && (PostRank(post, posts) == None <==> RankPosition(post, posts) > 3)
      && (PostRank(post, posts).Some? ==> 1 <= PostRank(post, posts).value <= 3)
      && (RankPosition(post, posts) <= 3 ==> PostRank(post, posts) == Some(RankPosition(post, posts)))
  {
    if post in posts && IsPaid(post) {
      var paid := Filter(posts, IsPaid);
      SortPermutes(paid, CompareByAmount);
      var k :| 0 <= k < |posts| && posts[k] == post;
      assert post in paid;
      assert post in multiset(AmountRanking(posts));
    }
  }

  /** No two posts of the list share an id (the source does not guarantee this: ids are creation milliseconds). */
  predicate DistinctIds(posts: seq<Post>) {
    forall i, j :: 0 <= i < j < |posts| ==> posts[i].id != posts[j].id
  }

  /** With distinct ids, the ranking entry found by a post's id is that post. */
  lemma RankedEntryIsPost(post: Post, posts: seq<Post>) returns (k: nat)
    requires DistinctIds(posts) && post in posts && IsPaid(post)
    ensures k < |AmountRanking(posts)| && AmountRanking(posts)[k] == post
    ensures RankPosition(post, posts) == k + 1
  {
    var paid := Filter(posts, IsPaid);
    var ranking := AmountRanking(posts);
    SortPermutes(paid, CompareByAmount);
    assert post in paid;
    assert post in multiset(ranking);
    var i := IndexOfId(ranking, post.id);
    assert ranking[i] in multiset(paid);
    assert ranking[i] in posts;
    k := i;
  }

  /** With distinct ids, a post that paid more is ranked strictly above one that paid less. */
  lemma RankFollowsAmount(p: Post, q: Post, posts: seq<Post>)
    requires DistinctIds(posts) && p in posts && q in posts && IsPaid(p) && IsPaid(q)
    requires AmountOf(p) > AmountOf(q)
    ensures RankPosition(p, posts) < RankPosition(q, posts)
  {
    var a := RankedEntryIsPost(p, posts);
    var b := RankedEntryIsPost(q, posts);
    AmountOrderIsTotalPreorder();
    SortSorted(Filter(posts, IsPaid), CompareByAmount);
  }

  lemma DistinctIdsNoDuplicates(posts: seq<Post>)
    requires DistinctIds(posts)
    ensures NoDuplicates(posts)
  {
  }

  /** With distinct ids, of two posts that paid the same, the one earlier in the list is ranked above. */
  lemma RankTiesFollowListOrder(posts: seq<Post>, i: nat, j: nat)
    requires DistinctIds(posts) && i < j < |posts|
    requires IsPaid(posts[i]) && IsPaid(posts[j]) && AmountOf(posts[i]) == AmountOf(posts[j])
    ensures RankPosition(posts[i], posts) < RankPosition(posts[j], posts)
  {
    var p, q := posts[i], posts[j];
    var paid := Filter(posts, IsPaid);
    var ranking := AmountRanking(posts);
    var tied := TiedWith(CompareByAmount, p);
    var a := RankedEntryIsPost(p, posts);
    var b := RankedEntryIsPost(q, posts);
    if b < a {
      // In the list, p precedes q among the paid posts tied with p ...
      var pi, pj := FilterKeepsOrder(posts, IsPaid, i, j);
      var x, y := FilterKeepsOrder(paid, tied, pi, pj);
      // ... while in the ranking q precedes p among them ...
      var u, v := FilterKeepsOrder(ranking, tied, b, a);
      // ... but stability makes the two filtered sequences equal.
      SortStable(paid, CompareByAmount, p);
      DistinctIdsNoDuplicates(posts);
      FilterNoDuplicates(posts, IsPaid);
      FilterNoDuplicates(paid, tied);
    }
  }

  /**
   * With distinct ids, the post ranked first paid at least as much as every
   * post of the list.
   */
  lemma RankOneIsTopPaid(post: Post, posts: seq<Post>)
    requires DistinctIds(posts) && post in posts
    requires PostRank(post, posts) == Some(1)
    ensures forall q :: q in posts ==> AmountOf(q) <= AmountOf(post)
  {
    var a := RankedEntryIsPost(post, posts);
    forall q | q in posts ensures AmountOf(q) <= AmountOf(post) {
      if IsPaid(q) && AmountOf(q) > AmountOf(post) {
        RankFollowsAmount(q, post, posts);
        PostRankRange(q, posts);
      }
    }
  }

  /**
   * Without distinct ids the rank is looked up by id, so a post can be given
   * another post's rank: here the cheaper of two posts sharing an id shows
   * as ranked first.
   */
  lemma SharedIdSharesRank(now: int)
    ensures var top := Post(now, "a", "a", None, None, now, false, Some(10), None, None);
            var cheap := Post(now, "b", "b", None, None, now, false, Some(1), None, None);
            PostRank(cheap, [top, cheap]) == Some(1) && AmountOf(cheap) < AmountOf(top)
  {
    var top := Post(now, "a", "a", None, None, now, false, Some(10), None, None);
    var cheap := Post(now, "b", "b", None, None, now, false, Some(1), None, None);
    assert [top, cheap][1..] == [cheap] && [cheap][1..] == [];
    assert Filter([top, cheap], IsPaid) == [top, cheap];
    assert SortBy([cheap], CompareByAmount) == [cheap];
    assert AmountRanking([top, cheap]) == [top, cheap];
  }

  // ---------------------------------------------------------------- time remaining

  const MS_PER_MINUTE: int := 1000 * 60

  /** `getTimeRemaining`: "Expired", or whole hours and minutes left, rounded down. */
  function TimeRemaining(pinExpiry: int, now: int): string {
    var diff := pinExpiry - now;
    if diff <= 0 then "Expired"
    else
      var minutes: nat := diff / MS_PER_MINUTE;
      var hours: nat := minutes / 60;
      if hours > 0 then NatToString(hours) + "h " + NatToString(minutes % 60) + "m left"
      else NatToString(minutes) + "m left"
  }

  /** The first position of `c` in `s`, or -1. */
  function IndexOfChar(s: string, c: char): (i: int)
    ensures -1 <= i < |s|
    ensures i >= 0 ==> s[i] == c && forall j :: 0 <= j < i ==> s[j] != c
    ensures i == -1 ==> forall j :: 0 <= j < |s| ==> s[j] != c
  {
    if s == [] then -1
    else if s[0] == c then 0
    else
      var k := IndexOfChar(s[1..], c);
      if k == -1 then -1 else k + 1
  }

  predicate AllDigits(s: string) {
    forall i :: 0 <= i < |s| ==> IsDigit(s[i])
  }

  /**
   * Reads a "{h}h {m}m left" label with a non-zero hour count, or a
   * "{m}m left" label, back into hours and minutes.
   */
  function ReadTimeLeft(s: string): Option<(nat, nat)> {
    if |s| < 6 || s[|s| - 6..] != "m left" then None
    else
      var body := s[..|s| - 6];
      var k := IndexOfChar(body, 'h');
      if k < 0 then
        if body != [] && AllDigits(body) then Some((0, ParseNat(body))) else None
      else if k + 2 <= |body| && body[k..k + 2] == "h " && k > 0 && AllDigits(body[..k])
              && ParseNat(body[..k]) > 0 && k + 2 < |body| && AllDigits(body[k + 2..]) then
        Some((ParseNat(body[..k]), ParseNat(body[k + 2..])))
      else None
  }

  /** The label says "Expired" exactly when the expiry is not in the future. */
  lemma TimeRemainingExpired(pinExpiry: int, now: int)
    ensures TimeRemaining(pinExpiry, now) == "Expired" <==> pinExpiry - now <= 0
    ensures ReadTimeLeft("Expired") == None
  {
    var r := TimeRemaining(pinExpiry, now);
    if pinExpiry - now > 0 {
      assert r[|r| - 1] == 't';
    }
    assert "Expired"[1..] == "xpired";
  }

  lemma ReadHoursAndMinutes(a: string, b: string)
    requires a != [] && AllDigits(a) && ParseNat(a) > 0 && b != [] && AllDigits(b)
    ensures ReadTimeLeft(a + "h " + b + "m left") == Some((ParseNat(a), ParseNat(b)))
  {
    var s := a + "h " + b + "m left";
    var body := s[..|s| - 6];
    assert s[|s| - 6..] == "m left";
    assert body == a + "h " + b;
    assert body[|a|] == 'h';
    assert forall j :: 0 <= j < |a| ==> body[j] == a[j];
    assert IndexOfChar(body, 'h') == |a|;
    assert body[..|a|] == a;
    assert body[|a| + 2..] == b;
    assert body[|a|..|a| + 2] == "h ";
  }

  lemma ReadMinutes(a: string)
    requires a != [] && AllDigits(a)
    ensures ReadTimeLeft(a + "m left") == Some((0, ParseNat(a)))
  {
    var s := a + "m left";
    assert s[|s| - 6..] == "m left";
    assert s[..|s| - 6] == a;
    assert IndexOfChar(a, 'h') == -1;
  }

  /**
   * Otherwise the label reads back as hours and minutes with fewer than 60
   * minutes, which together are the whole minutes left: the time left is at
   * least that and less than a minute more. Since the reader refuses a zero
   * hour count, the hour part appears exactly when at least an hour is left.
   */
  lemma TimeRemainingReadsBack(pinExpiry: int, now: int)
    requires pinExpiry - now > 0
    ensures ReadTimeLeft(TimeRemaining(pinExpiry, now)).Some?
    ensures var (h, m) := ReadTimeLeft(TimeRemaining(pinExpiry, now)).value;
      && m < 60
      && (h * 60 + m) * MS_PER_MINUTE <= pinExpiry - now < (h * 60 + m + 1) * MS_PER_MINUTE
  {
    var diff := pinExpiry - now;
    var minutes: nat := diff / MS_PER_MINUTE;
    var hours: nat := minutes / 60;
    var text := TimeRemaining(pinExpiry, now);
    WholeMinutes(diff);
    if hours > 0 {
      assert text == NatToString(hours) + "h " + NatToString(minutes % 60) + "m left";
      NatToStringRoundTrip(hours);
      NatToStringRoundTrip(minutes % 60);
      ReadHoursAndMinutes(NatToString(hours), NatToString(minutes % 60));
      assert ReadTimeLeft(text).value == (hours, minutes % 60);
      assert hours * 60 + minutes % 60 == minutes;
    } else {
      assert text == NatToString(minutes) + "m left";
      ReadMinutes(NatToString(minutes));
      NatToStringRoundTrip(minutes);
      assert ReadTimeLeft(text).value == (0, minutes);
    }
  }

  lemma WholeMinutes(diff: int)
    requires diff > 0
    ensures (diff / MS_PER_MINUTE) * MS_PER_MINUTE <= diff < (diff / MS_PER_MINUTE + 1) * MS_PER_MINUTE
    ensures diff / MS_PER_MINUTE / 60 * 60 + diff / MS_PER_MINUTE % 60 == diff / MS_PER_MINUTE
    ensures diff / MS_PER_MINUTE / 60 == 0 ==> diff / MS_PER_MINUTE < 60
  {
  }

  // ---------------------------------------------------------------- badges

  /**
   * What a card shows in its badge column: the Pinned badge, the Top Paid
   * badge, a "#rank" badge, and the line under them (the time left, or
   * "Pin expired").
   */
  datatype Badges = Badges(pinned: bool, topPaid: bool, rankBadge: Option<int>, pinNote: Option<string>)

  /** The badge conditions of a card for `post` on a board showing `posts`. */
  function BadgesFor(post: Post, posts: seq<Post>, now: int): Badges {
    var currentlyPinned := IsCurrentlyPinned(post, now);
    var rank := PostRank(post, posts);
    Badges(
      currentlyPinned,
      rank == Some(1) && !currentlyPinned,
      if rank.Some? && rank.value != 0 && rank.value <= 3 && rank.value > 1 && !currentlyPinned then rank else None,
      if post.isPinned && post.pinExpiry.Some? then
        Some(if currentlyPinned then TimeRemaining(post.pinExpiry.value, now) else "Pin expired")
      else None)
  }

  /**
   * At most one of Pinned, Top Paid and "#rank" shows; while the post is
   * effectively pinned neither rank badge does; a "#rank" badge is #2 or #3;
   * Top Paid shows exactly for the unpinned post ranked first.
   */
  lemma BadgesExclusive(post: Post, posts: seq<Post>, now: int)
    ensures var b := BadgesFor(post, posts, now);
      && !(b.pinned && b.topPaid) && !(b.pinned && b.rankBadge.Some?) && !(b.topPaid && b.rankBadge.Some?)
      && (IsCurrentlyPinned(post, now) ==> !b.topPaid && b.rankBadge == None)
      && (b.rankBadge.Some? ==> b.rankBadge.value in {2, 3})
      && (b.topPaid <==> PostRank(post, posts) == Some(1) && !IsCurrentlyPinned(post, now))
  {
  }

  /**
   * "Pin expired" shows exactly for a post whose stored flag and expiry are
   * set but whose pin has lapsed; a pinned card never says "Expired".
   */
  lemma PinNoteCases(post: Post, posts: seq<Post>, now: int)
    ensures var b := BadgesFor(post, posts, now);
      && (b.pinNote == Some("Pin expired") <==>
            post.isPinned && post.pinExpiry.Some? && !IsCurrentlyPinned(post, now))
      && b.pinNote != Some("Expired")
      && (b.pinNote.Some? <==> post.isPinned && post.pinExpiry.Some?)
  {
    if IsCurrentlyPinned(post, now) {
      var e := post.pinExpiry.value;
      TimeRemainingExpired(e, now);
      var r := TimeRemaining(e, now);
      assert r[|r| - 1] == 't';
      assert "Pin expired"[10] == 'd';
    }
  }

  // ---------------------------------------------------------------- infinite scroll

  /** How many posts each load adds. */
  const POSTS_PER_LOAD: nat := 10

  function Min(a: int, b: int): int {
    if a <= b then a else b
  }

  /** `s.slice(start, end)` for non-negative bounds: clamped to the sequence. */
  function Slice<T>(s: seq<T>, start: nat, end: nat): (r: seq<T>)
    ensures |r| == if start < Min(end, |s|) then Min(end, |s|) - start else 0
    ensures forall k :: 0 <= k < |r| ==> r[k] == s[start + k]
  {
    var lo := Min(start, |s|);
    var hi := Min(end, |s|);
    if lo < hi then s[lo..hi] else []
  }

  /** The displayed list after one completed load: the next (up to) ten posts appended. */
  function NextPage(posts: seq<Post>, shown: seq<Post>): seq<Post> {
    shown + Slice(posts, |shown|, |shown| + POSTS_PER_LOAD)
  }

  /** Loading more keeps the shown posts a prefix of the list and shows `min(shown + 10, n)` of them. */
  lemma NextPageExtendsPrefix(posts: seq<Post>, shown: seq<Post>)
    requires shown <= posts
    ensures NextPage(posts, shown) == posts[..Min(|shown| + POSTS_PER_LOAD, |posts|)]
  {
  }

  /** The list shown after the initial page and `loads` completed loads. */
  function ShownAfter(posts: seq<Post>, loads: nat): seq<Post> {
    if loads == 0 then posts[..Min(POSTS_PER_LOAD, |posts|)]
    else NextPage(posts, ShownAfter(posts, loads - 1))
  }

  /**
   * After the initial page and `loads` loads, the first `10 * (loads + 1)`
   * posts (or all of them) are shown.
   */
  lemma {:induction false} ShownAfterLoads(posts: seq<Post>, loads: nat)
    ensures ShownAfter(posts, loads) == posts[..Min(POSTS_PER_LOAD * (loads + 1), |posts|)]
  {
    if loads > 0 {
      ShownAfterLoads(posts, loads - 1);
      NextPageExtendsPrefix(posts, ShownAfter(posts, loads - 1));
    }
  }

  /** The infinite-scroll state of the board. */
  class Board {
    var posts: seq<Post>
    var displayedPosts: seq<Post>
    var hasMore: bool
    var isLoading: bool

    /** The shown posts are always the first posts of the list. */
    ghost predicate Valid()
      reads this
    {
      displayedPosts <= posts
    }

    /** The first render: nothing shown yet, more assumed, not loading. */
    constructor (posts: seq<Post>)
      ensures Valid()
      ensures this.posts == posts && displayedPosts == [] && hasMore && !isLoading
    {
      this.posts := posts;
      displayedPosts := [];
      hasMore := true;
      isLoading := false;
    }

    /**
     * The effect run when the board receives a new list array (and on the
     * first render): show the first ten posts; more remain iff the list is
     * longer.
     */
    method ShowPosts(newPosts: seq<Post>)
      modifies this
      ensures Valid() && isLoading == old(isLoading)
      ensures posts == newPosts && displayedPosts == ShownAfter(newPosts, 0)
      ensures hasMore <==> |newPosts| > POSTS_PER_LOAD
    {
      posts := newPosts;
      var initialPosts := Slice(posts, 0, POSTS_PER_LOAD);
      displayedPosts := initialPosts;
      hasMore := |initialPosts| < |posts|;
    }

    /**
     * `loadMorePosts`: ignored while a load is under way or when nothing
     * remains; otherwise marks a load as under way (its completion is
     * `FinishLoading`, run by the timer).
     */
    method LoadMorePosts() returns (started: bool)
      modifies this`isLoading
      ensures started <==> !old(isLoading) && hasMore
      ensures isLoading == (old(isLoading) || started)
    {
      if isLoading || !hasMore {
        return false;
      }
      isLoading := true;
      started := true;
    }

    /** The timer callback of a load: append the next page and recompute `hasMore`. */
    method FinishLoading()
      requires Valid() && isLoading
      modifies this`displayedPosts, this`hasMore, this`isLoading
      ensures Valid() && !isLoading
      ensures displayedPosts == NextPage(posts, old(displayedPosts))
      ensures displayedPosts == posts[..Min(|old(displayedPosts)| + POSTS_PER_LOAD, |posts|)]
      ensures hasMore <==> |displayedPosts| < |posts|
    {
      var currentLength := |displayedPosts|;
      var nextPosts := Slice(posts, currentLength, currentLength + POSTS_PER_LOAD);
      NextPageExtendsPrefix(posts, displayedPosts);
      displayedPosts := displayedPosts + nextPosts;
      hasMore := currentLength + |nextPosts| < |posts|;
      isLoading := false;
    }
  }
}
