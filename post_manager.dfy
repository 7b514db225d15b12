/**
 * The post manager: the in-memory list of posts, the operations that replace
 * it (seeding, adding, deleting, the periodic pin-expiry sweep), and the two
 * read-only views derived from it (the board order and the statistics).
 * The wall clock is the parameter `now`.
 */
module PostManager {
  import opened Wrappers
  import opened Posts
  import opened Sequences
  import opened Sorting

  // ---------------------------------------------------------------- adding

  /**
   * The post `addPost` stores: the draft's fields, the id and the creation
   * time both taken from the clock, and a one-hour expiry when the draft
   * asks for a pin (any expiry the draft carries is replaced).
   */
  function NewPost(draft: PostDraft, now: int): Post {
    Post(now, draft.title, draft.content, draft.link, draft.author, now,
         draft.isPinned, draft.amount, draft.txHash,
         if draft.isPinned then Some(now + PIN_DURATION_MS) else None)
  }

  /** The caller-supplied part of a post: everything but its id and creation time. */
  function DraftOf(p: Post): PostDraft {
    PostDraft(p.title, p.content, p.link, p.author, p.isPinned, p.amount, p.txHash, p.pinExpiry)
  }

  /**
   * A new post keeps everything the caller supplied except the expiry, is
   * stamped with the current time as both id and timestamp, and expires an
   * hour later exactly when it was pinned.
   */
  lemma NewPostFields(draft: PostDraft, now: int)
    ensures NewPost(draft, now).id == now && NewPost(draft, now).timestamp == now
    ensures DraftOf(NewPost(draft, now)) == draft.(pinExpiry := NewPost(draft, now).pinExpiry)
    ensures NewPost(draft, now).pinExpiry == if draft.isPinned then Some(now + PIN_DURATION_MS) else None
  {
  }

  /** A post added at `now` is effectively pinned at `t` exactly when it was pinned and `t` is within the following hour. */
  lemma NewPostPinWindow(draft: PostDraft, now: int, t: int)
    ensures IsCurrentlyPinned(NewPost(draft, now), t) <==> draft.isPinned && t < now + PIN_DURATION_MS
  {
  }

  // ---------------------------------------------------------------- deleting

  /** The filter `deletePost` applies: keep posts whose id differs. */
  function HasOtherId(id: int): Post -> bool {
    (p: Post) => p.id != id
  }

  /** The filter selecting the posts that carry `id`. */
  function HasId(id: int): Post -> bool {
    (p: Post) => p.id == id
  }

  /** The list after `deletePost(id)`: every post with that id removed, the others in order. */
  function WithoutId(posts: seq<Post>, id: int): seq<Post> {
    Filter(posts, HasOtherId(id))
  }

  /**
   * Deleting removes every post with the id (ids are not guaranteed unique)
   * and only those: the length drops by the number of such posts, and every
   * other post is still there.
   */
  lemma DeleteRemovesExactlyTheId(posts: seq<Post>, id: int)
    ensures forall i :: 0 <= i < |WithoutId(posts, id)| ==> WithoutId(posts, id)[i].id != id
    ensures forall i :: 0 <= i < |posts| && posts[i].id != id ==> posts[i] in WithoutId(posts, id)
    ensures |WithoutId(posts, id)| == |posts| - |Filter(posts, HasId(id))|
  {
    FilterSplitsLength(posts, HasId(id));
    assert Filter(posts, x => !HasId(id)(x)) == WithoutId(posts, id) by {
      FilterSameTest(posts, x => !HasId(id)(x), HasOtherId(id));
    }
  }

  lemma {:induction false} FilterSameTest(s: seq<Post>, k1: Post -> bool, k2: Post -> bool)
    requires forall p :: k1(p) == k2(p)
    ensures Filter(s, k1) == Filter(s, k2)
  {
    if s != [] {
      FilterSameTest(s[1..], k1, k2);
    }
  }

  /** The posts that survive a delete keep their relative order. */
  lemma DeleteKeepsOrder(posts: seq<Post>, id: int, i: nat, j: nat) returns (a: nat, b: nat)
    requires i < j < |posts| && posts[i].id != id && posts[j].id != id
    ensures a < b < |WithoutId(posts, id)|
    ensures WithoutId(posts, id)[a] == posts[i] && WithoutId(posts, id)[b] == posts[j]
  {
    a, b := FilterKeepsOrder(posts, HasOtherId(id), i, j);
  }

  /** Deleting an id no post has is a no-op; deleting twice is the same as deleting once. */
  lemma DeleteAbsentAndTwice(posts: seq<Post>, id: int)
    ensures (forall i :: 0 <= i < |posts| ==> posts[i].id != id) ==> WithoutId(posts, id) == posts
    ensures WithoutId(WithoutId(posts, id), id) == WithoutId(posts, id)
  {
    FilterKeepsAll(posts, HasOtherId(id));
    FilterIdempotent(posts, HasOtherId(id));
  }

  /**
   * Deleting the post just added restores the previous list exactly when no
   * earlier post shared its id (the id is the creation millisecond, so a
   * clash deletes the older post too).
   */
  lemma DeleteUndoesAdd(posts: seq<Post>, draft: PostDraft, now: int)
    ensures WithoutId([NewPost(draft, now)] + posts, now) == posts
        <==> forall i :: 0 <= i < |posts| ==> posts[i].id != now
  {
    var s := [NewPost(draft, now)] + posts;
    assert s[1..] == posts;
    DeleteAbsentAndTwice(posts, now);
    FilterKeepsAll(posts, HasOtherId(now));
  }

  // ---------------------------------------------------------------- expiry sweep

  /** Whether the sweep at `now` unpins `p`: stored flag set, expiry present and not in the future. */
  predicate PinHasLapsed(p: Post, now: int) {
    p.isPinned && p.pinExpiry.Some? && p.pinExpiry.value <= now
  }

  /** One post after the sweep: its flag cleared if its pin has lapsed, otherwise unchanged. */
  function ExpirePin(p: Post, now: int): Post {
    if PinHasLapsed(p, now) then p.(isPinned := false) else p
  }

  function Expirer(now: int): Post -> Post {
    (p: Post) => ExpirePin(p, now)
  }

  /** The list after one tick of the minute timer. */
  function ExpirePins(posts: seq<Post>, now: int): seq<Post> {
    Map(posts, Expirer(now))
  }

  /**
   * The sweep keeps the length and the order, touches only `isPinned`, and
   * clears it exactly on the posts whose pin has lapsed.
   */
  lemma SweepChangesOnlyLapsedFlags(posts: seq<Post>, now: int)
    ensures |ExpirePins(posts, now)| == |posts|
    ensures forall i :: 0 <= i < |posts| ==>
      ExpirePins(posts, now)[i].(isPinned := posts[i].isPinned) == posts[i]
    ensures forall i :: 0 <= i < |posts| ==>
      ExpirePins(posts, now)[i].isPinned == (posts[i].isPinned && !PinHasLapsed(posts[i], now))
  {
  }

  /** A later sweep subsumes an earlier one; in particular a sweep repeated at the same time changes nothing. */
  lemma SweepsCompose(posts: seq<Post>, t1: int, t2: int)
    requires t1 <= t2
    ensures ExpirePins(ExpirePins(posts, t1), t2) == ExpirePins(posts, t2)
  {
  }

  /**
   * The sweep never changes which posts are effectively pinned, now or at
   * any later time: it only clears flags whose expiry has already passed.
   */
  lemma SweepKeepsEffectivePins(p: Post, now: int, t: int)
    requires now <= t
    ensures IsCurrentlyPinned(ExpirePin(p, now), t) == IsCurrentlyPinned(p, t)
  {
  }

  /** Every stored pin carries an expiry: the invariant the store keeps. */
  predicate PinsHaveExpiry(posts: seq<Post>) {
    forall i :: 0 <= i < |posts| ==> posts[i].isPinned ==> posts[i].pinExpiry.Some?
  }

  /** Right after a sweep, the stored flag agrees with the effective pin state. */
  lemma SweepSyncsFlags(posts: seq<Post>, now: int)
    requires PinsHaveExpiry(posts)
    ensures forall i :: 0 <= i < |posts| ==>
      ExpirePins(posts, now)[i].isPinned == IsCurrentlyPinned(posts[i], now)
  {
  }

  // ---------------------------------------------------------------- board order

  /**
   * The comparator of `getSortedPosts`: effectively pinned posts first, then
   * the larger amount, then the newer post; zero when all three agree.
   * (The source spells the last two keys out once for two pinned and once
   * for two unpinned posts; both branches are the same.)
   */
  function CompareForBoard(a: Post, b: Post, now: int): int {
    var aPinned := IsCurrentlyPinned(a, now);
    var bPinned := IsCurrentlyPinned(b, now);
    if aPinned && !bPinned then -1
    else if !aPinned && bPinned then 1
    else if AmountOf(a) != AmountOf(b) then AmountOf(b) - AmountOf(a)
    else b.timestamp - a.timestamp
  }

  function BoardOrder(now: int): (Post, Post) -> int {
    (a: Post, b: Post) => CompareForBoard(a, b, now)
  }

  /** `getSortedPosts()`: a sorted copy of the list; the stored list is not touched. */
  function SortedPosts(posts: seq<Post>, now: int): seq<Post> {
    SortBy(posts, BoardOrder(now))
  }

  /** `a` may stand before `b` on the board exactly when its key (pinned, amount, timestamp) is not smaller. */
  lemma BoardPrecedesByKey(a: Post, b: Post, now: int)
    ensures Precedes(BoardOrder(now), a, b) <==>
      if IsCurrentlyPinned(a, now) != IsCurrentlyPinned(b, now) then IsCurrentlyPinned(a, now)
      else if AmountOf(a) != AmountOf(b) then AmountOf(a) > AmountOf(b)
      else a.timestamp >= b.timestamp
  {
  }

  /** Two posts tie on the board exactly when they agree on effective pin state, amount and timestamp. */
  lemma BoardTiedByKey(a: Post, b: Post, now: int)
    ensures Tied(BoardOrder(now), a, b) <==>
      IsCurrentlyPinned(a, now) == IsCurrentlyPinned(b, now)
      && AmountOf(a) == AmountOf(b) && a.timestamp == b.timestamp
  {
  }

  lemma BoardOrderIsTotalPreorder(now: int)
    ensures IsTotalPreorder(BoardOrder(now))
  {
    var cmp := BoardOrder(now);
    forall a, b, c | Precedes(cmp, a, b) && Precedes(cmp, b, c)
      ensures Precedes(cmp, a, c)
    {
      BoardPrecedesByKey(a, b, now);
      BoardPrecedesByKey(b, c, now);
      BoardPrecedesByKey(a, c, now);
    }
  }

  /** The order `getSortedPosts` promises, stated on positions. */
  predicate BoardOrdered(s: seq<Post>, now: int) {
    forall i, j :: 0 <= i < j < |s| ==>
      && (IsCurrentlyPinned(s[j], now) ==> IsCurrentlyPinned(s[i], now))
      && (IsCurrentlyPinned(s[i], now) == IsCurrentlyPinned(s[j], now) ==> AmountOf(s[i]) >= AmountOf(s[j]))
      && (IsCurrentlyPinned(s[i], now) == IsCurrentlyPinned(s[j], now) && AmountOf(s[i]) == AmountOf(s[j]) ==>
            s[i].timestamp >= s[j].timestamp)
  }

  /**
   * The board order is a rearrangement of the stored posts in which every
   * effectively pinned post precedes every other one, amounts do not increase
   * within each group, equal amounts are newest first, and posts that agree
   * on all three keys keep their stored order.
   */
  lemma SortedPostsCorrect(posts: seq<Post>, now: int)
    ensures multiset(SortedPosts(posts, now)) == multiset(posts)
    ensures BoardOrdered(SortedPosts(posts, now), now)
    ensures forall e :: Filter(SortedPosts(posts, now), TiedWith(BoardOrder(now), e))
                        == Filter(posts, TiedWith(BoardOrder(now), e))
  {
    var r := SortedPosts(posts, now);
    SortPermutes(posts, BoardOrder(now));
    BoardOrderIsTotalPreorder(now);
    SortSorted(posts, BoardOrder(now));
    forall i, j | 0 <= i < j < |r| ensures
      && (IsCurrentlyPinned(r[j], now) ==> IsCurrentlyPinned(r[i], now))
      && (IsCurrentlyPinned(r[i], now) == IsCurrentlyPinned(r[j], now) ==> AmountOf(r[i]) >= AmountOf(r[j]))
      && (IsCurrentlyPinned(r[i], now) == IsCurrentlyPinned(r[j], now) && AmountOf(r[i]) == AmountOf(r[j]) ==>
            r[i].timestamp >= r[j].timestamp)
    {
      BoardPrecedesByKey(r[i], r[j], now);
    }
    forall e ensures Filter(r, TiedWith(BoardOrder(now), e)) == Filter(posts, TiedWith(BoardOrder(now), e)) {
      SortStable(posts, BoardOrder(now), e);
    }
  }

  /**
   * Sweeping first and then ordering gives the swept board order: for any
   * time not before the sweep, the sweep never moves a post on the board.
   */
  lemma SweepKeepsBoardOrder(posts: seq<Post>, now: int, t: int)
    requires now <= t
    ensures SortedPosts(ExpirePins(posts, now), t) == ExpirePins(SortedPosts(posts, t), now)
  {
    forall a, b ensures BoardOrder(t)(Expirer(now)(a), Expirer(now)(b)) == BoardOrder(t)(a, b) {
      SweepKeepsEffectivePins(a, now, t);
      SweepKeepsEffectivePins(b, now, t);
    }
    SortMap(posts, BoardOrder(t), Expirer(now));
  }

  // ---------------------------------------------------------------- statistics

  /** The numbers `getPostStats` reports; the average is exact rather than a float. */
  datatype PostStats = PostStats(totalPosts: nat, pinnedPosts: nat, totalRevenue: nat, averagePayment: real)

  /** The sum of all amounts, absent ones counting as 0, added up from the front as `reduce` does. */
  function Revenue(posts: seq<Post>): nat {
    if posts == [] then 0 else Revenue(posts[..|posts| - 1]) + AmountOf(posts[|posts| - 1])
  }

  function PinnedAt(now: int): Post -> bool {
    (p: Post) => IsCurrentlyPinned(p, now)
  }

  /**
   * `getPostStats()`: the post count, the effectively pinned count, the
   * revenue, and the average payment, which is 0 for an empty list and
   * otherwise the revenue shared equally among the posts.
   */
  function Stats(posts: seq<Post>, now: int): (st: PostStats)
    ensures st.totalPosts == |posts| && st.pinnedPosts <= st.totalPosts
    ensures st.totalPosts == 0 ==> st.averagePayment == 0.0
    ensures st.totalPosts > 0 ==> st.averagePayment * (st.totalPosts as real) == st.totalRevenue as real
  {
    var pinnedPosts := Filter(posts, PinnedAt(now));
    var totalRevenue := Revenue(posts);
    PostStats(|posts|, |pinnedPosts|, totalRevenue,
              if |posts| > 0 then totalRevenue as real / |posts| as real else 0.0)
  }

  lemma {:induction false} RevenueConcat(a: seq<Post>, b: seq<Post>)
    ensures Revenue(a + b) == Revenue(a) + Revenue(b)
    decreases |b|
  {
    if b != [] {
      assert (a + b)[..|a + b| - 1] == a + b[..|b| - 1];
      RevenueConcat(a, b[..|b| - 1]);
    } else {
      assert a + b == a;
    }
  }

  /** Adding a post adds its amount to the revenue; a single post's average is its own amount. */
  lemma StatsAfterAdd(posts: seq<Post>, draft: PostDraft, now: int, t: int)
    ensures Revenue([NewPost(draft, now)] + posts) == AmountOf(NewPost(draft, now)) + Revenue(posts)
    ensures Stats([NewPost(draft, now)], t).averagePayment == AmountOf(NewPost(draft, now)) as real
  {
    RevenueConcat([NewPost(draft, now)], posts);
    assert Revenue([NewPost(draft, now)]) == AmountOf(NewPost(draft, now)) by {
      assert [NewPost(draft, now)][..0] == [];
    }
  }

  lemma {:induction false} RevenueOfInsert(x: Post, s: seq<Post>, cmp: (Post, Post) -> int)
    ensures Revenue(Insert(x, s, cmp)) == AmountOf(x) + Revenue(s)
  {
    if s == [] || Precedes(cmp, x, s[0]) {
      RevenueConcat([x], s);
      assert [x][..0] == [];
    } else {
      RevenueOfInsert(x, s[1..], cmp);
      RevenueConcat([s[0]], Insert(x, s[1..], cmp));
      RevenueConcat([s[0]], s[1..]);
      assert [s[0]][..0] == [];
      assert s == [s[0]] + s[1..];
    }
  }

  lemma {:induction false} RevenueOfSort(s: seq<Post>, cmp: (Post, Post) -> int)
    ensures Revenue(SortBy(s, cmp)) == Revenue(s)
  {
    if s != [] {
      RevenueOfSort(s[1..], cmp);
      RevenueOfInsert(s[0], SortBy(s[1..], cmp), cmp);
      RevenueConcat([s[0]], s[1..]);
      assert [s[0]][..0] == [];
      assert s == [s[0]] + s[1..];
    }
  }

  lemma {:induction false} PinnedCountOfInsert(x: Post, s: seq<Post>, cmp: (Post, Post) -> int, now: int)
    ensures |Filter(Insert(x, s, cmp), PinnedAt(now))| == |Filter([x], PinnedAt(now))| + |Filter(s, PinnedAt(now))|
  {
    if s == [] || Precedes(cmp, x, s[0]) {
      FilterConcat([x], s, PinnedAt(now));
    } else {
      PinnedCountOfInsert(x, s[1..], cmp, now);
      FilterConcat([s[0]], Insert(x, s[1..], cmp), PinnedAt(now));
      FilterConcat([s[0]], s[1..], PinnedAt(now));
      assert s == [s[0]] + s[1..];
    }
  }

  lemma {:induction false} PinnedCountOfSort(s: seq<Post>, cmp: (Post, Post) -> int, now: int)
    ensures |Filter(SortBy(s, cmp), PinnedAt(now))| == |Filter(s, PinnedAt(now))|
  {
    if s != [] {
      PinnedCountOfSort(s[1..], cmp, now);
      PinnedCountOfInsert(s[0], SortBy(s[1..], cmp), cmp, now);
      FilterConcat([s[0]], s[1..], PinnedAt(now));
      assert s == [s[0]] + s[1..];
    }
  }

  /** The statistics do not depend on the order: the board order has the same ones as the stored list. */
  lemma StatsIgnoreOrder(posts: seq<Post>, now: int, t: int)
    ensures Stats(SortedPosts(posts, now), t) == Stats(posts, t)
  {
    SortPermutes(posts, BoardOrder(now));
    RevenueOfSort(posts, BoardOrder(now));
    PinnedCountOfSort(posts, BoardOrder(now), t);
  }

  lemma {:induction false} SweepKeepsRevenue(posts: seq<Post>, now: int)
    ensures Revenue(ExpirePins(posts, now)) == Revenue(posts)
  {
    if posts != [] {
      var init := posts[..|posts| - 1];
      assert ExpirePins(posts, now)[..|posts| - 1] == ExpirePins(init, now);
      SweepKeepsRevenue(init, now);
    }
  }

  lemma {:induction false} SweepKeepsPinnedCount(posts: seq<Post>, now: int, t: int)
    requires now <= t
    ensures |Filter(ExpirePins(posts, now), PinnedAt(t))| == |Filter(posts, PinnedAt(t))|
  {
    if posts != [] {
      assert ExpirePins(posts, now)[1..] == ExpirePins(posts[1..], now);
      SweepKeepsEffectivePins(posts[0], now, t);
      SweepKeepsPinnedCount(posts[1..], now, t);
    }
  }

  /** Revenue is never reversed: the sweep leaves every statistic as it was, at the sweep's time or later. */
  lemma SweepKeepsStats(posts: seq<Post>, now: int, t: int)
    requires now <= t
    ensures Stats(ExpirePins(posts, now), t) == Stats(posts, t)
  {
    SweepKeepsRevenue(posts, now);
    SweepKeepsPinnedCount(posts, now, t);
  }

  // ---------------------------------------------------------------- demo seeding

  /** The five posts the board is seeded with when it is first shown. */
  const DEMO_POSTS: seq<PostDraft> := [
    PostDraft("\U{1F680} ETN Network Launch Announcement",
      "The ETN Network is officially live! Join us in revolutionizing decentralized communications with our bulletin board system. First 100 users get bonus rewards!",
      Some("https://etn.network"), Some("ETN Team"), true, Some(25 * NANO_PER_TON), Some("0x1234...abcd"), None),
    PostDraft("DeFi Summer 2.0 is Here",
      "New yield farming opportunities are emerging across multiple chains. Share your strategies and alpha in the comments. DYOR as always!",
      None, Some("CryptoAnalyst"), true, Some(15 * NANO_PER_TON), Some("0x5678...efgh"), None),
    PostDraft("NFT Collection Drop Tomorrow",
      "Excited to announce our new generative art collection dropping tomorrow at 3PM UTC. 10,000 unique pieces with utility in our metaverse.",
      Some("https://opensea.io/collection/example"), Some("ArtistDAO"), false, Some(12 * NANO_PER_TON), Some("0x9abc...ijkl"), None),
    PostDraft("Web3 Developer Meetup - Virtual Event",
      "Join us for a virtual meetup discussing the latest in smart contract development, Layer 2 solutions, and cross-chain protocols. Free for all attendees!",
      None, Some("DevCommunity"), false, Some(8 * NANO_PER_TON), Some("0xdef0...mnop"), None),
    PostDraft("Market Analysis: Bull Run Incoming?",
      "Technical analysis suggests we might be entering a new bull cycle. Key resistance levels to watch and potential breakout scenarios discussed.",
      None, Some("TradingPro"), false, Some(6 * NANO_PER_TON), Some("0x1111...2222"), None)
  ]

  /** Spacing of the demo timestamps: thirty minutes. */
  const DEMO_STAGGER_MS: int := 30 * 60 * 1000

  /** The `index`-th demo post: id `now + index`, created `index` half-hours ago, pinned for the next hour if marked pinned. */
  function SeedPost(draft: PostDraft, index: nat, now: int): Post {
    Post(now + index, draft.title, draft.content, draft.link, draft.author,
         now - index * DEMO_STAGGER_MS, draft.isPinned, draft.amount, draft.txHash,
         if draft.isPinned then Some(now + PIN_DURATION_MS) else None)
  }

  /** The list the seeding effect installs. */
  function DemoPosts(now: int): seq<Post> {
    seq(|DEMO_POSTS|, i requires 0 <= i < |DEMO_POSTS| => SeedPost(DEMO_POSTS[i], i, now))
  }

  /**
   * The seeded list has distinct ids and keeps its stored pins backed by an
   * expiry; two of its five posts are pinned and it holds 66 TON.
   */
  lemma DemoPostsFacts(now: int)
    ensures |DemoPosts(now)| == 5 && PinsHaveExpiry(DemoPosts(now))
    ensures forall i, j :: 0 <= i < j < 5 ==> DemoPosts(now)[i].id != DemoPosts(now)[j].id
    ensures Revenue(DemoPosts(now)) == 66 * NANO_PER_TON
    ensures Stats(DemoPosts(now), now).pinnedPosts == 2
  {
    var d := DemoPosts(now);
    assert d[..1][..0] == [];
    assert Revenue(d[..1]) == 25 * NANO_PER_TON;
    assert d[..2][..1] == d[..1];
    assert Revenue(d[..2]) == 40 * NANO_PER_TON;
    assert d[..3][..2] == d[..2];
    assert Revenue(d[..3]) == 52 * NANO_PER_TON;
    assert d[..4][..3] == d[..3];
    assert Revenue(d[..4]) == 60 * NANO_PER_TON;
    assert d[..5][..4] == d[..4];
    assert d[..5] == d;
    var pinned := PinnedAt(now);
    assert d[4..][1..] == [];
    assert Filter(d[4..], pinned) == [];
    assert d[3..][1..] == d[4..];
    assert Filter(d[3..], pinned) == [];
    assert d[2..][1..] == d[3..];
    assert Filter(d[2..], pinned) == [];
    assert d[1..][1..] == d[2..];
    assert Filter(d[1..], pinned) == [d[1]];
    assert Filter(d, pinned) == [d[0], d[1]];
  }

  // ---------------------------------------------------------------- the store

  /** The `posts` state of the post-manager hook and the operations that replace it. */
  class PostStore {
    var posts: seq<Post>

    ghost predicate Valid()
      reads this
    {
      PinsHaveExpiry(posts)
    }

    /** The hook's initial state: no posts. */
    constructor ()
      ensures Valid() && posts == []
    {
      posts := [];
    }

    /** The mount effect: replace the list by the demo posts. */
    method SeedDemo(now: int)
      modifies this
      ensures Valid() && posts == DemoPosts(now)
    {
      posts := DemoPosts(now);
      DemoPostsFacts(now);
    }

    /** `addPost`: the new post goes in front of the previous list, which follows unchanged. */
    method AddPost(draft: PostDraft, now: int)
      requires Valid()
      modifies this
      ensures Valid()
      ensures |posts| == |old(posts)| + 1
      ensures posts[0] == NewPost(draft, now) && posts[1..] == old(posts)
    {
      posts := [NewPost(draft, now)] + posts;
    }

    /** `deletePost`: drop every post with the id, keep the others in order. */
    method DeletePost(id: int)
      requires Valid()
      modifies this
      ensures Valid()
      ensures posts == WithoutId(old(posts), id)
    {
      posts := WithoutId(posts, id);
    }

    /**
     * One tick of the minute timer: clear the flag of every post whose pin
     * has lapsed. Afterwards each stored flag is the post's effective pin
     * state at `now`.
     */
    method ExpirePinsAt(now: int)
      requires Valid()
      modifies this
      ensures Valid()
      ensures posts == ExpirePins(old(posts), now)
      ensures forall i :: 0 <= i < |posts| ==> posts[i].isPinned == IsCurrentlyPinned(old(posts)[i], now)
    {
      SweepSyncsFlags(posts, now);
      posts := ExpirePins(posts, now);
    }
  }

  // ---------------------------------------------------------------- a scenario

  /**
   * A pinned post with the smaller amount goes before an unpinned one with
   * a larger amount; once its pin has lapsed and the sweep has run, the
   * order is by amount.
   */
  method PinThenExpireScenario(now: int) returns (before: seq<Post>, after: seq<Post>)
    ensures |before| == 2 && before[0].title == "A" && before[1].title == "B"
    ensures |after| == 2 && after[0].title == "B" && after[1].title == "A"
  {
    var store := new PostStore();
    var a := PostDraft("A", "a", None, None, true, Some(5), Some("tx-a"), None);
    var b := PostDraft("B", "b", None, None, false, Some(10), None, None);
    store.AddPost(a, now);
    store.AddPost(b, now + 1);
    var pa, pb := NewPost(a, now), NewPost(b, now + 1);
    assert store.posts == [pb, pa];
    assert [pb, pa][1..] == [pa] && [pa][1..] == [];
    assert SortBy([pa], BoardOrder(now + 2)) == [pa];
    assert IsCurrentlyPinned(pa, now + 2) && !IsCurrentlyPinned(pb, now + 2);
    assert !Precedes(BoardOrder(now + 2), pb, pa);
    assert Insert(pb, [pa], BoardOrder(now + 2)) == [pa] + Insert(pb, [], BoardOrder(now + 2));
    before := SortedPosts(store.posts, now + 2);
    assert before == [pa, pb];
    var later := now + PIN_DURATION_MS;
    store.ExpirePinsAt(later);
    var qa := pa.(isPinned := false);
    assert store.posts == [pb, qa];
    assert [pb, qa][1..] == [qa] && [qa][1..] == [];
    assert SortBy([qa], BoardOrder(later)) == [qa];
    assert Precedes(BoardOrder(later), pb, qa);
    after := SortedPosts(store.posts, later);
    assert after == [pb, qa];
  }
}
