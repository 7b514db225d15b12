# ETN board — a verified model of the post manager, board and post form

ETN board is a web message board. A post is paid for in TON. A paid post is
pinned to the top of the board for one hour. After that it ranks by the amount
paid. This project models the three parts of the application that hold its
logic:

- **the post manager** (`hooks/use-post-manager.ts`). It holds the list of posts,
  seeds five demo posts, adds a post at the front, deletes by id, runs a
  once-a-minute sweep that clears lapsed pins, sorts posts for the board (pinned
  first, then amount, then newest) and computes the statistics panel;
- **the board** (`components/post-board.tsx`). It pages through the sorted posts
  ten at a time. It works out whether a pin is still live and renders "time left".
  It ranks paid posts by amount and picks the badges (Pinned, Top Paid, #2, #3,
  pin note);
- **the post form** (`components/post-form.tsx`). It validates the payment
  amount, gates the submit button and turns the form into a new post once the
  payment succeeds.

Modules:

- `Wrappers`: `Option`.
- `Sequences`: filter and map over sequences, with their laws.
- `Sorting`: a comparator-driven stable sort, proved to be a sorted, stable
  permutation. It stands in for `Array.prototype.sort`, which ECMAScript 2019
  and later requires to be stable.
- `Text`: ECMAScript `trim` whitespace, decimal rendering of naturals and its
  parser.
- `Posts`: the post record and the "currently pinned" test.
- `PostManager`: the store. Its pure operations are functions; the stateful hook
  is the class `PostStore`.
- `PostBoard`: ranking, time remaining, badges, paging, and the class `Board`
  for the paging state.
- `PostForm`: the payload builder and the class `Form` with the handlers.

Units:

- **Amounts** are natural numbers of nano-TON (10^9 per TON). An absent amount
  counts as 0, as `amount || 0` does.
- **Times** are integer milliseconds. The current time is always passed in as
  `now`.
- **The average payment** is an exact `real`.

Some behaviour of the code is easy to miss, and the model keeps it as written:

- **The code does not guarantee unique ids.** Post ids are the creation time in
  milliseconds, and nothing stops two posts from sharing one.
  `PostBoard.SharedIdSharesRank` shows that a post with a shared id takes the
  rank of the first post with that id. Undoing an add by deleting
  its id fails when an older post was created in the same millisecond: the
  older post is deleted too (`PostManager.DeleteUndoesAdd`).
- **The board comparator has no key after the timestamp.** Posts tied on pin
  state, amount and timestamp keep their list order because the sort is stable.
- **The store accepts blank titles.** `addPost` does not check its input. Only
  the form rejects blank titles and blank contents.
- **Demo pins ignore the staggered timestamps.** Each pinned demo post expires
  one hour after seeding, whatever its timestamp.

## Model

| member | source | states |
|---|---|---|
| Posts.IsCurrentlyPinned | components/post-board.tsx:71-74 | definition: the stored flag is set, an expiry is present and it lies after the given instant (the same test as hooks/use-post-manager.ts lines 121 and 150) |
| PostManager.NewPost | hooks/use-post-manager.ts:97-103 | definition: the draft's fields with id and timestamp from the clock and an expiry one hour later when pinned |
| PostManager.WithoutId | hooks/use-post-manager.ts:113 | definition: the posts whose id differs from the given one, in order |
| PostManager.ExpirePin | hooks/use-post-manager.ts:84-89 | definition: clears the flag of a flagged post whose expiry is at or before the given instant |
| PostManager.ExpirePins | hooks/use-post-manager.ts:83-90 | definition: the pin-expiry step applied to every post |
| PostManager.CompareForBoard | hooks/use-post-manager.ts:117-145 | definition: -1 or 1 when exactly one post is currently pinned, else the amount difference (larger first), else the timestamp difference (newer first) |
| PostManager.SortedPosts | hooks/use-post-manager.ts:116-146 | definition: the stable sort of the list by the board comparator at one instant |
| PostManager.Revenue | hooks/use-post-manager.ts:151 | definition: the sum of the amounts, an absent amount counting as 0 |
| PostManager.SeedPost | hooks/use-post-manager.ts:72-77 | definition: the demo post at an index, with id now plus index, a timestamp half an hour earlier per index, and an expiry an hour after seeding when pinned |
| PostManager.DemoPosts | hooks/use-post-manager.ts:72-77 | definition: the five demo drafts seeded in order |
| PostBoard.AmountRanking | components/post-board.tsx:93 | definition: the paid posts, stably sorted by amount, largest first |
| PostBoard.RankPosition | components/post-board.tsx:94 | definition: one more than the first index of the post's id in the amount ranking |
| PostBoard.PostRank | components/post-board.tsx:91-96 | definition: none for an unpaid post, otherwise the rank position when it is at most 3 |
| PostBoard.TimeRemaining | components/post-board.tsx:76-89 | definition: "Expired" when no time is left, else "{h}h {m}m left" when at least an hour is left, else "{m}m left", in whole minutes rounded down |
| PostBoard.BadgesFor | components/post-board.tsx:156-186 | definition: the four badge conditions of a card at one instant |
| PostBoard.NextPage | components/post-board.tsx:39-43 | definition: the shown posts followed by the next slice of up to ten |
| PostBoard.ShownAfter | components/post-board.tsx:49 | definition: the first page followed by the given number of loads |
| PostForm.OptionalField | components/post-form.tsx:62-63 | definition: the trimmed text, or absent when that is empty |
| PostForm.BuildPayload | components/post-form.tsx:59-67 | definition: trimmed title and content, optional link and author, pinned, with the payment's amount and transaction hash |
| PostForm.AmountAcceptable | components/post-form.tsx:35-36 | definition: the parsed amount is a number and at least 0.001 TON |
| PostForm.Form.CanSubmit | components/post-form.tsx:188 | definition: trimmed title and content are non-empty and no amount error is shown |
| Posts.AmountOf | hooks/use-post-manager.ts:130-131 | definition: the amount, or 0 when absent, the fallback the comparator and the revenue sum use |
| Posts.IsPaid | components/post-board.tsx:92-93 | definition: the amount is present and non-zero, the truthiness test of `post.amount` |
| Sorting.SortBy | hooks/use-post-manager.ts:117 | definition: a stable insertion sort by a comparator, standing in for `Array.prototype.sort` (also components/post-board.tsx line 93) |
| PostBoard.CompareByAmount | components/post-board.tsx:93 | definition: the amount of the second post minus the amount of the first, so larger amounts come first |
| Text.NatToString | components/post-board.tsx:86-88 | definition: the decimal rendering of a natural number, as a template literal prints it |
| Text.Trim | components/post-form.tsx:47 | definition: ECMAScript whitespace and line terminators removed from both ends |
| Posts.PinLapseIsFinal | components/post-board.tsx:71-74 | a post that is not currently pinned at some time is not currently pinned at any later time |
| PostManager.NewPostFields | hooks/use-post-manager.ts:97-103 | a new post keeps every field of the draft, takes id and timestamp from the clock, and gets a pin expiry one hour later exactly when the draft is pinned |
| PostManager.NewPostPinWindow | hooks/use-post-manager.ts:102 | a new post is currently pinned at time t exactly when the draft was pinned and t is before creation time plus one hour |
| PostManager.DemoPostsFacts | hooks/use-post-manager.ts:18-79 | seeding yields five posts with distinct ids; every pinned post has an expiry; revenue is 66 TON; two are pinned at seeding time |
| PostManager.PostStore.constructor | hooks/use-post-manager.ts:69 | the store starts with no posts |
| PostManager.PostStore.SeedDemo | hooks/use-post-manager.ts:71-79 | the store then holds exactly the seeded demo posts |
| PostManager.PostStore.AddPost | hooks/use-post-manager.ts:97-110 | the new post goes in front and the old list follows it unchanged |
| PostManager.PostStore.DeletePost | hooks/use-post-manager.ts:112-114 | the store keeps exactly the posts whose id differs from the one deleted |
| PostManager.DeleteRemovesExactlyTheId | hooks/use-post-manager.ts:112-114 | no survivor has the id; every post with another id survives; the length drops by the number of posts with that id |
| PostManager.DeleteKeepsOrder | hooks/use-post-manager.ts:113 | two survivors keep their relative order |
| PostManager.DeleteAbsentAndTwice | hooks/use-post-manager.ts:112-114 | deleting an absent id changes nothing, and deleting twice is the same as deleting once |
| PostManager.DeleteUndoesAdd | hooks/use-post-manager.ts:97-114 | deleting the id of a post just added restores the previous list exactly when no earlier post has that id |
| PostManager.PostStore.ExpirePinsAt | hooks/use-post-manager.ts:81-95 | one sweep maps every post through the pin-expiry step, so each pinned flag becomes whether the post was currently pinned |
| PostManager.SweepChangesOnlyLapsedFlags | hooks/use-post-manager.ts:83-90 | a sweep keeps the length, clears the pinned flag of exactly the lapsed pins and leaves every other field and post as it was |
| PostManager.SweepsCompose | hooks/use-post-manager.ts:82-91 | a sweep at t1 followed by one at a later t2 equals the sweep at t2 alone |
| PostManager.SweepKeepsEffectivePins | hooks/use-post-manager.ts:85 | a sweep does not change whether a post counts as currently pinned at any later time |
| PostManager.SweepSyncsFlags | hooks/use-post-manager.ts:82-91 | after a sweep the stored pinned flag equals the live pin test whenever each pinned post has an expiry |
| PostManager.BoardPrecedesByKey | hooks/use-post-manager.ts:117-145 | a post goes no later than another exactly when it is pinned and the other is not, or when they share pin state and it has a larger amount, or an equal amount and a timestamp no older |
| PostManager.BoardTiedByKey | hooks/use-post-manager.ts:129-142 | two posts tie exactly when they agree on live pin state, amount and timestamp |
| PostManager.BoardOrderIsTotalPreorder | hooks/use-post-manager.ts:117-145 | the board comparator is reflexive, total and transitive, so sorting by it is well defined |
| PostManager.SortedPostsCorrect | hooks/use-post-manager.ts:116-146 | the sorted board is a permutation of the posts, is ordered pinned first then by amount and then newest first, and keeps tied posts in list order |
| PostManager.SweepKeepsBoardOrder | hooks/use-post-manager.ts:82-126 | sorting after a sweep gives the swept sorted list: the sweep never changes the board order |
| PostManager.Stats | hooks/use-post-manager.ts:148-159 | the total is the number of posts; pinned posts never exceed it; the average is 0 for no posts, otherwise average times total equals revenue |
| PostManager.RevenueConcat | hooks/use-post-manager.ts:151 | revenue over two lists concatenated is the sum of their revenues |
| PostManager.StatsAfterAdd | hooks/use-post-manager.ts:151-157 | adding a post adds its amount to the revenue; a single post's average is its own amount |
| PostManager.StatsIgnoreOrder | hooks/use-post-manager.ts:148-159 | statistics of the sorted board equal those of the stored list |
| PostManager.SweepKeepsStats | hooks/use-post-manager.ts:148-159 | a sweep changes no statistic at the same or any later time |
| PostManager.PinThenExpireScenario | hooks/use-post-manager.ts:116-126 | a pinned post paying less goes above an unpinned one paying more, and after its hour and a sweep goes below it |
| Sorting.SortPermutes | hooks/use-post-manager.ts:117 | sorting keeps the length and the multiset of elements |
| Sorting.SortSorted | hooks/use-post-manager.ts:117 | under a total preorder the sorted list is ordered by the comparator |
| Sorting.SortStable | hooks/use-post-manager.ts:117 | the elements tied with any element keep their relative order |
| Sorting.SortMap | hooks/use-post-manager.ts:117 | a map that does not change any comparison commutes with sorting |
| PostBoard.IndexOfId | components/post-board.tsx:94 | the result is the first index holding the id, or -1 when no post has it |
| PostBoard.AmountOrderIsTotalPreorder | components/post-board.tsx:93 | the amount comparator is a total preorder |
| PostBoard.PostRankRange | components/post-board.tsx:91-96 | an unpaid post has no rank; a paid post on the board has a position among the paid posts, and its rank is that position when it is 1 to 3 and none otherwise |
| PostBoard.RankedEntryIsPost | components/post-board.tsx:93-94 | with distinct ids a paid post sits in the amount ranking at the position its rank names |
| PostBoard.RankFollowsAmount | components/post-board.tsx:93-95 | a post that paid more ranks strictly ahead of one that paid less |
| PostBoard.RankTiesFollowListOrder | components/post-board.tsx:93-95 | of two posts that paid the same, the one earlier in the list ranks ahead |
| PostBoard.RankOneIsTopPaid | components/post-board.tsx:91-96 | the post ranked first paid at least as much as any post on the board |
| PostBoard.SharedIdSharesRank | components/post-board.tsx:94 | a post sharing its id with a higher-paying post is given that post's rank 1 |
| PostBoard.TimeRemainingExpired | components/post-board.tsx:76-80 | the label is "Expired" exactly when no time is left |
| PostBoard.TimeRemainingReadsBack | components/post-board.tsx:76-89 | a live pin's label reads back as hours and minutes that add up to the whole minutes left, with minutes under 60 and hours shown only when non-zero |
| PostBoard.BadgesExclusive | components/post-board.tsx:156-180 | at most one of Pinned, Top Paid and #n shows; rank badges are hidden while pinned; #n is 2 or 3; Top Paid shows exactly for rank 1 when not pinned |
| PostBoard.PinNoteCases | components/post-board.tsx:182-186 | a note shows exactly for a post flagged pinned with an expiry; it reads "Pin expired" exactly when the pin has lapsed, and never "Expired" |
| PostBoard.Slice | components/post-board.tsx:40 | a clamped slice holds the elements from start up to the smaller of end and the length |
| PostBoard.NextPageExtendsPrefix | components/post-board.tsx:39-43 | loading the next page extends the shown prefix by up to ten posts |
| PostBoard.ShownAfterLoads | components/post-board.tsx:32-52 | after the first page and n further loads the board shows the first 10·(n+1) posts, or all of them |
| PostBoard.Board.constructor | components/post-board.tsx:26-28 | a new board shows nothing, expects more and is not loading |
| PostBoard.Board.ShowPosts | components/post-board.tsx:48-52 | a new post list shows its first page, and more remain exactly when it has more than ten posts |
| PostBoard.Board.LoadMorePosts | components/post-board.tsx:32-35 | a load starts exactly when none is in progress and more remain; only the loading flag changes |
| PostBoard.Board.FinishLoading | components/post-board.tsx:38-45 | the next page is appended, more remain exactly when not every post is shown, and loading ends |
| Text.TrimSlice | components/post-form.tsx:47 | a trimmed string is a slice of the input with only whitespace cut off either end and no whitespace at its own ends |
| Text.TrimEmptyIffBlank | components/post-form.tsx:47 | trimming gives the empty string exactly when the input is all whitespace |
| Text.TrimIdempotent | components/post-form.tsx:60-63 | trimming twice is trimming once |
| Text.NatToStringRoundTrip | components/post-board.tsx:86-88 | a number rendered in decimal parses back to itself |
| PostForm.PayloadShape | components/post-form.tsx:58-69 | the payload has the trimmed title and content; link and author are absent exactly when blank and otherwise trimmed; it is pinned and carries the amount and transaction hash |
| PostForm.PaidPostPinnedForAnHour | components/post-form.tsx:58-69 | a post made from a paid form is currently pinned for the hour after it is added |
| PostForm.CanSubmitIffNotBlank | components/post-form.tsx:188 | the submit button is enabled exactly when title and content are not blank and no amount error is shown |
| PostForm.Form.constructor | components/post-form.tsx:26-32 | the form starts empty with amount "0.001", no error and no wallet step |
| PostForm.Form.ValidateAmount | components/post-form.tsx:34-42 | the amount is accepted exactly when it parses to at least 0.001 TON; the error message is set on rejection and cleared on acceptance |
| PostForm.Form.ChangeAmount | components/post-form.tsx:170-175 | the amount text is stored; a non-empty value is revalidated, and an empty one leaves the error as it was |
| PostForm.Form.HandleFormSubmit | components/post-form.tsx:44-56 | the wallet step opens exactly when title and content are not blank and the amount is valid; with a blank field the amount is not validated |
| PostForm.Form.HandlePaymentSuccess | components/post-form.tsx:58-78 | the post built from the trimmed fields goes to the front of the store, and every field is reset |
| PostForm.Form.HandleCancel | components/post-form.tsx:80-82 | the wallet step closes |

## Left out

- Timers are not modelled. The one-minute `setInterval` sweep is the method `PostStore.ExpirePinsAt`. The 500 ms loading delay is the split between `Board.LoadMorePosts` and `Board.FinishLoading`. The `IntersectionObserver` is whoever calls `LoadMorePosts`.
- The wall clock is a parameter `now`. In the source the sort comparator reads the clock on every comparison. The model uses one instant per sort, because a clock that moves during a sort has no defined result.
- The demo seeding reads the clock several times. The model reads it once, so ids are `now + index`.
- PostManager.NewPost: uses one instant for id, timestamp and expiry. `addPost` reads the clock three times, so these may differ by a millisecond or so; `PostStore.AddPost` inherits this.
- PostManager.ExpirePins: uses one instant for the whole sweep. The source reads the clock once per post; `PostStore.ExpirePinsAt` inherits this.
- PostBoard.BadgesFor: uses one instant for the whole card. The source reads the clock once in `isCurrentlyPinned` and again in `getTimeRemaining`, so a pin that lapses between the two reads shows "Expired" under the Pinned badge. `PinNoteCases` says the note is never "Expired" only for this one-instant model.
- Floating point is not modelled. Amounts are nano-TON integers, and the average payment is an exact rational rather than an IEEE double.
- `Number.parseFloat` is an abstract `parse` function held by the form. It yields the amount in nano-TON, or nothing where the source gets NaN. Its decimal parsing is not modelled.
- `console.log` calls are left out because they have no effect on state.
- React rendering, JSX layout, CSS classes, the card highlight, `toLocaleTimeString` and the empty-board and end-of-board texts are left out. Only the conditions that pick badges and notes are modelled.
- PostForm.Form.HandleFormSubmit: models the submit handler only. The form has no `noValidate`, so the browser's own checks run first: `required` on title, content and amount, `type="url"` on the link, and `min`/`step` of 0.001 on the amount. Where one fails, the handler never runs. So in the program the wallet view opens only when those checks also pass. Examples: a link without a scheme, an amount such as 0.0015 that is off the step, or an emptied amount field, which leaves the error as it was.
- PostBoard.Board.ShowPosts: runs when the caller hands over a new list. The source's effect runs whenever the array's identity changes. Each render passes a freshly sorted array, and each sweep builds a new one, so in the source the board drops back to its first ten posts after every sweep and re-render. That re-render schedule is not modelled.
- PostBoard.Board.FinishLoading: reads the board's current state. The source's delayed callback reads the `displayedPosts` captured when the load started, which is stale if the posts change meanwhile.
- The onChange setters of the title, content, link and author fields are left out. Each only stores the typed text.
- The wallet hook, the wallet-connect dialog, the delete-confirmation dialog, navigation, the stats card, the pages and the layout are not part of this model. The payment result enters as the parameters of `HandlePaymentSuccess`.
- `isPinned` is optional in the source. It is a `bool` here, with absent read as `false`, the same as every test in the source.
- PostBoard.RankFollowsAmount: requires distinct ids, because with a shared id the rank belongs to the first post with that id (see `SharedIdSharesRank`).
- PostBoard.RankTiesFollowListOrder: requires distinct ids, for the same reason.
- PostBoard.RankOneIsTopPaid: requires distinct ids, for the same reason.
- PostBoard.RankedEntryIsPost: requires distinct ids, for the same reason.
