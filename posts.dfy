/**
 * The board's one entity, the post, as both the post manager and the board
 * declare it. Times are milliseconds since the epoch; amounts are whole
 * nano-TON (the unit the wallet converts payments into), so that
 * 0.001 TON is 1,000,000.
 */
module Posts {
  import opened Wrappers

  /** How long a paid pin lasts: one hour. */
  const PIN_DURATION_MS: int := 60 * 60 * 1000

  /** Nano-TON in one TON. */
  const NANO_PER_TON: nat := 1_000_000_000

  /**
   * A post. `isPinned` is the stored flag (an absent flag behaves as `false`
   * everywhere it is read); `pinExpiry` is kept after the pin lapses.
   */
  datatype Post = Post(
    id: int,
    title: string,
    content: string,
    link: Option<string>,
    author: Option<string>,
    timestamp: int,
    isPinned: bool,
    amount: Option<nat>,
    txHash: Option<string>,
    pinExpiry: Option<int>)

  /** A post before the store has given it an id and a creation time. */
  datatype PostDraft = PostDraft(
    title: string,
    content: string,
    link: Option<string>,
    author: Option<string>,
    isPinned: bool,
    amount: Option<nat>,
    txHash: Option<string>,
    pinExpiry: Option<int>)

  /** The amount paid, with an absent amount counting as 0. */
  function AmountOf(p: Post): nat {
    p.amount.GetOr(0)
  }

  /** The post shows a paid amount (the source tests `post.amount` for truthiness). */
  predicate IsPaid(p: Post) {
    AmountOf(p) != 0
  }

  /**
   * The effective pin state: the stored flag is set and the expiry is still
   * in the future. The stored flag may lag behind until the next sweep.
   */
  predicate IsCurrentlyPinned(p: Post, now: int) {
    p.isPinned && p.pinExpiry.Some? && p.pinExpiry.value > now
  }

  /** Once a pin has lapsed it stays lapsed as the clock advances. */
  lemma PinLapseIsFinal(p: Post, t1: int, t2: int)
    requires t1 <= t2
    ensures !IsCurrentlyPinned(p, t1) ==> !IsCurrentlyPinned(p, t2)
  {
  }
}
