/**
 * `Array.prototype.sort` with a comparator, which the ECMAScript standard
 * (since its 2019 edition) requires to be stable. A comparator returns a
 * negative number when its first argument goes first, a positive one when the
 * second does, and zero for a tie. The model is an insertion sort, which is
 * stable; the lemmas show that its result is a permutation, ordered by the
 * comparator, and that tied elements keep their input order. Those three
 * facts determine the result of any stable sort.
 */
module Sorting {
  import opened Sequences

  /** `a` may stand before `b`. */
  predicate Precedes<T>(cmp: (T, T) -> int, a: T, b: T) {
    cmp(a, b) <= 0
  }

  /** Neither of `a` and `b` has to go first. */
  predicate Tied<T>(cmp: (T, T) -> int, a: T, b: T) {
    cmp(a, b) <= 0 && cmp(b, a) <= 0
  }

  /** What a comparator must satisfy for sorting to be meaningful: a total preorder. */
  ghost predicate IsTotalPreorder<T(!new)>(cmp: (T, T) -> int) {
    && (forall a, b :: Precedes(cmp, a, b) || Precedes(cmp, b, a))
    && (forall a, b, c :: Precedes(cmp, a, b) && Precedes(cmp, b, c) ==> Precedes(cmp, a, c))
  }

  /** Every element may stand before every later one. */
  predicate SortedBy<T>(s: seq<T>, cmp: (T, T) -> int) {
    forall i, j :: 0 <= i < j < |s| ==> Precedes(cmp, s[i], s[j])
  }

  /** Places `x` in front of the first element it may precede. */
  function Insert<T>(x: T, s: seq<T>, cmp: (T, T) -> int): seq<T> {
    if s == [] || Precedes(cmp, x, s[0]) then [x] + s
    else [s[0]] + Insert(x, s[1..], cmp)
  }

  /** The stable sort of `s` under `cmp`. */
  function SortBy<T>(s: seq<T>, cmp: (T, T) -> int): seq<T> {
    if s == [] then [] else Insert(s[0], SortBy(s[1..], cmp), cmp)
  }

  lemma {:induction false} InsertPermutes<T>(x: T, s: seq<T>, cmp: (T, T) -> int)
    ensures multiset(Insert(x, s, cmp)) == multiset(s) + multiset{x}
  {
    if s != [] && !Precedes(cmp, x, s[0]) {
      InsertPermutes(x, s[1..], cmp);
      assert s == [s[0]] + s[1..];
    }
  }

  /** Sorting only rearranges: the result has the same elements with the same multiplicities. */
  lemma {:induction false} SortPermutes<T>(s: seq<T>, cmp: (T, T) -> int)
    ensures multiset(SortBy(s, cmp)) == multiset(s)
    ensures |SortBy(s, cmp)| == |s|
  {
    if s != [] {
      SortPermutes(s[1..], cmp);
      InsertPermutes(s[0], SortBy(s[1..], cmp), cmp);
      assert s == [s[0]] + s[1..];
    }
    assert |multiset(SortBy(s, cmp))| == |multiset(s)|;
  }

  lemma {:induction false} InsertSorted<T(!new)>(x: T, s: seq<T>, cmp: (T, T) -> int)
    requires IsTotalPreorder(cmp)
    requires SortedBy(s, cmp)
    ensures SortedBy(Insert(x, s, cmp), cmp)
  {
    if s != [] && !Precedes(cmp, x, s[0]) {
      InsertSorted(x, s[1..], cmp);
      InsertPermutes(x, s[1..], cmp);
      var r := Insert(x, s[1..], cmp);
      forall k | 0 <= k < |r| ensures Precedes(cmp, s[0], r[k]) {
        assert r[k] in multiset(s[1..]) + multiset{x};
        if r[k] == x {
        } else {
          assert r[k] in s[1..];
        }
      }
    }
  }

  /** The result of sorting is ordered by the comparator. */
  lemma {:induction false} SortSorted<T(!new)>(s: seq<T>, cmp: (T, T) -> int)
    requires IsTotalPreorder(cmp)
    ensures SortedBy(SortBy(s, cmp), cmp)
  {
    if s != [] {
      SortSorted(s[1..], cmp);
      InsertSorted(s[0], SortBy(s[1..], cmp), cmp);
    }
  }

  /** The test "tied with `e`", as a filter. */
  function TiedWith<T>(cmp: (T, T) -> int, e: T): T -> bool {
    x => Tied(cmp, x, e)
  }

  lemma {:induction false} InsertStable<T(!new)>(x: T, s: seq<T>, cmp: (T, T) -> int, e: T)
    requires IsTotalPreorder(cmp)
    ensures Filter(Insert(x, s, cmp), TiedWith(cmp, e)) == Filter([x], TiedWith(cmp, e)) + Filter(s, TiedWith(cmp, e))
  {
    var tied := TiedWith(cmp, e);
    if s == [] || Precedes(cmp, x, s[0]) {
      FilterConcat([x], s, tied);
    } else {
      InsertStable(x, s[1..], cmp, e);
      if tied(x) && tied(s[0]) {
        assert Precedes(cmp, x, e) && Precedes(cmp, e, s[0]);
        assert false;
      }
      assert s == [s[0]] + s[1..];
      FilterConcat([s[0]], s[1..], tied);
      FilterConcat([s[0]], Insert(x, s[1..], cmp), tied);
    }
  }

  /**
   * Stability: the elements tied with any `e` appear in the result in the
   * same order as in the input.
   */
  lemma {:induction false} SortStable<T(!new)>(s: seq<T>, cmp: (T, T) -> int, e: T)
    requires IsTotalPreorder(cmp)
    ensures Filter(SortBy(s, cmp), TiedWith(cmp, e)) == Filter(s, TiedWith(cmp, e))
  {
    if s != [] {
      SortStable(s[1..], cmp, e);
      InsertStable(s[0], SortBy(s[1..], cmp), cmp, e);
      assert s == [s[0]] + s[1..];
      FilterConcat([s[0]], s[1..], TiedWith(cmp, e));
    }
  }

  lemma {:induction false} InsertMap<T>(x: T, s: seq<T>, cmp: (T, T) -> int, f: T -> T)
    requires forall a, b :: cmp(f(a), f(b)) == cmp(a, b)
    ensures Insert(f(x), Map(s, f), cmp) == Map(Insert(x, s, cmp), f)
  {
    if s != [] {
      assert Map(s, f)[1..] == Map(s[1..], f);
      if !Precedes(cmp, x, s[0]) {
        InsertMap(x, s[1..], cmp, f);
      }
    }
  }

  /**
   * Rewriting every element in a way the comparator cannot see commutes with
   * sorting: sorting the rewritten sequence gives the rewritten sorted one.
   */
  lemma {:induction false} SortMap<T>(s: seq<T>, cmp: (T, T) -> int, f: T -> T)
    requires forall a, b :: cmp(f(a), f(b)) == cmp(a, b)
    ensures SortBy(Map(s, f), cmp) == Map(SortBy(s, cmp), f)
  {
    if s != [] {
      assert Map(s, f)[1..] == Map(s[1..], f);
      SortMap(s[1..], cmp, f);
      InsertMap(s[0], SortBy(s[1..], cmp), cmp, f);
    }
  }
}
