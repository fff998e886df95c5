/**
 * The Durstenfeld shuffle both the Python game (`random.shuffle`) and the
 * web game (`shuffleArray`) use, and the repeated blocks they shuffle.
 */
module Shuffling {
  /** The swap partner for each step: for step i, an index in [0, i]. */
  ghost predicate ValidPicks(pick: nat -> int) {
    forall k: nat :: 0 <= pick(k) <= k
  }

  /** Exchanges two entries. */
  function Swap<T>(s: seq<T>, i: nat, j: nat): (r: seq<T>)
    requires i < |s| && j < |s|
    ensures |r| == |s|
  {
    s[i := s[j]][j := s[i]]
  }

  /** A swap exchanges entries i and j and leaves every other entry where it was. */
  lemma SwapExchanges<T>(s: seq<T>, i: nat, j: nat)
    requires i < |s| && j < |s|
    ensures Swap(s, i, j)[i] == s[j] && Swap(s, i, j)[j] == s[i]
    ensures forall k :: 0 <= k < |s| && k != i && k != j ==> Swap(s, i, j)[k] == s[k]
  {
  }

  /** A swap only reorders: the entries, counted with multiplicity, stay the same. */
  lemma SwapPermutes<T>(s: seq<T>, i: nat, j: nat)
    requires i < |s| && j < |s|
    ensures multiset(Swap(s, i, j)) == multiset(s)
  {
    var t := s[i := s[j]];
    assert multiset(t) == multiset(s) - multiset{s[i]} + multiset{s[j]};
    assert multiset(t[j := s[i]]) == multiset(t) - multiset{t[j]} + multiset{s[i]};
  }

  /**
   * The steps i, i-1, ..., 1 of the shuffle: step k swaps entry k with the
   * entry its pick names.
   */
  function ShuffleDown<T>(s: seq<T>, i: nat, pick: nat -> int): (r: seq<T>)
    requires i < |s|
    requires ValidPicks(pick)
    ensures |r| == |s|
    decreases i
  {
    if i == 0 then s else ShuffleDown(Swap(s, i, pick(i)), i - 1, pick)
  }

  /** The steps only reorder the entries. */
  lemma {:induction false} ShuffleDownPermutes<T>(s: seq<T>, i: nat, pick: nat -> int)
    requires i < |s|
    requires ValidPicks(pick)
    ensures multiset(ShuffleDown(s, i, pick)) == multiset(s)
    decreases i
  {
    if i > 0 {
      SwapPermutes(s, i, pick(i));
      ShuffleDownPermutes(Swap(s, i, pick(i)), i - 1, pick);
    }
  }

  /** Entries above i are never touched by the steps i down to 1. */
  lemma {:induction false} ShuffleDownKeepsAbove<T>(s: seq<T>, i: nat, pick: nat -> int, k: nat)
    requires i < k < |s|
    requires ValidPicks(pick)
    ensures ShuffleDown(s, i, pick)[k] == s[k]
    decreases i
  {
    if i > 0 {
      var t := Swap(s, i, pick(i));
      assert t[k] == s[k];
      ShuffleDownKeepsAbove(t, i - 1, pick, k);
    }
  }

  /** The whole shuffle: every step from the last index down to 1. */
  function Shuffled<T>(s: seq<T>, pick: nat -> int): (r: seq<T>)
    requires ValidPicks(pick)
    ensures |r| == |s|
    ensures multiset(r) == multiset(s)
  {
    if |s| == 0 then s
    else
      ShuffleDownPermutes(s, |s| - 1, pick);
      ShuffleDown(s, |s| - 1, pick)
  }

  /**
   * The last entry is settled by the first step: it is the entry the pick
   * for the last index names, which is what a following `pop` returns.
   */
  lemma ShuffledLast<T>(s: seq<T>, pick: nat -> int)
    requires ValidPicks(pick)
    requires |s| > 0
    ensures Shuffled(s, pick)[|s| - 1] == s[pick(|s| - 1)]
  {
    var n := |s| - 1;
    if n > 0 {
      var t := Swap(s, n, pick(n));
      assert ShuffleDown(s, n, pick) == ShuffleDown(t, n - 1, pick);
      ShuffleDownKeepsAbove(t, n - 1, pick, n);
    }
  }

  /** When every step picks its own index, nothing moves. */
  lemma {:induction false} ShuffleDownSelfPicks<T>(s: seq<T>, i: nat, pick: nat -> int)
    requires i < |s|
    requires forall k: nat :: pick(k) == k
    ensures ShuffleDown(s, i, pick) == s
  {
    assert ValidPicks(pick);
    if i > 0 {
      assert Swap(s, i, i) == s;
      ShuffleDownSelfPicks(s, i - 1, pick);
    }
  }

  /** `k` copies of `s`, one after the other, as a loop appending `s` k times builds them. */
  function Repeated<T>(s: seq<T>, k: nat): seq<T> {
    if k == 0 then [] else Repeated(s, k - 1) + s
  }

  /** k times n, kept as a named product. */
  function Times(k: nat, n: nat): nat { k * n }

  /** One more factor adds one more k; so with n >= 1 the product is at least k. */
  lemma TimesStep(k: nat, n: nat)
    requires n > 0
    ensures Times(k, n - 1) + k == Times(k, n)
    ensures Times(k, n) >= k
  {
    assert k * (n - 1) + k == k * n;
    assert k * n - k == k * (n - 1);
  }

  /** k copies of s have k times its length and k times each of its counts. */
  lemma {:induction false} RepeatedCounts<T>(s: seq<T>, k: nat)
    ensures |Repeated(s, k)| == Times(k, |s|)
    ensures forall x :: multiset(Repeated(s, k))[x] == Times(k, multiset(s)[x])
  {
    if k > 0 {
      RepeatedCounts(s, k - 1);
      assert Times(k, |s|) == Times(k - 1, |s|) + |s|;
      assert multiset(Repeated(s, k)) == multiset(Repeated(s, k - 1)) + multiset(s);
      forall x
        ensures multiset(Repeated(s, k))[x] == Times(k, multiset(s)[x])
      {
        assert Times(k, multiset(s)[x]) == Times(k - 1, multiset(s)[x]) + multiset(s)[x];
      }
    }
  }

  /** k copies of a single entry are k entries, all of them that entry. */
  lemma {:induction false} RepeatedSingle<T>(x: T, k: nat)
    ensures |Repeated([x], k)| == k
    ensures forall i :: 0 <= i < k ==> Repeated([x], k)[i] == x
  {
    if k > 0 {
      RepeatedSingle(x, k - 1);
    }
  }
}
