/**
 * The in-place `sort` the popup runs on card arrays, ordered by
 * `schedule.nextReview` ascending, and the review-queue selection around it.
 */
module Sorting {
  import opened Seqs
  import opened Cards

  function Due(c: Flashcard): int {
    c.schedule.nextReview
  }

  predicate SortedByNextReview(s: seq<Flashcard>) {
    forall i, j :: 0 <= i < j < |s| ==> Due(s[i]) <= Due(s[j])
  }

  /** `sort((a, b) => time(a) - time(b))` on an array: sorted ascending, and a permutation of the input. */
  method SortByNextReview(a: array<Flashcard>)
    modifies a
    ensures SortedByNextReview(a[..])
    ensures multiset(a[..]) == multiset(old(a[..]))
  {
    var i := 0;
    while i < a.Length
      invariant 0 <= i <= a.Length
      invariant SortedByNextReview(a[..i])
      invariant multiset(a[..]) == multiset(old(a[..]))
    {
      InsertLast(a, i);
      i := i + 1;
    }
    assert a[..a.Length] == a[..];
  }

  /** Moves `a[i]` down into the sorted prefix `a[..i]`, leaving `a[..i + 1]` sorted. */
  method InsertLast(a: array<Flashcard>, i: nat)
    requires i < a.Length
    requires SortedByNextReview(a[..i])
    modifies a
    ensures SortedByNextReview(a[..i + 1])
    ensures multiset(a[..]) == multiset(old(a[..]))
  {
    var j := i;
    while j > 0 && Due(a[j - 1]) > Due(a[j])
      invariant 0 <= j <= i
      invariant forall p, q :: 0 <= p < q <= i && p != j && q != j ==> Due(a[p]) <= Due(a[q])
      invariant forall q :: j < q <= i ==> Due(a[j]) < Due(a[q])
      invariant multiset(a[..]) == multiset(old(a[..]))
    {
      Swap(a, j - 1, j);
      j := j - 1;
    }
  }

  method Swap(a: array<Flashcard>, i: nat, j: nat)
    requires i < a.Length && j < a.Length
    modifies a
    ensures a[..] == old(a[..])[i := old(a[j])][j := old(a[i])]
    ensures multiset(a[..]) == multiset(old(a[..]))
  {
    a[i], a[j] := a[j], a[i];
  }

  /** Every card of a list with distinct ids occurs in it once. */
  lemma {:induction false} DistinctIdsOnce(s: seq<Flashcard>, x: Flashcard)
    requires DistinctIds(s)
    ensures multiset(s)[x] <= 1
  {
    if s != [] {
      var init := s[..|s| - 1];
      assert s == init + [s[|s| - 1]];
      assert DistinctIds(init);
      DistinctIdsOnce(init, x);
      if x == s[|s| - 1] {
        forall k | 0 <= k < |init| ensures init[k] != x {
          assert s[k].id != s[|s| - 1].id;
        }
      }
    }
  }

  /** Reordering a list cannot make two of its cards share an id. */
  lemma PermutationKeepsDistinctIds(s: seq<Flashcard>, t: seq<Flashcard>)
    requires DistinctIds(s)
    requires multiset(s) == multiset(t)
    ensures DistinctIds(t)
  {
    forall i, j | 0 <= i < j < |t|
      ensures t[i].id != t[j].id
    {
      if t[i] == t[j] {
        assert t == t[..i] + [t[i]] + t[i + 1..j] + [t[j]] + t[j + 1..];
        assert multiset(t)[t[i]] >= 2;
        DistinctIdsOnce(s, t[i]);
      } else {
        assert t[i] in multiset(s) && t[j] in multiset(s);
        var p :| 0 <= p < |s| && s[p] == t[i];
        var q :| 0 <= q < |s| && s[q] == t[j];
        assert p != q;
      }
    }
  }

  /** Whether a card falls in `IDBKeyRange.lowerBound(now)` on its `nextReview` index. */
  function NotBefore(now: int): Flashcard -> bool {
    c => Due(c) >= now
  }

  /**
   * The selection and sort of `getReviewQueue` over the stored cards: the
   * cards whose `nextReview` is at or after `now` (the lower bound is
   * inclusive), sorted ascending. Cards already overdue are not selected.
   */
  method ReviewQueue(stored: seq<Flashcard>, now: int) returns (queue: seq<Flashcard>)
    ensures SortedByNextReview(queue)
    ensures multiset(queue) == multiset(Filter(NotBefore(now), stored))
    ensures forall c :: c in queue <==> c in stored && Due(c) >= now
    ensures |queue| <= |stored|
  {
    var inRange := Filter(NotBefore(now), stored);
    var results := new Flashcard[|inRange|](k requires 0 <= k < |inRange| => inRange[k]);
    assert results[..] == inRange;
    SortByNextReview(results);
    queue := results[..];
    assert |queue| == |inRange| by {
      assert |multiset(queue)| == |multiset(inRange)|;
    }
    forall c ensures c in queue <==> c in stored && Due(c) >= now {
      assert c in queue <==> c in multiset(queue);
      assert c in inRange <==> c in multiset(inRange);
      if c in stored && Due(c) >= now {
        var k :| 0 <= k < |stored| && stored[k] == c;
        assert NotBefore(now)(stored[k]);
      }
    }
  }
}
