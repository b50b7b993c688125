/**
 * The `flashcards` object store of the extension's IndexedDB database
 * (`keyPath: 'id'`), held as a map from id to card, together with whether
 * the store has the `nextReview` index. The connection, the transactions
 * and their callbacks are not part of this model: each operation is the
 * effect its transaction has when it completes.
 */
module Store {
  import opened Wrappers
  import opened Seqs
  import opened Cards
  import opened Sorting

  class Database {
    var cards: map<string, Flashcard>
    /** Whether the store has the `nextReview` index over `schedule.nextReview`. */
    var hasIndex: bool

    /** Every card is stored under its own id. */
    ghost predicate Valid()
      reads this
    {
      forall k :: k in cards ==> cards[k].id == k
    }

    /**
     * The store as the first `open` of version 1 creates it, in its upgrade
     * handler: empty, and with the `nextReview` index only when the popup's
     * compiled `open` is the one that creates it. The background's and the
     * options page's `init` create it without the index. Later opens of
     * version 1 run no upgrade, so no operation changes `hasIndex`.
     */
    constructor (withIndex: bool)
      ensures Valid() && cards == map[] && hasIndex == withIndex
    {
      cards := map[];
      hasIndex := withIndex;
    }

    /** `store.put(flashcard)`: inserts the card, or replaces the card that has the same id. */
    method AddFlashcard(c: Flashcard)
      requires Valid()
      modifies this
      ensures Valid()
      ensures cards == old(cards)[c.id := c]
      ensures hasIndex == old(hasIndex)
    {
      cards := cards[c.id := c];
    }

    /** `store.get(id)`: the card stored under `id`, or nothing when the id is absent. */
    method GetFlashcard(id: string) returns (r: Option<Flashcard>)
      requires Valid()
      ensures r.Some? <==> id in cards
      ensures r.Some? ==> r.value == cards[id] && r.value.id == id
    {
      if id in cards {
        r := Some(cards[id]);
      } else {
        r := None;
      }
    }

    /** `store.delete(id)`: removes that key, and only that key. */
    method DeleteFlashcard(id: string)
      requires Valid()
      modifies this
      ensures Valid()
      ensures cards == old(cards) - {id}
      ensures hasIndex == old(hasIndex)
    {
      cards := cards - {id};
    }

    /** `store.clear()`: the store is left empty. */
    method Clear()
      requires Valid()
      modifies this
      ensures Valid() && cards == map[]
      ensures hasIndex == old(hasIndex)
    {
      cards := map[];
    }

    /** `store.count()`: the number of stored cards. */
    method Count() returns (n: nat)
      ensures n == |cards|
    {
      n := |cards|;
    }

    /**
     * `store.getAll()`: every stored card exactly once. The store lists
     * them in key order; the model leaves the order unspecified.
     */
    method GetAll() returns (all: seq<Flashcard>)
      requires Valid()
      ensures |all| == |cards|
      ensures DistinctIds(all)
      ensures forall c :: c in all <==> c.id in cards && cards[c.id] == c
    {
      var rest := cards.Keys;
      ghost var seen: set<string> := {};
      all := [];
      while rest != {}
        invariant rest + seen == cards.Keys && rest !! seen
        invariant |all| == |seen|
        invariant DistinctIds(all)
        invariant forall c :: c in all <==> c.id in seen && cards[c.id] == c
        decreases rest
      {
        var k :| k in rest;
        var card := cards[k];
        assert card.id == k;
        forall i | 0 <= i < |all| ensures all[i].id != card.id {
          assert all[i] in all;
        }
        DistinctIdsSnoc(all, card);
        assert forall c :: c in all + [card] <==> c in all || c == card;
        all := all + [card];
        rest := rest - {k};
        seen := seen + {k};
      }
    }

    /**
     * `getReviewQueue` as written: `index('nextReview')` throws
     * `NotFoundError` on a store without the index, and the promise rejects;
     * with the index, the queue of `GetReviewQueue`.
     */
    method GetReviewQueueAsWritten(now: int) returns (r: Result<seq<Flashcard>, string>)
      requires Valid()
      ensures r.Failure? <==> !hasIndex
      ensures r.Failure? ==> r.error == "NotFoundError"
      ensures r.Success? ==> SortedByNextReview(r.value) && DistinctIds(r.value)
      ensures r.Success? ==> forall c :: c in r.value <==> c.id in cards && cards[c.id] == c && Due(c) >= now
    {
      if !hasIndex {
        return Failure("NotFoundError");
      }
      var queue := GetReviewQueue(now);
      r := Success(queue);
    }

    /**
     * `getReviewQueue`, with the `nextReview` index in place (as when every
     * `init` creates it): the stored cards whose `nextReview` is at or after
     * `now`, ascending by `nextReview`, each once. Despite the name, these
     * are the cards not yet due.
     */
    method GetReviewQueue(now: int) returns (queue: seq<Flashcard>)
      requires Valid()
      ensures SortedByNextReview(queue)
      ensures forall c :: c in queue <==> c.id in cards && cards[c.id] == c && Due(c) >= now
      ensures DistinctIds(queue)
      ensures |queue| <= |cards|
    {
      var all := GetAll();
      queue := ReviewQueue(all, now);
      FilterKeepsDistinctIds(NotBefore(now), all);
      PermutationKeepsDistinctIds(Filter(NotBefore(now), all), queue);
    }
  }
}
