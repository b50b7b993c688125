/** The popup scripts: the statistics they show, the card listing and the demo card. */
module Popup {
  import opened Wrappers
  import opened Seqs
  import opened Text
  import opened Cards
  import opened Sorting
  import opened Store

  /**
   * `loadStats`: the total is `count()` and the review-queue figure is the
   * length of `getReviewQueue()`, i.e. the number of stored cards whose
   * `nextReview` is at or after `now`.
   */
  method LoadStats(db: Database, now: int) returns (total: nat, queueLength: nat)
    requires db.Valid()
    ensures total == |db.cards|
    ensures queueLength == |set k | k in db.cards && Due(db.cards[k]) >= now|
    ensures queueLength <= total
  {
    total := db.Count();
    var queue := db.GetReviewQueue(now);
    queueLength := |queue|;
    ListedOncePerKey(queue, db.cards, set k | k in db.cards && Due(db.cards[k]) >= now);
  }

  /**
   * `loadStats` as written: when `getReviewQueue` rejects, `loadStats`
   * rejects before it writes either figure; otherwise it shows the figures
   * of `LoadStats`.
   */
  method LoadStatsAsWritten(db: Database, now: int) returns (r: Result<(nat, nat), string>)
    requires db.Valid()
    ensures r.Failure? <==> !db.hasIndex
    ensures r.Failure? ==> r.error == "NotFoundError"
    ensures r.Success? ==> r.value.0 == |db.cards| && r.value.1 <= r.value.0
    ensures r.Success? ==> r.value.1 == |set k | k in db.cards && Due(db.cards[k]) >= now|
  {
    var queue := db.GetReviewQueueAsWritten(now);
    if queue.Failure? {
      return Failure(queue.error);
    }
    var total, queueLength := LoadStats(db, now);
    r := Success((total, queueLength));
  }

  /**
   * The install order: `onInstalled` runs the background's `init`, which
   * creates the store without the `nextReview` index; whatever cards are
   * put afterwards, every popup opened later fails to load its figures.
   */
  method LoadStatsAfterInstall(cards: seq<Flashcard>, now: int) returns (r: Result<(nat, nat), string>)
    ensures r.Failure? && r.error == "NotFoundError"
  {
    var db := new Database(false);
    for i := 0 to |cards|
      invariant db.Valid() && !db.hasIndex
    {
      db.AddFlashcard(cards[i]);
    }
    r := LoadStatsAsWritten(db, now);
  }

  /**
   * `updateStats`: the total number of cards and the number done, a card
   * being done once its schedule has three or more repetitions.
   */
  method UpdateStats(db: Database) returns (total: nat, done: nat)
    requires db.Valid()
    ensures total == |db.cards|
    ensures done == |set k | k in db.cards && IsDone(db.cards[k])|
    ensures done <= total
  {
    var all := db.GetAll();
    total := |all|;
    done := DoneCount(all);
    FilterKeepsDistinctIds(IsDone, all);
    ListedOncePerKey(Filter(IsDone, all), db.cards, set k | k in db.cards && IsDone(db.cards[k]));
  }

  /**
   * `showFlashcards`: with no stored card nothing is built; otherwise every
   * stored card, once each, sorted ascending by `nextReview`.
   */
  method ShowFlashcards(db: Database) returns (shown: Option<seq<Flashcard>>)
    requires db.Valid()
    ensures shown.None? <==> |db.cards| == 0
    ensures shown.Some? ==> SortedByNextReview(shown.value) && DistinctIds(shown.value)
    ensures shown.Some? ==> |shown.value| == |db.cards|
    ensures shown.Some? ==> forall c :: c in shown.value <==> c.id in db.cards && db.cards[c.id] == c
  {
    var all := db.GetAll();
    if |all| == 0 {
      return None;
    }
    var flashcards := new Flashcard[|all|](k requires 0 <= k < |all| => all[k]);
    assert flashcards[..] == all;
    SortByNextReview(flashcards);
    var sorted := flashcards[..];
    PermutationKeepsDistinctIds(all, sorted);
    assert |sorted| == |all| by {
      assert |multiset(sorted)| == |multiset(all)|;
    }
    forall c ensures c in sorted <==> c in all {
      assert c in sorted <==> c in multiset(sorted);
      assert c in all <==> c in multiset(all);
    }
    shown := Some(sorted);
  }

  /** The demo card `addFlashcard` creates in the options popup. */
  function DemoFlashcard(id: string, url: string, now: int): (c: Flashcard)
    ensures c.id == id && c.sourceUrl == url && c.createdAt == now
    ensures c.schedule == InitialSchedule(now) && !IsDone(c)
  {
    Flashcard(id, "What is this flashcard about?",
      "This is a demo flashcard. Replace with actual AI-generated content.",
      QA, 2, ["Demo"], url, "Demo", now, InitialSchedule(now))
  }

  /**
   * `addFlashcard`: a blank key (after trimming) adds nothing; otherwise the
   * demo card is put into the store under its id.
   */
  method AddDemoFlashcard(db: Database, apiKeyInput: string, id: string, url: string, now: int)
    returns (added: bool)
    requires db.Valid()
    modifies db
    ensures db.Valid()
    ensures added <==> Trim(apiKeyInput) != ""
    ensures added ==> db.cards == old(db.cards)[id := DemoFlashcard(id, url, now)]
    ensures !added ==> db.cards == old(db.cards)
    ensures db.hasIndex == old(db.hasIndex)
  {
    var apiKey := Trim(apiKeyInput);
    if apiKey == "" {
      return false;
    }
    db.AddFlashcard(DemoFlashcard(id, url, now));
    added := true;
  }
}
