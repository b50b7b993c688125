/**
 * The flashcard record shared by the extension's scripts and the fixed
 * initial review schedule that every creation path gives a new card.
 * Timestamps (`nextReview`, `createdAt`) are milliseconds since the epoch;
 * the source keeps them as ISO-8601 strings, which compare in the same order.
 */
module Cards {
  import opened Wrappers
  import opened Seqs

  datatype CardType = QA | MultipleChoice

  /** The string the source stores in the `type` field. */
  function TypeName(t: CardType): (r: string)
    ensures r == "qa" <==> t == QA
    ensures r == "multiple-choice" <==> t == MultipleChoice
    ensures forall k :: 0 <= k < |r| ==> 'a' <= r[k] <= 'z' || r[k] == '-'
  {
    match t
    case QA => "qa"
    case MultipleChoice => "multiple-choice"
  }

  datatype ReviewSchedule = ReviewSchedule(nextReview: int, interval: int, repetition: int, easeFactor: real)

  datatype Flashcard = Flashcard(
    id: string,
    question: string,
    answer: string,
    cardType: CardType,
    difficulty: int,
    tags: seq<string>,
    sourceUrl: string,
    sourceTitle: string,
    createdAt: int,
    schedule: ReviewSchedule)

  /** One day, `86400000` milliseconds, as the source writes it. */
  const DayMs: int := 86400000

  /** The schedule every creation path writes: due one day after `now`, interval 1, no repetitions, ease 2.5. */
  function InitialSchedule(now: int): (s: ReviewSchedule)
    ensures s.interval == 1 && s.repetition == 0 && s.easeFactor == 2.5
    ensures s.nextReview - now == DayMs
  {
    ReviewSchedule(now + DayMs, 1, 0, 2.5)
  }

  /**
   * `calculateSchedule` as the source writes it: the object literal uses the
   * shorthand `easeFactor`, but the only binding in scope is `easinessFactor`,
   * so evaluating it raises a ReferenceError whatever the argument.
   */
  function CalculateScheduleAsWritten(difficulty: int, now: int): (r: Result<ReviewSchedule, string>)
  {
    Failure("ReferenceError: easeFactor is not defined")
  }

  /** The evaluation never produces a schedule. */
  lemma CalculateScheduleAsWrittenFails(difficulty: int, now: int)
    ensures CalculateScheduleAsWritten(difficulty, now).Failure?
  {
  }

  /**
   * `calculateSchedule` with the ease factor bound to `easinessFactor` (2.5):
   * interval 1 and repetition 0, due `interval * 24 * 60 * 60 * 1000` ms from
   * now. The `difficulty` argument is not read.
   */
  function CalculateSchedule(difficulty: int, now: int): (s: ReviewSchedule)
    ensures s == InitialSchedule(now)
  {
    var easinessFactor := 2.5;
    var interval := 1;
    var repetition := 0;
    ReviewSchedule(now + interval * 24 * 60 * 60 * 1000, interval, repetition, easinessFactor)
  }

  /** The schedule is the same for every difficulty. */
  lemma CalculateScheduleIgnoresDifficulty(d1: int, d2: int, now: int)
    ensures CalculateSchedule(d1, now) == CalculateSchedule(d2, now)
  {
  }

  /** A card counts as done in the popup's statistics once it has three repetitions. */
  predicate IsDone(c: Flashcard) {
    c.schedule.repetition >= 3
  }

  /** `flashcards.filter(f => f.schedule.repetition >= 3).length`. */
  function DoneCount(cards: seq<Flashcard>): (n: nat)
    ensures n <= |cards|
  {
    |Filter(IsDone, cards)|
  }

  /** The done count of a concatenation is the sum of the done counts. */
  lemma DoneCountConcat(s: seq<Flashcard>, t: seq<Flashcard>)
    ensures DoneCount(s + t) == DoneCount(s) + DoneCount(t)
  {
    FilterConcat(IsDone, s, t);
  }

  /** A card with a fresh schedule is never done, so adding one leaves the done count as it was. */
  lemma NewCardNotDone(cards: seq<Flashcard>, c: Flashcard, now: int)
    requires c.schedule == InitialSchedule(now)
    ensures DoneCount(cards + [c]) == DoneCount(cards)
  {
    DoneCountConcat(cards, [c]);
    assert Filter(IsDone, [c]) == [];
  }

  /** No two cards of the list share an id. */
  predicate DistinctIds(s: seq<Flashcard>) {
    forall i, j :: 0 <= i < j < |s| ==> s[i].id != s[j].id
  }

  /** Appending a card whose id is new keeps the ids distinct. */
  lemma DistinctIdsSnoc(s: seq<Flashcard>, c: Flashcard)
    requires DistinctIds(s)
    requires forall i :: 0 <= i < |s| ==> s[i].id != c.id
    ensures DistinctIds(s + [c])
  {
    var t := s + [c];
    forall i, j | 0 <= i < j < |t| ensures t[i].id != t[j].id {
      if j < |s| {
        assert t[i] == s[i] && t[j] == s[j];
      } else {
        assert t[i] == s[i] && t[j] == c;
      }
    }
  }

  /** Filtering a list whose ids are distinct keeps them distinct. */
  lemma {:induction false} FilterKeepsDistinctIds(p: Flashcard -> bool, s: seq<Flashcard>)
    requires DistinctIds(s)
    ensures DistinctIds(Filter(p, s))
  {
    if s != [] {
      var tail := Filter(p, s[1..]);
      assert DistinctIds(s[1..]);
      FilterKeepsDistinctIds(p, s[1..]);
      if p(s[0]) {
        forall k | 0 <= k < |tail| ensures tail[k].id != s[0].id {
          var m :| 0 <= m < |s[1..]| && s[1..][m] == tail[k];
          assert s[m + 1] == tail[k];
        }
      }
    }
  }

  /** The ids of a list of cards. */
  function IdSet(s: seq<Flashcard>): set<string> {
    if s == [] then {} else IdSet(s[..|s| - 1]) + {s[|s| - 1].id}
  }

  lemma {:induction false} IdSetMembers(s: seq<Flashcard>)
    ensures forall c :: c in s ==> c.id in IdSet(s)
    ensures forall k :: k in IdSet(s) ==> exists i :: 0 <= i < |s| && s[i].id == k
  {
    if s != [] {
      var init := s[..|s| - 1];
      IdSetMembers(init);
      assert s == init + [s[|s| - 1]];
      forall k | k in IdSet(s) ensures exists i :: 0 <= i < |s| && s[i].id == k {
        if k in IdSet(init) {
          var i :| 0 <= i < |init| && init[i].id == k;
          assert s[i].id == k;
        } else {
          assert s[|s| - 1].id == k;
        }
      }
    }
  }

  lemma {:induction false} IdSetSize(s: seq<Flashcard>)
    requires DistinctIds(s)
    ensures |IdSet(s)| == |s|
  {
    if s != [] {
      var init := s[..|s| - 1];
      assert DistinctIds(init);
      IdSetSize(init);
      IdSetMembers(init);
      forall i | 0 <= i < |init| ensures init[i].id != s[|s| - 1].id {
        assert s[i].id != s[|s| - 1].id;
      }
      assert s[|s| - 1].id !in IdSet(init);
    }
  }

  /**
   * A list of cards with distinct ids that holds exactly the cards stored
   * under a set of keys of an id-keyed map has one element per key.
   */
  lemma ListedOncePerKey(s: seq<Flashcard>, m: map<string, Flashcard>, keys: set<string>)
    requires forall k :: k in m ==> m[k].id == k
    requires keys <= m.Keys
    requires DistinctIds(s)
    requires forall c :: c in s <==> c.id in keys && m[c.id] == c
    ensures |s| == |keys|
  {
    IdSetMembers(s);
    IdSetSize(s);
    forall k | k in keys ensures k in IdSet(s) {
      assert m[k] in s;
    }
    assert IdSet(s) == keys;
  }
}
