/**
 * The background service worker: `generateFlashcards` (the API-key check,
 * the placeholder card and the loop that saves it) and the export dispatch.
 * The TypeScript source and its compiled twin behave alike here; the export
 * dispatch follows the compiled twin, which defaults the format to `csv`.
 */
module Background {
  import opened Wrappers
  import opened Cards
  import opened Csv
  import opened Store

  /** JavaScript truthiness of an optional string: present and not empty. */
  predicate Truthy(s: Option<string>) {
    s.Some? && s.value != ""
  }

  /** The fields of the `generate-flashcards` message this code reads. */
  datatype GenerateRequest = GenerateRequest(url: string, apiKey: Option<string>, topic: Option<string>)

  /** `data.topic || 'Based on the URL content'`. */
  function PlaceholderAnswer(topic: Option<string>): (a: string)
    ensures Truthy(topic) ==> a == topic.value
    ensures !Truthy(topic) ==> a == "Based on the URL content"
    ensures a != ""
  {
    if Truthy(topic) then topic.value else "Based on the URL content"
  }

  /** The placeholder card; `id` and `now` stand for `Date.now()`, `title` for the page title. */
  function PlaceholderCard(id: string, data: GenerateRequest, title: string, now: int): (c: Flashcard)
    ensures c.id == id && c.sourceUrl == data.url && c.sourceTitle == title
    ensures c.answer == PlaceholderAnswer(data.topic)
    ensures c.schedule == InitialSchedule(now) && !IsDone(c)
  {
    Flashcard(id, "What is the main topic of this page?", PlaceholderAnswer(data.topic),
      QA, 3, ["General"], data.url, title, now, InitialSchedule(now))
  }

  /** The store after putting each card in turn: a later card replaces an earlier one with the same id. */
  function PutAll(m: map<string, Flashcard>, cards: seq<Flashcard>): map<string, Flashcard>
  {
    if cards == [] then m
    else
      var last := cards[|cards| - 1];
      PutAll(m, cards[..|cards| - 1])[last.id := last]
  }

  /** After the puts, every card's id is a key, the old keys remain, and no other key appears. */
  lemma {:induction false} PutAllKeys(m: map<string, Flashcard>, cards: seq<Flashcard>)
    ensures forall c :: c in cards ==> c.id in PutAll(m, cards)
    ensures forall k :: k in PutAll(m, cards) <==> k in m || exists c :: c in cards && c.id == k
  {
    if cards != [] {
      var init := cards[..|cards| - 1];
      PutAllKeys(m, init);
      assert cards == init + [cards[|cards| - 1]];
    }
  }

  /** A key that no card carries keeps its old value. */
  lemma {:induction false} PutAllOthers(m: map<string, Flashcard>, cards: seq<Flashcard>, k: string)
    requires k in m
    requires forall c :: c in cards ==> c.id != k
    ensures k in PutAll(m, cards) && PutAll(m, cards)[k] == m[k]
  {
    if cards != [] {
      var init := cards[..|cards| - 1];
      assert forall c :: c in init ==> c in cards;
      PutAllOthers(m, init, k);
    }
  }

  /** `for (const flashcard of flashcards) await db.addFlashcard(flashcard)`. */
  method SaveAll(db: Database, cards: seq<Flashcard>)
    requires db.Valid()
    modifies db
    ensures db.Valid()
    ensures db.cards == PutAll(old(db.cards), cards)
    ensures db.hasIndex == old(db.hasIndex)
  {
    for i := 0 to |cards|
      invariant db.Valid()
      invariant db.hasIndex == old(db.hasIndex)
      invariant db.cards == PutAll(old(db.cards), cards[..i])
    {
      assert cards[..i + 1][..i] == cards[..i];
      db.AddFlashcard(cards[i]);
    }
    assert cards[..|cards|] == cards;
  }

  /**
   * `generateFlashcards` as written. It runs in the extension's service
   * worker, which has no `document`: once the key check passes, reading
   * `document.title` throws a `ReferenceError`, and the `catch` reports
   * that error's message. No request ever reaches the save, so the method
   * may change nothing, which is why it has no `modifies` clause.
   */
  method GenerateFlashcardsAsWritten(db: Database, data: GenerateRequest) returns (r: Result<seq<Flashcard>, string>)
    requires db.Valid()
    ensures r.Failure?
    ensures !Truthy(data.apiKey) ==> r.error == "API key is required"
    ensures Truthy(data.apiKey) ==> r.error == "document is not defined"
  {
    if !Truthy(data.apiKey) {
      return Failure("API key is required");
    }
    return Failure("document is not defined");
  }

  /**
   * `generateFlashcards` with the page title supplied by the sender (the
   * content script's message carries `title`) in place of `document.title`:
   * without a truthy `apiKey` it reports `API key is required` and leaves
   * the store alone; otherwise it saves the placeholder card and reports it.
   */
  method GenerateFlashcards(db: Database, data: GenerateRequest, id: string, title: string, now: int)
    returns (r: Result<seq<Flashcard>, string>)
    requires db.Valid()
    modifies db
    ensures db.Valid()
    ensures r.Failure? <==> !Truthy(data.apiKey)
    ensures r.Failure? ==> r.error == "API key is required" && db.cards == old(db.cards)
    ensures r.Success? ==> r.value == [PlaceholderCard(id, data, title, now)]
    ensures r.Success? ==> db.cards == old(db.cards)[id := PlaceholderCard(id, data, title, now)]
    ensures db.hasIndex == old(db.hasIndex)
  {
    if !Truthy(data.apiKey) {
      return Failure("API key is required");
    }
    var flashcards := [PlaceholderCard(id, data, title, now)];
    SaveAll(db, flashcards);
    assert flashcards[..0] == [];
    r := Success(flashcards);
  }

  /** The payload `exportFlashcards` sends back. */
  datatype ExportPayload = CsvExport(csv: string) | JsonExport(json: seq<Flashcard>)

  /** `message.data.format || 'csv'`. */
  function ExportFormat(format: Option<string>): (f: string)
    ensures f == "csv" <==> (!Truthy(format) || format.value == "csv")
  {
    if Truthy(format) then format.value else "csv"
  }

  /**
   * `exportFlashcards` over the cards `getAllFlashcards` returned: CSV text
   * when the format is `csv` or missing, the cards themselves otherwise.
   */
  function ExportFlashcards(format: Option<string>, stored: seq<Flashcard>): (p: ExportPayload)
    ensures p.CsvExport? <==> format == None || format == Some("") || format == Some("csv")
    ensures p.CsvExport? ==> p.csv == FlashcardsToCsv(stored)
    ensures p.JsonExport? ==> p.json == stored
  {
    if ExportFormat(format) == "csv" then CsvExport(FlashcardsToCsv(stored)) else JsonExport(stored)
  }
}
