/**
 * The content scripts: the text they take from a page (title, article text,
 * keywords), the placeholder card of the compiled script, and the loop in
 * `main` that stamps generated cards before saving them. What the DOM
 * queries return is given as plain strings.
 */
module Content {
  import opened Wrappers
  import opened Seqs
  import opened Text
  import opened Cards

  predicate NonEmpty(s: string) {
    s != ""
  }

  /** `titleElement?.innerText.trim() || document.title`. */
  function ExtractTitle(heading: Option<string>, documentTitle: string): (t: string)
    ensures heading.Some? && Trim(heading.value) != "" ==> t == Trim(heading.value)
    ensures heading.None? || Trim(heading.value) == "" ==> t == documentTitle
  {
    if heading.Some? && Trim(heading.value) != "" then Trim(heading.value) else documentTitle
  }

  /** The paragraph texts trimmed, empty ones dropped, joined by a blank line. */
  function ArticleText(texts: seq<string>): string {
    Join(Filter(NonEmpty, Map(Trim, texts)), "\n\n")
  }

  /** The article text is empty exactly when every paragraph is blank. */
  lemma ArticleTextEmpty(texts: seq<string>)
    ensures ArticleText(texts) == "" <==> forall i :: 0 <= i < |texts| ==> Trim(texts[i]) == ""
  {
    var kept := Filter(NonEmpty, Map(Trim, texts));
    JoinEmpty(kept, "\n\n");
    if kept == [] {
      forall i | 0 <= i < |texts| ensures Trim(texts[i]) == "" {
        assert Map(Trim, texts)[i] == Trim(texts[i]);
      }
    } else {
      assert kept[0] in Map(Trim, texts) && kept[0] != "";
    }
  }

  /** One more paragraph adds its trimmed text to the kept paragraphs unless it is blank. */
  lemma KeptParagraphsSnoc(texts: seq<string>, t: string)
    ensures Filter(NonEmpty, Map(Trim, texts + [t])) ==
      Filter(NonEmpty, Map(Trim, texts)) + (if Trim(t) == "" then [] else [Trim(t)])
  {
    assert Map(Trim, texts + [t]) == Map(Trim, texts) + [Trim(t)];
    FilterConcat(NonEmpty, Map(Trim, texts), [Trim(t)]);
    assert Filter(NonEmpty, [Trim(t)]) == if Trim(t) == "" then [] else [Trim(t)];
  }

  /**
   * Paragraphs keep document order: one more paragraph adds nothing when it
   * is blank, and otherwise adds its trimmed text after a blank line.
   */
  lemma ArticleTextSnoc(texts: seq<string>, t: string)
    ensures ArticleText(texts + [t]) ==
      if Trim(t) == "" then ArticleText(texts)
      else if ArticleText(texts) == "" then Trim(t)
      else ArticleText(texts) + "\n\n" + Trim(t)
  {
    var kept := Filter(NonEmpty, Map(Trim, texts));
    KeptParagraphsSnoc(texts, t);
    if Trim(t) == "" {
      assert kept + [] == kept;
    } else {
      JoinAppend(kept, "\n\n", Trim(t));
    }
  }

  /** `extractContent`: no content container gives `''`, otherwise the article text of its paragraphs. */
  function ExtractContent(container: Option<seq<string>>): (r: string)
    ensures container.None? ==> r == ""
    ensures container.Some? ==> r == ArticleText(container.value)
  {
    if container.None? then "" else ArticleText(container.value)
  }

  /** The pieces of one keywords meta tag: `content.split(',').map(k => k.trim())`. */
  function TrimmedPieces(content: string): seq<string> {
    Map(Trim, Split(content, ','))
  }

  /** The keywords of all meta tags: the trimmed pieces, flattened, without the empty ones. */
  function MetaKeywords(metas: seq<string>): seq<string> {
    Filter(NonEmpty, Flatten(Map(TrimmedPieces, metas)))
  }

  /** `keywords.length > 0 ? keywords : [title, 'article', 'webpage']`: never an empty list. */
  function Keywords(metas: seq<string>, title: string): (r: seq<string>)
    ensures |r| >= 1
    ensures MetaKeywords(metas) == [] ==> r == [title, "article", "webpage"]
    ensures MetaKeywords(metas) != [] ==> r == MetaKeywords(metas)
  {
    var kw := MetaKeywords(metas);
    if |kw| > 0 then kw else [title, "article", "webpage"]
  }

  /** A trimmed piece of a meta tag is already trimmed and holds no comma. */
  lemma TrimmedPieceClean(content: string, k: string)
    requires k in TrimmedPieces(content)
    ensures Trim(k) == k && ',' !in k
  {
    var pieces := Split(content, ',');
    var j :| 0 <= j < |pieces| && TrimmedPieces(content)[j] == k;
    TrimIdempotent(pieces[j]);
    TrimKeepsOut(pieces[j], ',');
  }

  /** Every keyword taken from the meta tags is non-empty, already trimmed, and holds no comma. */
  lemma MetaKeywordsClean(metas: seq<string>)
    ensures forall k :: k in MetaKeywords(metas) ==> k != "" && Trim(k) == k && ',' !in k
  {
    var tagPieces := Map(TrimmedPieces, metas);
    forall k | k in MetaKeywords(metas) ensures k != "" && Trim(k) == k && ',' !in k {
      FlattenMembership(tagPieces, k);
      var i :| 0 <= i < |tagPieces| && k in tagPieces[i];
      TrimmedPieceClean(metas[i], k);
    }
  }

  /** Keywords keep the order of the meta tags and of the pieces within each. */
  lemma MetaKeywordsSnoc(metas: seq<string>, content: string)
    ensures MetaKeywords(metas + [content]) == MetaKeywords(metas) + Filter(NonEmpty, TrimmedPieces(content))
  {
    assert Map(TrimmedPieces, metas + [content]) == Map(TrimmedPieces, metas) + [TrimmedPieces(content)];
    FlattenConcat(Map(TrimmedPieces, metas), [TrimmedPieces(content)]);
    assert Flatten([TrimmedPieces(content)]) == TrimmedPieces(content);
    FilterConcat(NonEmpty, Flatten(Map(TrimmedPieces, metas)), TrimmedPieces(content));
  }

  /** The placeholder card of the compiled content script. */
  function PagePlaceholderCard(id: string, title: string, url: string, now: int): (c: Flashcard)
    ensures c.question == "What is the main topic of \"" + title + "\"?"
    ensures c.difficulty == 2 && c.schedule == InitialSchedule(now)
  {
    Flashcard(id, "What is the main topic of \"" + title + "\"?", "Generated from page content",
      QA, 2, ["Knowledge", "Summary"], url, title, now, InitialSchedule(now))
  }

  /**
   * `generateFlashcards` of the compiled content script: an empty extracted
   * content fails with `Could not extract content from page`; otherwise the
   * one placeholder card.
   */
  function GeneratePageFlashcards(content: string, title: string, url: string, id: string, now: int)
    : (r: Result<seq<Flashcard>, string>)
    ensures r.Failure? <==> content == ""
    ensures r.Failure? ==> r.error == "Could not extract content from page"
    ensures r.Success? ==> r.value == [PagePlaceholderCard(id, title, url, now)]
  {
    if content == "" then Failure("Could not extract content from page")
    else Success([PagePlaceholderCard(id, title, url, now)])
  }

  /** What one pass of the save loop in `main` writes into a generated card. */
  function Stamp(c: Flashcard, id: string, url: string, title: string, now: int): (r: Flashcard)
    ensures r.id == id && r.sourceUrl == url && r.sourceTitle == title && r.createdAt == now
    ensures r.schedule == InitialSchedule(now)
    ensures r.question == c.question && r.answer == c.answer && r.tags == c.tags
    ensures r.cardType == c.cardType && r.difficulty == c.difficulty
  {
    c.(id := id, sourceUrl := url, sourceTitle := title, createdAt := now, schedule := CalculateSchedule(5, now))
  }

  /**
   * The save loop of `main`, which updates each generated card in place;
   * `ids[i]` stands for the i-th `crypto.randomUUID()` and `clock[i]` for the
   * time read on that pass.
   */
  method StampCards(flashcards: array<Flashcard>, ids: seq<string>, url: string, title: string, clock: seq<int>)
    requires |ids| == flashcards.Length && |clock| == flashcards.Length
    modifies flashcards
    ensures forall i :: 0 <= i < flashcards.Length ==>
      flashcards[i] == Stamp(old(flashcards[i]), ids[i], url, title, clock[i])
  {
    for i := 0 to flashcards.Length
      invariant forall k :: 0 <= k < i ==> flashcards[k] == Stamp(old(flashcards[k]), ids[k], url, title, clock[k])
      invariant forall k :: i <= k < flashcards.Length ==> flashcards[k] == old(flashcards[k])
    {
      flashcards[i] := Stamp(flashcards[i], ids[i], url, title, clock[i]);
    }
  }
}
