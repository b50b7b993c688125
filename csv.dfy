/**
 * The CSV text the extension exports. Question and answer are written as
 * quoted fields with every `"` doubled, the escaping of section 2 (rules 5
 * to 7) of RFC 4180; type and difficulty are written bare; tags are joined
 * with `, ` and wrapped in quotes without any doubling. Rows are joined by a
 * line feed after a header line, with no trailing line feed.
 */
module Csv {
  import opened Wrappers
  import opened Seqs
  import opened Text
  import opened Cards

  /** `s.replace(/"/g, '""')`. */
  function EscapeQuotes(s: string): (r: string)
    ensures forall c :: c != '"' ==> (c in r <==> c in s)
  {
    if s == [] then []
    else (if s[0] == '"' then "\"\"" else [s[0]]) + EscapeQuotes(s[1..])
  }

  /** A string without quotes is its own escape. */
  lemma {:induction false} EscapeQuotesNoQuote(s: string)
    requires '"' !in s
    ensures EscapeQuotes(s) == s
  {
    if s != [] {
      EscapeQuotesNoQuote(s[1..]);
    }
  }

  /** `"${s.replace(/"/g, '""')}"`. */
  function Quote(s: string): string {
    "\"" + EscapeQuotes(s) + "\""
  }

  /**
   * Reads the inside of a quoted field, the opening quote already consumed:
   * `""` stands for one quote and a lone `"` closes the field. Gives the
   * field and what follows the closing quote, or `None` when no quote closes it.
   */
  function ScanQuoted(s: string): Option<(string, string)>
    decreases |s|
  {
    if s == [] then None
    else if s[0] == '"' then
      if |s| >= 2 && s[1] == '"' then
        match ScanQuoted(s[2..])
        case None => None
        case Some(p) => Some(("\"" + p.0, p.1))
      else Some(("", s[1..]))
    else
      match ScanQuoted(s[1..])
      case None => None
      case Some(p) => Some(([s[0]] + p.0, p.1))
  }

  /** Reads one quoted field at the start of `s` (RFC 4180 section 2, rule 7). */
  function ParseQuoted(s: string): Option<(string, string)> {
    if s != [] && s[0] == '"' then ScanQuoted(s[1..]) else None
  }

  lemma {:induction false} ScanEscaped(x: string, rest: string)
    requires rest == [] || rest[0] != '"'
    ensures ScanQuoted(EscapeQuotes(x) + "\"" + rest) == Some((x, rest))
  {
    if x == [] {
      assert EscapeQuotes(x) + "\"" + rest == "\"" + rest;
    } else {
      var tail := EscapeQuotes(x[1..]) + "\"" + rest;
      ScanEscaped(x[1..], rest);
      if x[0] == '"' {
        var s := "\"\"" + tail;
        assert EscapeQuotes(x) + "\"" + rest == s;
        assert s[2..] == tail;
        assert "\"" + x[1..] == x;
      } else {
        var s := [x[0]] + tail;
        assert EscapeQuotes(x) + "\"" + rest == s;
        assert s[1..] == tail;
        assert [x[0]] + x[1..] == x;
      }
    }
  }

  /**
   * Quoting round-trips: a reader of the quoted field recovers `x` exactly
   * and stops right after the closing quote, whatever follows unless it is
   * another quote.
   */
  lemma QuoteRoundTrip(x: string, rest: string)
    requires rest == [] || rest[0] != '"'
    ensures ParseQuoted(Quote(x) + rest) == Some((x, rest))
  {
    var s := Quote(x) + rest;
    assert s[1..] == EscapeQuotes(x) + "\"" + rest;
    ScanEscaped(x, rest);
  }

  /** Reads the first two comma-separated quoted fields of a row. */
  function LeadingFields(row: string): Option<(string, string)> {
    match ParseQuoted(row)
    case None => None
    case Some(first) =>
      if first.1 != [] && first.1[0] == ',' then
        match ParseQuoted(first.1[1..])
        case None => None
        case Some(second) => Some((first.0, second.0))
      else None
  }

  /** `'"' + tags.join(', ') + '"'`: quoted, but inner quotes are not doubled. */
  function TagsField(tags: seq<string>): string {
    "\"" + Join(tags, ", ") + "\""
  }

  /** When no tag holds a quote, the tags field reads back as the joined tags. */
  lemma TagsFieldReadsBack(tags: seq<string>)
    requires forall k :: 0 <= k < |tags| ==> '"' !in tags[k]
    ensures ParseQuoted(TagsField(tags)) == Some((Join(tags, ", "), ""))
  {
    var j := Join(tags, ", ");
    JoinLacks(tags, ", ", '"');
    EscapeQuotesNoQuote(j);
    QuoteRoundTrip(j, "");
    assert Quote(j) + "" == TagsField(tags);
  }

  /** A tag holding a quote ends the field early: the tag `a"b` reads back as `a`. */
  lemma TagWithQuoteBreaksField()
    ensures ParseQuoted(TagsField(["a\"b"])) == Some(("a", "b\""))
  {
    assert Join(["a\"b"], ", ") == "a\"b";
    var s := TagsField(["a\"b"]);
    assert s == "\"a\"b\"";
    assert s[1..] == "a\"b\"";
    var t := s[1..];
    assert t[0] == 'a' && t[1..] == "\"b\"";
    assert ScanQuoted("\"b\"") == Some(("", "b\""));
    assert [t[0]] + "" == "a";
    assert ScanQuoted(s[1..]) == Some(("a", "b\""));
  }

  /** The header of the background script's export and of the single-card export. */
  const ExportHeader: string := "Question,Answer,Type,Difficulty,Tags"

  /** The header of the content script's `generateCSV`: no Type column. */
  const ContentHeader: string := "Question,Answer,Difficulty,Tags"

  /** One row of `flashcardsToCSV`: question, answer, type, difficulty, tags. */
  function ExportRow(c: Flashcard): string {
    Quote(c.question) + "," + Quote(c.answer) + "," + TypeName(c.cardType) + ","
      + DecimalString(c.difficulty) + "," + TagsField(c.tags)
  }

  /** One row of `generateCSV`: question, answer, difficulty, tags. */
  function ContentRow(c: Flashcard): string {
    Quote(c.question) + "," + Quote(c.answer) + "," + DecimalString(c.difficulty) + "," + TagsField(c.tags)
  }

  /** `flashcardsToCSV`: the header line, then one row per card in input order. */
  function FlashcardsToCsv(cards: seq<Flashcard>): (r: string)
    ensures |ExportHeader| <= |r| && r[..|ExportHeader|] == ExportHeader
    ensures cards == [] ==> r == ExportHeader
  {
    Join([ExportHeader] + Map(ExportRow, cards), "\n")
  }

  /** `generateCSV`: the four-column header line, then one row per card in input order. */
  function GenerateCsv(cards: seq<Flashcard>): (r: string)
    ensures |ContentHeader| <= |r| && r[..|ContentHeader|] == ContentHeader
    ensures cards == [] ==> r == ContentHeader
  {
    Join([ContentHeader] + Map(ContentRow, cards), "\n")
  }

  /** The text `exportFlashcards` writes for one card. */
  function SingleCardCsv(c: Flashcard): string {
    ExportHeader + "\n" + ExportRow(c)
  }

  /** Two quoted fields and a comma, followed by anything that starts with a comma, read back. */
  lemma LeadingFieldsRoundTrip(q: string, a: string, tail: string)
    requires tail == [] || tail[0] == ','
    ensures LeadingFields(Quote(q) + "," + Quote(a) + tail) == Some((q, a))
  {
    var afterQ := "," + Quote(a) + tail;
    assert Quote(q) + "," + Quote(a) + tail == Quote(q) + afterQ;
    QuoteRoundTrip(q, afterQ);
    assert afterQ[1..] == Quote(a) + tail;
    QuoteRoundTrip(a, tail);
  }

  /** Both leading fields of a background export row read back as question and answer. */
  lemma ExportRowFields(c: Flashcard)
    ensures LeadingFields(ExportRow(c)) == Some((c.question, c.answer))
  {
    var tail := "," + TypeName(c.cardType) + "," + DecimalString(c.difficulty) + "," + TagsField(c.tags);
    assert ExportRow(c) == Quote(c.question) + "," + Quote(c.answer) + tail;
    LeadingFieldsRoundTrip(c.question, c.answer, tail);
  }

  /** Both leading fields of a content-script row read back as question and answer. */
  lemma ContentRowFields(c: Flashcard)
    ensures LeadingFields(ContentRow(c)) == Some((c.question, c.answer))
  {
    var tail := "," + DecimalString(c.difficulty) + "," + TagsField(c.tags);
    assert ContentRow(c) == Quote(c.question) + "," + Quote(c.answer) + tail;
    LeadingFieldsRoundTrip(c.question, c.answer, tail);
  }

  /** No line feed in the question, the answer or any tag. */
  predicate SingleLine(c: Flashcard) {
    '\n' !in c.question && '\n' !in c.answer && forall k :: 0 <= k < |c.tags| ==> '\n' !in c.tags[k]
  }

  lemma DecimalNoNewline(n: int)
    ensures '\n' !in DecimalString(n)
  {
    var d := DecimalString(n);
    forall k | 0 <= k < |d| ensures d[k] != '\n' {
      assert IsDigit(d[k]) || d[k] == '-';
    }
  }

  lemma TypeNameNoNewline(t: CardType)
    ensures '\n' !in TypeName(t)
  {
    var s := TypeName(t);
    forall k | 0 <= k < |s| ensures s[k] != '\n' {
    }
  }

  lemma ExportRowSingleLine(c: Flashcard)
    requires SingleLine(c)
    ensures '\n' !in ExportRow(c) && '\n' !in ContentRow(c)
  {
    JoinLacks(c.tags, ", ", '\n');
    DecimalNoNewline(c.difficulty);
    TypeNameNoNewline(c.cardType);
  }

  /** Splitting the export at line feeds gives the header and then exactly one row per card, in order. */
  lemma FlashcardsToCsvLines(cards: seq<Flashcard>)
    requires forall i :: 0 <= i < |cards| ==> SingleLine(cards[i])
    ensures Split(FlashcardsToCsv(cards), '\n') == [ExportHeader] + Map(ExportRow, cards)
  {
    var lines := [ExportHeader] + Map(ExportRow, cards);
    forall k | 0 <= k < |lines| ensures '\n' !in lines[k] {
      if k > 0 {
        ExportRowSingleLine(cards[k - 1]);
      }
    }
    SplitJoin(lines, '\n');
  }

  /** Splitting `generateCSV`'s text at line feeds gives the header and one row per card, in order. */
  lemma GenerateCsvLines(cards: seq<Flashcard>)
    requires forall i :: 0 <= i < |cards| ==> SingleLine(cards[i])
    ensures Split(GenerateCsv(cards), '\n') == [ContentHeader] + Map(ContentRow, cards)
  {
    var lines := [ContentHeader] + Map(ContentRow, cards);
    forall k | 0 <= k < |lines| ensures '\n' !in lines[k] {
      if k > 0 {
        ExportRowSingleLine(cards[k - 1]);
      }
    }
    SplitJoin(lines, '\n');
  }

  /** Appending a card appends a line feed and its row: rows keep input order, and no line feed trails. */
  lemma FlashcardsToCsvSnoc(cards: seq<Flashcard>, c: Flashcard)
    ensures FlashcardsToCsv(cards + [c]) == FlashcardsToCsv(cards) + "\n" + ExportRow(c)
  {
    var lines := [ExportHeader] + Map(ExportRow, cards);
    assert [ExportHeader] + Map(ExportRow, cards + [c]) == lines + [ExportRow(c)];
    JoinSnoc(lines, "\n", ExportRow(c));
  }

  /** The same law for `generateCSV`. */
  lemma GenerateCsvSnoc(cards: seq<Flashcard>, c: Flashcard)
    ensures GenerateCsv(cards + [c]) == GenerateCsv(cards) + "\n" + ContentRow(c)
  {
    var lines := [ContentHeader] + Map(ContentRow, cards);
    assert [ContentHeader] + Map(ContentRow, cards + [c]) == lines + [ContentRow(c)];
    JoinSnoc(lines, "\n", ContentRow(c));
  }

  /**
   * The single-card export is the background export of a one-card list,
   * so it is exactly two lines: the header and the card's row.
   */
  lemma SingleCardCsvIsExport(c: Flashcard)
    ensures SingleCardCsv(c) == FlashcardsToCsv([c])
    ensures SingleLine(c) ==> Split(SingleCardCsv(c), '\n') == [ExportHeader, ExportRow(c)]
  {
    FlashcardsToCsvSnoc([], c);
    assert [] + [c] == [c];
    if SingleLine(c) {
      FlashcardsToCsvLines([c]);
      assert [ExportHeader] + Map(ExportRow, [c]) == [ExportHeader, ExportRow(c)];
    }
  }

  predicate IsStemChar(c: char) {
    'a' <= c <= 'z' || '0' <= c <= '9' || c == '_'
  }

  function ReplaceNonAlnum(c: char): char {
    if IsAsciiAlnum(c) then c else '_'
  }

  /**
   * `sourceTitle.replace(/[^a-z0-9]/gi, '_').toLowerCase()`: one character
   * per title character, a letter or digit lower-cased, anything else `_`.
   */
  function SanitizeTitle(title: string): (r: string)
    ensures |r| == |title|
    ensures forall k :: 0 <= k < |r| ==> IsStemChar(r[k])
    ensures forall k :: 0 <= k < |r| ==> (r[k] == '_' <==> !IsAsciiAlnum(title[k]))
    ensures forall k :: 0 <= k < |r| && IsAsciiAlnum(title[k]) ==> r[k] == LowerChar(title[k])
  {
    Lower(Map(ReplaceNonAlnum, title))
  }

  /** An already sanitised stem maps to itself. */
  lemma SanitizeTitleIdempotent(title: string)
    ensures SanitizeTitle(SanitizeTitle(title)) == SanitizeTitle(title)
  {
  }

  /**
   * The download name of the single-card export: the sanitised title, with
   * `_` exactly where the title has no ASCII letter or digit, then the suffix.
   */
  function ExportFileName(title: string): (r: string)
    ensures |r| == |title| + |"_flashcards.csv"|
    ensures r[..|title|] == SanitizeTitle(title)
    ensures forall k :: 0 <= k < |title| ==> IsStemChar(r[k])
    ensures forall k :: 0 <= k < |title| ==> (r[k] == '_' <==> !IsAsciiAlnum(title[k]))
    ensures r[|title|..] == "_flashcards.csv"
  {
    SanitizeTitle(title) + "_flashcards.csv"
  }
}
