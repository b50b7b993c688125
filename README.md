# InstaCards core, modelled in Dafny

InstaCards has two parts:

- a browser extension ("Article-to-Flashcards") that turns the article on the current page into flashcards, keeps them in an IndexedDB object store keyed by card id, and exports them as CSV;
- a small web UI with a project dashboard and a bookmarks page, both working over constant data.

This project models the logic of both parts that is more than plumbing:

- **CSV export.** There are three serialisers:
  - `flashcardsToCSV` in the background worker and its compiled twin;
  - `generateCSV` in the content script;
  - the single-card export of the compiled content script.

  Each quotes the question and the answer with every `"` doubled (section 2, rules 5 to 7, of RFC 4180). The two card exports write the type and the difficulty bare; `generateCSV` has no type column and writes the difficulty bare. Each quotes the tags joined by `, ` without doubling. The model includes a reader for quoted fields, so the quoting can be proved to round-trip.
- **Export file name.** The name of the download.
- **Schedules and the review queue.** The fixed initial review schedule that every creation path writes, the review-queue query, and the popup's in-place sort by `nextReview`.
- **The card store.** The `flashcards` object store, as a class over a map from id to card. It has put, get, delete, clear, count and list, plus the popup figures built on top of them.
- **Page text.** The extraction of title, article text and keywords from page text.
- **Card creation.** The placeholder-card generators, and the loop that stamps generated cards before saving them.
- **Web UI.** The dashboard's task listing, its filter, and its constant-data tiles; the bookmarks page's filter, its category counts, and its constant data.

The model uses these conventions:

- **Time.** Timestamps are integer milliseconds. The source stores ISO-8601 strings, and its range query relies on those strings comparing in time order.
- **Clocks and ids.** The clock and the id generators (`Date.now()`, `crypto.randomUUID()`) are parameters.
- **Text.** Strings are sequences of characters. `trim`, `toLowerCase`, `includes`, `split` and `join` are modelled over ASCII.
- **Ease factor.** The ease factor is the constant `2.5`, held as a `real`.

Two parts of the code suggest more than they do:

- `calculateSchedule` carries a comment naming the SM-2 algorithm (extension/content.ts:404), but it returns fixed values. `ReviewCard.quality`, a 0–5 review grade (extension/types.ts:23), is declared and never read. No code computes a new interval, repetition or ease factor.
- `getReviewQueue` queries the `nextReview` index with `IDBKeyRange.lowerBound(now)` (extension/dist/popup.js:36-42). It keeps the cards with `nextReview >= now`, which are the ones not yet due.

The model follows the code.

Modules, one per file:

- `Wrappers`: `Option` and `Result`.
- `Seqs`: `filter`, `map` and `flat`.
- `Text`: the string primitives.
- `Cards`: the flashcard record and the schedules.
- `Csv`: the serialisers and the file name.
- `Sorting`: the in-place sort and the review-queue selection.
- `Store`: the `Database` class.
- `Popup`, `Background`, `Content`: the extension scripts.
- `Dashboard`, `BookmarksPage`: the web UI.

The popup's two `Database` classes, in `extension/popup.ts` and `extension/dist/popup.js`, work on the same object store. They are modelled by the one class `Store.Database`.

## Model

| member | source | states |
|---|---|---|
| Seqs.Filter | extension/content.ts:69 | `filter` keeps only elements of the input that pass the test, keeps every one that does, and never lengthens the list |
| Seqs.FilterConcat | web-ui/app/page.tsx:122-128 | filtering a concatenation is the concatenation of the filtered parts, so `filter` preserves order |
| Seqs.FilterAll | web-ui/app/page.tsx:122-128 | a filter every element passes returns the list unchanged |
| Seqs.Map | extension/content.ts:68 | `map` keeps the length and applies the function at every index |
| Seqs.FlattenConcat | web-ui/app/page.tsx:114-116 | flattening a concatenation of lists is the concatenation of the flattenings |
| Seqs.FlattenMembership | web-ui/app/page.tsx:114-116 | an element is in the flattening exactly when it is in one of the inner lists |
| Text.TrimStart | extension/content.ts:68 | the leading whitespace removed: a suffix of the input, not starting with a space, and only spaces were dropped |
| Text.TrimEnd | extension/content.ts:68 | the trailing whitespace removed: a prefix of the input, not ending with a space, and only spaces were dropped |
| Text.Trim | extension/content.ts:41 | `trim()` returns `s[i..j]` for some `i <= j` where everything before `i` and from `j` on is whitespace, and the result neither starts nor ends with whitespace |
| Text.TrimTrimmed | extension/content.ts:84 | a string with no whitespace at either end trims to itself |
| Text.TrimIdempotent | extension/content.ts:84 | trimming twice is trimming once |
| Text.TrimKeepsOut | extension/content.ts:84 | a character absent from a string is absent from its trimmed form |
| Text.Lower | web-ui/app/page.tsx:123-124 | `toLowerCase()` keeps the length and lower-cases each character |
| Text.ContainsEmpty | web-ui/app/page.tsx:123-124 | every string includes the empty string, so an empty search matches everything |
| Text.ContainsKeepsOut | extension/content.ts:41 | a character absent from a string is absent from every substring of it |
| Text.IndexOf | extension/content.ts:84 | the first index holding the separator |
| Text.Split | extension/content.ts:84 | `split(',')` gives at least one piece, and no piece holds the separator |
| Text.JoinSnoc | extension/background.ts:149 | joining one more part appends the separator and that part: no leading or trailing separator |
| Text.JoinEmpty | extension/content.ts:70 | a join of non-empty parts is empty exactly when there are no parts |
| Text.JoinAppend | extension/content.ts:67-70 | appending a non-empty part to a join of non-empty parts gives the part alone when the join was empty, else join, separator, part |
| Text.JoinSplit | extension/content.ts:84 | joining the pieces of a split with the separator gives back the string |
| Text.SplitJoin | extension/background.ts:149 | splitting a join of separator-free parts gives back the parts |
| Text.IndexOfAfter | extension/content.ts:84 | in `a + sep + b` with `sep` not in `a`, the first separator is at the index equal to the length of `a` |
| Text.SplitCons | extension/content.ts:84 | a separator-free piece followed by the separator splits off as the first piece |
| Text.NatString | extension/background.ts:146 | the decimal digits of a natural number: at least one, all digits, and a leading `0` only for the number zero itself |
| Text.DecimalString | extension/background.ts:146 | `toString()` of an integer: a `-` in front exactly when the number is negative and nowhere else, followed by digits that read back as the number's magnitude |
| Text.ParseNatString | extension/background.ts:146 | reading back the decimal digits gives the number |
| Text.JoinLacks | extension/background.ts:147 | a character in neither the parts nor the separator is not in the join |
| Cards.TypeName | extension/types.ts:5 | the stored `type` string is `qa` exactly for question/answer cards and `multiple-choice` exactly for multiple-choice cards, and holds only lower-case letters and `-` |
| Cards.InitialSchedule | extension/background.ts:96-101 | the schedule every creation path writes: interval 1, repetition 0, ease 2.5, next review 86 400 000 ms after now |
| Cards.CalculateScheduleAsWrittenFails | extension/content.ts:405-421 | as written, evaluating `calculateSchedule` never produces a schedule, whatever the difficulty |
| Cards.CalculateSchedule | extension/content.ts:405-421 | with the ease factor bound to `easinessFactor`, the result is the initial schedule: `interval * 24 * 60 * 60 * 1000` is one day |
| Cards.CalculateScheduleIgnoresDifficulty | extension/content.ts:405-421 | the schedule is the same for every difficulty |
| Cards.DoneCount | extension/popup.ts:112 | the done count never exceeds the number of cards |
| Cards.DoneCountConcat | extension/popup.ts:112 | the done count of a concatenation is the sum of the done counts |
| Cards.NewCardNotDone | extension/popup.ts:138-156 | a card with a fresh schedule is not done, so adding one leaves the done count unchanged |
| Cards.DistinctIdsSnoc | extension/dist/popup.js:19-28 | appending a card with a new id keeps ids distinct |
| Cards.FilterKeepsDistinctIds | extension/dist/popup.js:37 | filtering keeps ids distinct |
| Cards.IdSetMembers | extension/dist/popup.js:19-28 | the id set of a list holds exactly the ids of its cards |
| Cards.IdSetSize | extension/dist/popup.js:19-28 | a list with distinct ids has as many ids as cards |
| Cards.ListedOncePerKey | extension/dist/popup.js:46-55 | a distinct-id listing of exactly the cards under a set of keys has one element per key, which ties listing lengths to store counts |
| Csv.EscapeQuotes | extension/background.ts:143-144 | `replace(/"/g, '""')` keeps every character other than `"`, and introduces no other |
| Csv.EscapeQuotesNoQuote | extension/background.ts:143-144 | a string without quotes is its own escape |
| Csv.ScanEscaped | extension/background.ts:143-144 | reading an escaped body followed by the closing quote recovers the original string and the rest |
| Csv.QuoteRoundTrip | extension/background.ts:143-144 | a quoted field reads back as exactly the original question or answer, and the reader stops right after the closing quote |
| Csv.TagsFieldReadsBack | extension/background.ts:147 | when no tag holds a quote, the tags field reads back as the tags joined by `, ` |
| Csv.TagWithQuoteBreaksField | extension/dist/content.js:198 | tags are not escaped: a tag `a"b` ends the field early, which reads back as `a` |
| Csv.FlashcardsToCsv | extension/background.ts:140-150 | the text starts with the header `Question,Answer,Type,Difficulty,Tags`, and with no cards it is just the header |
| Csv.GenerateCsv | extension/content.ts:293-303 | the text starts with the four-column header `Question,Answer,Difficulty,Tags`, and with no cards it is just the header |
| Csv.LeadingFieldsRoundTrip | extension/dist/background.js:131-132 | two quoted fields separated by a comma read back as the original pair |
| Csv.ExportRowFields | extension/dist/background.js:130-136 | the first two fields of an export row read back as the card's question and answer |
| Csv.ContentRowFields | extension/content.ts:295-300 | the first two fields of a `generateCSV` row read back as the card's question and answer |
| Csv.DecimalNoNewline | extension/background.ts:146 | a difficulty's decimal text holds no line feed |
| Csv.TypeNameNoNewline | extension/background.ts:145 | a type name holds no line feed |
| Csv.ExportRowSingleLine | extension/background.ts:142-148 | the row of a card without line feeds in its text is one line |
| Csv.FlashcardsToCsvLines | extension/background.ts:149 | split at line feeds, the export is the header followed by exactly one row per card, in input order |
| Csv.GenerateCsvLines | extension/content.ts:302 | split at line feeds, `generateCSV`'s text is its header followed by one row per card, in input order |
| Csv.FlashcardsToCsvSnoc | extension/dist/background.js:137 | one more card appends a line feed and its row: no trailing line feed |
| Csv.GenerateCsvSnoc | extension/content.ts:302 | one more card appends a line feed and its row |
| Csv.SingleCardCsvIsExport | extension/dist/content.js:196-198 | the single-card export equals the background export of a one-card list, and is exactly two lines: header and row |
| Csv.SanitizeTitle | extension/dist/content.js:203 | the stem has the title's length, only `[a-z0-9_]`, `_` exactly where the title is not an ASCII letter or digit, and lower-cased letters elsewhere |
| Csv.SanitizeTitleIdempotent | extension/dist/content.js:203 | a sanitised stem sanitises to itself |
| Csv.ExportFileName | extension/dist/content.js:203 | the download name is `SanitizeTitle(title)` followed by `_flashcards.csv`, so it has `_` exactly where the title has no ASCII letter or digit |
| Sorting.SortByNextReview | extension/dist/popup.js:41 | the in-place sort leaves the array ascending by `nextReview` and a permutation of what it held |
| Sorting.InsertLast | extension/dist/popup.js:41 | one insertion step extends the sorted prefix by one and permutes the array |
| Sorting.Swap | extension/dist/popup.js:41 | exchanging two slots permutes the array |
| Sorting.DistinctIdsOnce | extension/dist/popup.js:41 | in a list with distinct ids, each card occurs at most once |
| Sorting.PermutationKeepsDistinctIds | extension/dist/popup.js:41 | sorting cannot make two cards share an id |
| Sorting.ReviewQueue | extension/dist/popup.js:36-42 | the queue holds exactly the cards with `nextReview >= now`, including the bound, sorted ascending, as a permutation of the range result |
| Store.Database.constructor | extension/dist/popup.js:10-15 | the store that the upgrade handler of the first `open` creates is empty, and has the `nextReview` index exactly when it is created with one: the popup's compiled `open` creates the index, the background's and the options page's `init` do not; no later operation adds or drops it |
| Store.Database.AddFlashcard | extension/popup.ts:23-35 | `put` inserts the card under its id, or replaces the card with that id; nothing else changes |
| Store.Database.GetFlashcard | extension/popup.ts:51-63 | `get` returns the card stored under the id, or nothing exactly when the id is absent |
| Store.Database.DeleteFlashcard | extension/popup.ts:65-77 | `delete` removes that key and leaves every other card as it was |
| Store.Database.Clear | extension/popup.ts:79-91 | `clear` leaves the store empty |
| Store.Database.Count | extension/dist/popup.js:46-55 | `count` is the number of stored cards |
| Store.Database.GetAll | extension/dist/popup.js:19-28 | `getAll` lists every stored card exactly once and nothing else |
| Store.Database.GetReviewQueueAsWritten | extension/dist/popup.js:29-45 | `getReviewQueue` fails with `NotFoundError` exactly when the store lacks the `nextReview` index; otherwise it gives the queue below |
| Store.Database.GetReviewQueue | extension/dist/popup.js:29-45 | with the `nextReview` index in place, the review queue is every stored card with `nextReview >= now`, once each, ascending, and no longer than the store |
| Popup.LoadStatsAsWritten | extension/dist/popup.js:69-74 | `loadStats` fails, showing neither figure, exactly when the store lacks the `nextReview` index; otherwise it shows the figures below |
| Popup.LoadStatsAfterInstall | extension/dist/background.js:48-50 | after the install handler's `init` has created the store, and whatever cards are put afterwards, `loadStats` always fails with `NotFoundError` |
| Popup.LoadStats | extension/dist/popup.js:69-74 | with the `nextReview` index in place, the total is the store size; the queue figure is the number of stored cards with `nextReview >= now`, never above the total |
| Popup.UpdateStats | extension/popup.ts:109-121 | the total is the store size; done is the number of stored cards with three or more repetitions, so 0 <= done <= total |
| Popup.ShowFlashcards | extension/dist/popup.js:76-83 | with an empty store nothing is built; otherwise every stored card once, ascending by `nextReview` |
| Popup.DemoFlashcard | extension/popup.ts:138-154 | the demo card carries the given id, URL and time and the initial schedule, and is not done |
| Popup.AddDemoFlashcard | extension/popup.ts:124-156 | a key that trims to empty adds nothing; otherwise the demo card is put under its id; the `nextReview` index is left as it was |
| Background.PlaceholderAnswer | extension/background.ts:89 | the answer is `topic` when truthy, else `Based on the URL content`, and never empty |
| Background.PlaceholderCard | extension/background.ts:85-103 | the placeholder card carries the given id, URL and title, the placeholder answer and the initial schedule |
| Background.PutAllKeys | extension/background.ts:106-108 | after the save loop every generated card's id is a key; old keys remain and no other appears |
| Background.PutAllOthers | extension/background.ts:106-108 | a key no generated card carries keeps its old card |
| Background.SaveAll | extension/background.ts:106-108 | the loop puts each card in turn, the store ending as the successive puts give, with the `nextReview` index left as it was |
| Background.GenerateFlashcardsAsWritten | extension/background.ts:73-114 | as written, every request fails: without a truthy API key with `API key is required`, and with one with the `ReferenceError` message of `document.title`; the store is never written |
| Background.GenerateFlashcards | extension/background.ts:73-114 | without a truthy API key it fails with `API key is required` and the store is unchanged; otherwise the placeholder card is stored under its id and returned; the `nextReview` index is left as it was |
| Background.ExportFormat | extension/dist/background.js:57 | `format \|\| 'csv'` is `csv` exactly when the format is missing, empty or `csv` |
| Background.ExportFlashcards | extension/dist/background.js:104-118 | CSV text of the stored cards exactly when the format is missing, empty or `csv`, otherwise the cards themselves |
| Content.ExtractTitle | extension/content.ts:40-41 | the trimmed heading when it is non-empty after trimming, else the document title |
| Content.ArticleTextEmpty | extension/content.ts:66-70 | the article text is empty exactly when every paragraph is blank |
| Content.KeptParagraphsSnoc | extension/content.ts:67-69 | one more paragraph adds its trimmed text to the kept paragraphs unless it is blank |
| Content.ArticleTextSnoc | extension/content.ts:66-70 | paragraphs keep document order: a blank one adds nothing, any other adds its trimmed text after a blank line |
| Content.ExtractContent | extension/dist/content.js:24-34 | no content container gives the empty string, otherwise the article text of its paragraphs |
| Content.Keywords | extension/content.ts:83-94 | the keyword list is never empty: the meta keywords when any survive, else `[title, 'article', 'webpage']` |
| Content.TrimmedPieceClean | extension/content.ts:84 | each piece of a meta tag is already trimmed and holds no comma |
| Content.MetaKeywordsClean | extension/content.ts:83-86 | every meta keyword is non-empty, trimmed, and holds no comma |
| Content.MetaKeywordsSnoc | extension/content.ts:83-86 | keywords keep the order of the meta tags and of the pieces within each |
| Content.PagePlaceholderCard | extension/dist/content.js:49-66 | the question is `What is the main topic of "<title>"?`, the difficulty 2, the schedule the initial one |
| Content.GeneratePageFlashcards | extension/dist/content.js:40-74 | fails with `Could not extract content from page` exactly when the content is empty, else gives the one placeholder card |
| Content.Stamp | extension/content.ts:382-387 | one pass sets id, source URL and title, creation time and the initial schedule, and leaves question, answer, tags, type and difficulty unchanged |
| Content.StampCards | extension/content.ts:382-387 | after the loop every card is its old self stamped with its own id and time, with the schedule of the corrected `calculateSchedule` (as written, line 387 throws on the first card, after lines 383-386 have stamped it) |
| Dashboard.AllTasksMembers | web-ui/app/page.tsx:114-116 | a task is listed exactly when some project holds it |
| Dashboard.AllTasksSnoc | web-ui/app/page.tsx:114-116 | tasks come project by project, in project order |
| Dashboard.FilteredTasksMembers | web-ui/app/page.tsx:122-128 | `filteredTasks` keeps exactly the tasks whose lower-cased name or description includes the lower-cased query and whose status and priority match (`all` matches any) |
| Dashboard.FilteredTasksSnoc | web-ui/app/page.tsx:122-128 | the filter keeps the listing order |
| Dashboard.FilteredTasksUnfiltered | web-ui/app/page.tsx:122-128 | an empty query with both selects on `all` keeps every task |
| Dashboard.SelectionDoesNotNarrow | web-ui/app/page.tsx:118-128 | with project 2 selected, the list as written still holds task `1-1` of project 1, which the list over the selected project does not hold |
| Dashboard.FilteredTasksOfSelectionNarrows | web-ui/app/page.tsx:118-120 | over `selectedProjectData`, with a project selected, a task is shown exactly when it belongs to that project and passes the filter; with `all` the list is `filteredTasks` |
| Dashboard.FindProject | web-ui/app/page.tsx:363 | `find` returns the first project with the id (no earlier project has it), or nothing when no project has it |
| Dashboard.ProjectLookupSucceeds | web-ui/app/page.tsx:363 | when every task names its enclosing project, looking up a listed task's project succeeds |
| Dashboard.ProjectOneCounts | web-ui/app/page.tsx:30-54 | project 1's `totalTasks` (12) and `completedTasks` (5) match its tasks |
| Dashboard.ProjectTwoCounts | web-ui/app/page.tsx:55-70 | project 2's `totalTasks` (4) and `completedTasks` (1) match its tasks |
| Dashboard.ProjectThreeCounts | web-ui/app/page.tsx:71-87 | project 3's `totalTasks` (5) and `completedTasks` (2) match its tasks |
| Dashboard.ProjectIdsAgree | web-ui/app/page.tsx:36-83 | every constant task names the project that holds it |
| Dashboard.ProjectsConsistent | web-ui/app/page.tsx:29-88 | every project's counts agree with its tasks, and every listed task's project lookup succeeds |
| Dashboard.ActiveProjects | web-ui/app/page.tsx:243 | the active-projects tile shows 2 |
| Dashboard.AllTasksOfProjects | web-ui/app/page.tsx:114-116 | on the constant data, all tasks are project 1's, then 2's, then 3's |
| Dashboard.DoneOfThree | web-ui/app/page.tsx:253 | the done count of three concatenated task lists is the sum of theirs |
| Dashboard.TotalTasksTile | web-ui/app/page.tsx:273 | the total-tasks tile shows 21 |
| Dashboard.DoneTasksTile | web-ui/app/page.tsx:253 | the tasks-completed tile shows 8, the sum 5 + 1 + 2 of the projects' `completedTasks` |
| Dashboard.DashboardTiles | web-ui/app/page.tsx:243-273 | the tiles show 2 active projects, 8 tasks done and 21 tasks |
| BookmarksPage.FilteredBookmarksMembers | web-ui/app/bookmarks/page.tsx:106-112 | `filteredBookmarks` keeps, in order, exactly the bookmarks whose category matches (`all` matches any) and whose lower-cased title, description or URL includes the lower-cased query |
| BookmarksPage.FilteredBookmarksUnfiltered | web-ui/app/bookmarks/page.tsx:106-112 | with `all` selected and an empty query, every bookmark is shown |
| BookmarksPage.CountsPartition | web-ui/app/bookmarks/page.tsx:114-120 | when every bookmark has one of the four real categories, `all` is the sum of the four counts |
| BookmarksPage.WorkCount | web-ui/app/bookmarks/page.tsx:116 | four bookmarks are in `work` |
| BookmarksPage.LearningCount | web-ui/app/bookmarks/page.tsx:117 | two bookmarks are in `learning` |
| BookmarksPage.ToolsCount | web-ui/app/bookmarks/page.tsx:118 | two bookmarks are in `tools` |
| BookmarksPage.InspirationCount | web-ui/app/bookmarks/page.tsx:119 | no bookmark is in `inspiration` |
| BookmarksPage.BookmarksKnown | web-ui/app/bookmarks/page.tsx:16-100 | every bookmark's category is listed in `categories` and is not `all` |
| BookmarksPage.BookmarkIdsDistinct | web-ui/app/bookmarks/page.tsx:24-100 | bookmark ids are distinct |
| BookmarksPage.BookmarkTiles | web-ui/app/bookmarks/page.tsx:136-148 | the hard-coded `4` is the number of categories other than `all`, and the `8` is `bookmarks.length` |

## Left out

- No SM-2 update is modelled, because none exists in the code. `ReviewCard.quality` (extension/types.ts:23) is declared but never read.
- IndexedDB plumbing is not modelled beyond the `nextReview` index: opening the database, version upgrades, transactions, their error callbacks, and the promises that never settle when `open` fails. Each store operation is the effect of its completed transaction.
- Csv.SanitizeTitle: a Dafny `char` is a Unicode scalar value, while a JavaScript string is a sequence of UTF-16 code units and the regular expression (no `u` flag) replaces each code unit. A character outside the Basic Multilingual Plane, such as an emoji, therefore becomes two `_` in the source and one `_` in the model. The stem has the title's length only when that length is counted in code units.
- Store.Database.GetAll: IndexedDB returns the cards in key order; the model only promises each stored card once, in some order.
- Sorting.SortByNextReview: JavaScript's `sort` is stable; stability is not proved, only sortedness and permutation.
- DOM work is not modelled: scraping, `waitForContent` and its timers, overlays, HTML building, Blob downloads and `alert`. What the DOM queries return is given as plain strings.
- The network is not modelled: the call to the LLM service and the parsing of its reply (extension/content.ts:99-149). Cards enter `Content.StampCards` as they arrive.
- `chrome.runtime` messaging, `chrome.storage`, `chrome.tabs` and `chrome.scripting` are not modelled.
  - The content script sends `GET_API_KEYS` and `SAVE_FLASHCARD` messages, which no listener here handles.
  - The options page is not part of this model.
- The export dispatch of extension/background.ts:64 passes the whole message payload as the format. Only the compiled twin's `format || 'csv'` is modelled.
- Content.StampCards takes one clock reading per pass for both `createdAt` and the schedule. The source reads the clock twice, a moment apart, so its `nextReview` may be a little more than one day after `createdAt`.
- Popup.DemoFlashcard takes one clock reading for `createdAt` and `nextReview`. The source reads the clock separately for each (extension/popup.ts:139,147,149).
- Background.PlaceholderCard takes one clock reading for `createdAt` and `nextReview`. The source reads the clock separately for each (extension/background.ts:87,95,97).
- Content.PagePlaceholderCard takes one clock reading for `createdAt` and `nextReview`. The source reads the clock separately for each (extension/dist/content.js:51,59,61).
- Background.GenerateFlashcards takes the page title as a parameter. The source reads `document.title`, which the service worker does not have (see Findings). Its success path also needs a sender that supplies a truthy `apiKey`. The only sender in the source, the content script (extension/dist/content.js:187-192), sends `url` and `title` and no key, so its request fails at the key check (extension/background.ts:75-78) in the source and in the model alike.
- web-ui/app/bookmarks/page.tsx calls `useState` (lines 103-104) without importing it; its imports at lines 3-4 bring in only `motion` and icons, so the page as written does not compile. The model takes the filter and the counts as the evident intent of the page.
- Clocks, ISO-8601 formatting, `Date.now().toString()` ids and `crypto.randomUUID()` are parameters.
- Floating-point display maths is not modelled: progress percentages, `totalProgress`, and the `done / total` bar (which divides by zero for an empty store). The ease factor is only ever the constant 2.5.
- Unicode case mapping and Unicode whitespace are not modelled: `toLowerCase` and `trim` are modelled over ASCII.
- Some fields are not modelled: the card's optional `options` and `correctAnswer`, the project's optional `deadline`, and the project's required `description`, `icon` and `startDate`, which no modelled operation reads.
- React state, animation and rendering are not modelled; filter inputs are parameters.
- The web UI type declarations (web-ui/types/index.ts) and the build configuration are not part of this model.

## Findings

| source | as written | input that shows it | evidently intended | confidence | as-written member | corrected member |
|---|---|---|---|---|---|---|
| extension/dist/popup.js:29-74 | `getReviewQueue` reads `index('nextReview')`, but only the popup's own `open` creates that index (line 14), in an upgrade handler that runs only when the database does not exist yet. On install, the background's `init` (extension/dist/background.js:48-50, 11-16) creates the store without the index, so line 35 throws `NotFoundError` and `loadStats` rejects before writing either figure | install the extension, then open the popup | create the `nextReview` index in every `init` that creates the store | medium; not executed | Popup.LoadStatsAfterInstall | Popup.LoadStats |
| extension/content.ts:405-421 | the returned object uses the shorthand `easeFactor`, but the only binding is `easinessFactor` (line 411), so every call raises a ReferenceError, and the save loop in `main` (line 387) aborts on its first card | `calculateSchedule(5)` | `easeFactor: easinessFactor`, giving interval 1, repetition 0, ease 2.5, due one day later | high; not executed | Cards.CalculateScheduleAsWrittenFails | Cards.CalculateSchedule |
| extension/background.ts:73-114 | the worker reads `document.title` (line 82) after the key check; the background script runs as a service worker (line 54), which has no `document`, so the read throws, the `catch` at lines 111-113 reports the error, and no card is stored | any request with a truthy `apiKey` | take the title the sender supplies (the content script's message carries `title`, extension/dist/content.js:187-192); that sender sends no `apiKey`, so its own request would still stop at the key check (lines 75-78) | medium; not executed | Background.GenerateFlashcardsAsWritten | Background.GenerateFlashcards |
| web-ui/app/page.tsx:118-128 | `filteredTasks` filters `getAllTasks()` and never reads `selectedProject`; `selectedProjectData` is computed but never used, though the view at line 360 is meant to show the selected project's tasks | `selectedProject = '2'`, empty query, both selects `all`: task `1-1` of project 1 is shown | filter the tasks of `selectedProjectData` | medium; not executed | Dashboard.SelectionDoesNotNarrow | Dashboard.FilteredTasksOfSelectionNarrows |
