/** The bookmarks page of the web UI: the hard-coded bookmarks, their filter and the category counts. */
module BookmarksPage {
  import opened Wrappers
  import opened Seqs
  import opened Text

  datatype Bookmark = Bookmark(id: string, title: string, url: string, description: string,
                               category: string, notes: Option<string>, addedDate: string)

  const Categories: seq<string> := ["all", "work", "learning", "tools", "inspiration"]

  const Bookmarks: seq<Bookmark> := [
    Bookmark("1", "Project Manager Dashboard", "https://web-ui-jade.vercel.app",
      "Project management and X Strategy tracking", "work", Some("Main dashboard for tracking all projects"), "2026-02-20"),
    Bookmark("2", "Project Manager Repo", "https://github.com/chrisonclawd-coder/project-manager.git",
      "Source code for Project Manager", "work", Some("Stores session templates and metrics"), "2026-02-20"),
    Bookmark("3", "Article-to-Flashcards", "https://web-ui-jade.vercel.app",
      "Flashcard generator app", "work", Some("AI-powered flashcard creation from any webpage"), "2026-02-20"),
    Bookmark("4", "InstaCards Repo", "https://github.com/chrisonclawd-coder/InstaCards.git",
      "Source code for Article-to-Flashcards", "work", Some("Chrome extension + Web UI"), "2026-02-20"),
    Bookmark("5", "Exa Web Search Docs", "https://docs.exa.ai",
      "AI-optimized web search API documentation", "learning", Some("Used for X Strategy research"), "2026-02-23"),
    Bookmark("6", "Twitter Algorithm Optimizer", "https://github.com/chrisonclawd-coder",
      "X Strategy post optimization skill", "learning", Some("Provides tweet templates and engagement strategies"), "2026-02-23"),
    Bookmark("7", "OpenRouter API", "https://openrouter.ai/api/docs",
      "AI model API documentation", "tools", Some("Used for extension AI flashcard generation"), "2026-02-23"),
    Bookmark("8", "Next.js Docs", "https://nextjs.org/docs",
      "Next.js 14 documentation", "tools", Some("Used for web UI development"), "2026-02-23")
  ]

  /** The two tests of `filteredBookmarks`. */
  predicate BookmarkMatches(b: Bookmark, selected: string, query: string) {
    && (selected == "all" || b.category == selected)
    && (Contains(Lower(b.title), Lower(query)) || Contains(Lower(b.description), Lower(query))
        || Contains(Lower(b.url), Lower(query)))
  }

  function BookmarkFilter(selected: string, query: string): Bookmark -> bool {
    (b: Bookmark) => BookmarkMatches(b, selected, query)
  }

  /** `filteredBookmarks`. */
  function FilteredBookmarks(bookmarks: seq<Bookmark>, selected: string, query: string): seq<Bookmark> {
    Filter(BookmarkFilter(selected, query), bookmarks)
  }

  /** `filteredBookmarks` keeps exactly the bookmarks that pass both tests, in their original order. */
  lemma FilteredBookmarksMembers(bookmarks: seq<Bookmark>, selected: string, query: string, b: Bookmark)
    ensures b in FilteredBookmarks(bookmarks, selected, query) <==> b in bookmarks && BookmarkMatches(b, selected, query)
    ensures forall more :: (FilteredBookmarks(bookmarks + more, selected, query)
      == FilteredBookmarks(bookmarks, selected, query) + FilteredBookmarks(more, selected, query))
  {
    if b in bookmarks && BookmarkMatches(b, selected, query) {
      var k :| 0 <= k < |bookmarks| && bookmarks[k] == b;
      assert BookmarkFilter(selected, query)(bookmarks[k]);
    }
    forall more ensures FilteredBookmarks(bookmarks + more, selected, query)
      == FilteredBookmarks(bookmarks, selected, query) + FilteredBookmarks(more, selected, query)
    {
      FilterConcat(BookmarkFilter(selected, query), bookmarks, more);
    }
  }

  /** With `'all'` selected and an empty search, every bookmark is shown. */
  lemma FilteredBookmarksUnfiltered(bookmarks: seq<Bookmark>)
    ensures FilteredBookmarks(bookmarks, "all", "") == bookmarks
  {
    forall b | b in bookmarks ensures BookmarkFilter("all", "")(b) {
      ContainsEmpty(Lower(b.title));
      assert Lower("") == "";
    }
    FilterAll(BookmarkFilter("all", ""), bookmarks);
  }

  function InCategory(category: string): Bookmark -> bool {
    (b: Bookmark) => b.category == category
  }

  /** One entry of `categoryCounts`. */
  function CategoryCount(bookmarks: seq<Bookmark>, category: string): nat {
    |Filter(InCategory(category), bookmarks)|
  }

  /** `categoryCounts` as a record. */
  datatype CategoryCounts = CategoryCounts(all: nat, work: nat, learning: nat, tools: nat, inspiration: nat)

  function CountCategories(bookmarks: seq<Bookmark>): CategoryCounts {
    CategoryCounts(|bookmarks|, CategoryCount(bookmarks, "work"), CategoryCount(bookmarks, "learning"),
      CategoryCount(bookmarks, "tools"), CategoryCount(bookmarks, "inspiration"))
  }

  /** Every bookmark has one of the four real categories. */
  predicate KnownCategories(bookmarks: seq<Bookmark>) {
    forall i :: 0 <= i < |bookmarks| ==> bookmarks[i].category in Categories[1..]
  }

  /** When every bookmark has a real category, the `all` count is the sum of the four others. */
  lemma {:induction false} CountsPartition(bookmarks: seq<Bookmark>)
    requires KnownCategories(bookmarks)
    ensures var n := CountCategories(bookmarks); n.all == n.work + n.learning + n.tools + n.inspiration
  {
    if bookmarks != [] {
      var rest := bookmarks[1..];
      assert KnownCategories(rest) by {
        forall i | 0 <= i < |rest| ensures rest[i].category in Categories[1..] {
          assert rest[i] == bookmarks[i + 1];
        }
      }
      CountsPartition(rest);
      assert bookmarks[0].category in Categories[1..];
    }
  }

  lemma WorkCount()
    ensures CategoryCount(Bookmarks, "work") == 4
  {
  }

  lemma LearningCount()
    ensures CategoryCount(Bookmarks, "learning") == 2
  {
  }

  lemma ToolsCount()
    ensures CategoryCount(Bookmarks, "tools") == 2
  {
  }

  lemma InspirationCount()
    ensures CategoryCount(Bookmarks, "inspiration") == 0
  {
  }

  lemma BookmarksKnown()
    ensures KnownCategories(Bookmarks)
  {
  }

  lemma BookmarkIdsDistinct()
    ensures forall i, j :: 0 <= i < j < |Bookmarks| ==> Bookmarks[i].id != Bookmarks[j].id
  {
  }

  /**
   * The hard-coded tiles: 4 is the number of categories other than `'all'`
   * (none of which is `'all'`), and 8 is the number of bookmarks.
   */
  lemma BookmarkTiles()
    ensures |Categories| - 1 == 4 && "all" !in Categories[1..]
    ensures CountCategories(Bookmarks).all == 8
  {
  }
}
