/** Feed entries, scored articles, the ranking `sorted(..., key=(score,
    published), reverse=True)`, the fetch-and-score loop and the keyword
    window used for trends. */
module Articles {
  import opened Wrappers
  import opened Seqs
  import opened Text
  import opened Keywords
  import opened Counting

  /** `NUM_ARTICLES_TO_SCAN` */
  const ScanLimit: nat := 50
  /** the argument of `most_common` for trending keywords */
  const TrendLimit: nat := 20
  /** stored when an entry has no summary */
  const NoSummary: string := "No summary available."

  /** One entry of a parsed feed. `published` is the entry's timestamp as the
      caller resolved it; `summary` is `None` when the entry has none. */
  datatype Entry = Entry(title: string, link: string, published: int, summary: Option<string>)

  /** The article record built for each entry. */
  datatype Article = Article(
    title: string, link: string, published: int, summary: string,
    keywords: seq<string>, score: nat)

  /** One entry turned into an article. The keywords come from the title and
      the summary, or the title alone when there is no summary, while the
      stored summary then is the placeholder `NoSummary`. */
  function ScoreEntry(e: Entry, company: set<string>, stop: set<string>): (a: Article)
    ensures a.title == e.title && a.link == e.link && a.published == e.published
    ensures forall k :: 0 <= k < |a.keywords| ==> |a.keywords[k]| >= 3 && IsLowerWord(a.keywords[k]) && a.keywords[k] !in stop
    ensures a.score <= |company| && a.score <= |WordSet(a.keywords)|
    ensures company == {} ==> a.score == 0
  {
    var text := e.title + " " + e.summary.GetOr("");
    var words := CleanText(text);
    var keywords := FilterStopwords(words, stop);
    assert forall k :: 0 <= k < |keywords| ==> keywords[k] in words by {
      forall k | 0 <= k < |keywords| ensures keywords[k] in words {
        assert multiset(keywords)[keywords[k]] > 0;
      }
    }
    Article(e.title, e.link, e.published, e.summary.GetOr(NoSummary), keywords, Score(keywords, company))
  }

  /** The keywords are the cleaned words of the title and the summary, in text
      order, each kept as often as it occurs unless it is a stop word. */
  lemma ScoreEntryKeywords(e: Entry, company: set<string>, stop: set<string>)
    ensures var words, keywords := CleanText(e.title + " " + e.summary.GetOr("")), ScoreEntry(e, company, stop).keywords;
      && IsSubsequence(keywords, words)
      && forall w :: multiset(keywords)[w] == if w in stop then 0 else multiset(words)[w]
  {
    FilterStopwordsIsSubsequence(CleanText(e.title + " " + e.summary.GetOr("")), stop);
  }

  /** A missing summary: the keywords are those of an empty summary, but the
      placeholder text is what later steps read as the summary. */
  lemma MissingSummary(e: Entry, company: set<string>, stop: set<string>)
    requires e.summary.None?
    ensures ScoreEntry(e, company, stop).summary == NoSummary
    ensures ScoreEntry(e, company, stop).keywords == ScoreEntry(e.(summary := Some("")), company, stop).keywords
    ensures ScoreEntry(e, company, stop).score == ScoreEntry(e.(summary := Some("")), company, stop).score
  {
  }

  /** The articles of one feed, in entry order. */
  function ScoreEntries(entries: seq<Entry>, company: set<string>, stop: set<string>): (arts: seq<Article>)
    ensures |arts| == |entries|
  {
    if entries == [] then []
    else ScoreEntries(entries[..|entries| - 1], company, stop) + [ScoreEntry(entries[|entries| - 1], company, stop)]
  }

  /** The articles of all feeds, feed by feed. */
  function ScoreFeeds(feeds: seq<seq<Entry>>, company: set<string>, stop: set<string>): seq<Article> {
    if feeds == [] then []
    else ScoreFeeds(feeds[..|feeds| - 1], company, stop) + ScoreEntries(feeds[|feeds| - 1], company, stop)
  }

  lemma ScoreEntriesStep(entries: seq<Entry>, i: nat, company: set<string>, stop: set<string>)
    requires i < |entries|
    ensures ScoreEntries(entries[..i + 1], company, stop) == ScoreEntries(entries[..i], company, stop) + [ScoreEntry(entries[i], company, stop)]
  {
    assert entries[..i + 1][..i] == entries[..i];
  }

  lemma ScoreFeedsStep(feeds: seq<seq<Entry>>, f: nat, company: set<string>, stop: set<string>)
    requires f < |feeds|
    ensures ScoreFeeds(feeds[..f + 1], company, stop) == ScoreFeeds(feeds[..f], company, stop) + ScoreEntries(feeds[f], company, stop)
  {
    assert feeds[..f + 1][..f] == feeds[..f];
  }

  function EntryCount(feeds: seq<seq<Entry>>): nat {
    if feeds == [] then 0 else EntryCount(feeds[..|feeds| - 1]) + |feeds[|feeds| - 1]|
  }

  /** One article per entry of every feed. */
  lemma {:induction false} ScoreFeedsLength(feeds: seq<seq<Entry>>, company: set<string>, stop: set<string>)
    ensures |ScoreFeeds(feeds, company, stop)| == EntryCount(feeds)
  {
    if feeds != [] {
      ScoreFeedsLength(feeds[..|feeds| - 1], company, stop);
    }
  }

  // ---------------------------------------------------------------------------
  // ranking

  /** `(a.score, a.published) >= (b.score, b.published)`, lexicographically. */
  predicate KeyAtLeast(a: Article, b: Article) {
    a.score > b.score || (a.score == b.score && a.published >= b.published)
  }

  predicate SameKey(a: Article, b: Article) {
    a.score == b.score && a.published == b.published
  }

  /** Insert `a` before the first article whose key is not larger. */
  function InsertArticle(a: Article, r: seq<Article>): (r': seq<Article>)
    ensures multiset(r') == multiset(r) + multiset{a}
  {
    if r == [] || KeyAtLeast(a, r[0]) then [a] + r
    else
      assert r == [r[0]] + r[1..];
      [r[0]] + InsertArticle(a, r[1..])
  }

  /** The ranking of `fetch_and_score_articles`: a stable sort on
      `(score, published)`, largest first. */
  function Rank(arts: seq<Article>): (ranked: seq<Article>)
    ensures multiset(ranked) == multiset(arts)
  {
    if arts == [] then []
    else
      assert arts == [arts[0]] + arts[1..];
      InsertArticle(arts[0], Rank(arts[1..]))
  }

  ghost predicate Descending(s: seq<Article>) {
    forall i, j :: 0 <= i < j < |s| ==> KeyAtLeast(s[i], s[j])
  }

  lemma {:induction false} InsertDescending(a: Article, r: seq<Article>)
    requires Descending(r)
    ensures Descending(InsertArticle(a, r))
  {
    var out := InsertArticle(a, r);
    if r == [] || KeyAtLeast(a, r[0]) {
      assert out == [a] + r;
      forall i, j | 0 <= i < j < |out| ensures KeyAtLeast(out[i], out[j]) {
        if i == 0 && j > 1 {
          assert KeyAtLeast(r[0], r[j - 1]);
        }
      }
    } else {
      var tail := r[1..];
      InsertDescending(a, tail);
      var rest := InsertArticle(a, tail);
      assert out == [r[0]] + rest;
      forall i, j | 0 <= i < j < |out| ensures KeyAtLeast(out[i], out[j]) {
        if i == 0 {
          var e := rest[j - 1];
          assert e in multiset(rest);
          if e != a {
            assert e in multiset(tail);
            var m :| 0 <= m < |tail| && tail[m] == e;
            assert KeyAtLeast(r[0], r[m + 1]);
          }
        } else {
          assert out[i] == rest[i - 1] && out[j] == rest[j - 1];
        }
      }
    }
  }

  /** The ranked list is ordered by `(score, published)`, largest first; in
      particular a higher score always comes first, whatever the dates. */
  lemma {:induction false} RankDescending(arts: seq<Article>)
    ensures Descending(Rank(arts))
    ensures forall i, j :: 0 <= i < |Rank(arts)| && 0 <= j < |Rank(arts)| && Rank(arts)[i].score > Rank(arts)[j].score ==> i < j
  {
    if arts != [] {
      RankDescending(arts[1..]);
      InsertDescending(arts[0], Rank(arts[1..]));
    }
  }

  /** The articles of `s` whose key equals that of `k`, in order. */
  function WithKeyOf(s: seq<Article>, k: Article): seq<Article> {
    if s == [] then []
    else (if SameKey(s[0], k) then [s[0]] else []) + WithKeyOf(s[1..], k)
  }

  lemma {:induction false} InsertWithKeyOf(a: Article, r: seq<Article>, k: Article)
    ensures WithKeyOf(InsertArticle(a, r), k) == (if SameKey(a, k) then [a] else []) + WithKeyOf(r, k)
  {
    var out := InsertArticle(a, r);
    if r == [] || KeyAtLeast(a, r[0]) {
      assert out == [a] + r && out[1..] == r;
    } else {
      InsertWithKeyOf(a, r[1..], k);
      assert out == [r[0]] + InsertArticle(a, r[1..]);
      assert out[1..] == InsertArticle(a, r[1..]);
      assert SameKey(a, k) ==> !SameKey(r[0], k);
    }
  }

  /** Stability: the articles sharing any one key appear in the ranked list
      in exactly their original (fetch) order. */
  lemma {:induction false} RankStable(arts: seq<Article>, k: Article)
    ensures WithKeyOf(Rank(arts), k) == WithKeyOf(arts, k)
  {
    if arts != [] {
      RankStable(arts[1..], k);
      InsertWithKeyOf(arts[0], Rank(arts[1..]), k);
    }
  }

  /** Ranking example: of two articles, the one with the higher score comes
      first whatever their publication dates. */
  lemma RankHigherScoreFirst(low: Article, high: Article)
    requires low.score < high.score
    ensures Rank([low, high]) == [high, low]
  {
    assert [low, high][1..] == [high];
  }

  // ---------------------------------------------------------------------------
  // fetch_and_score_articles

  /** The scoring loop of `fetch_and_score_articles` over the parsed feeds
      (one entry list per feed URL), followed by the ranking. */
  method FetchAndScore(feeds: seq<seq<Entry>>, company: set<string>, stop: set<string>) returns (ranked: seq<Article>)
    ensures ranked == Rank(ScoreFeeds(feeds, company, stop))
    ensures multiset(ranked) == multiset(ScoreFeeds(feeds, company, stop))
    ensures |ranked| == EntryCount(feeds)
    ensures Descending(ranked)
  {
    var articles: seq<Article> := [];
    for f := 0 to |feeds|
      invariant articles == ScoreFeeds(feeds[..f], company, stop)
    {
      var fromFeed := ScoreFeed(feeds[f], company, stop);
      ScoreFeedsStep(feeds, f, company, stop);
      articles := articles + fromFeed;
    }
    assert feeds[..|feeds|] == feeds;
    ranked := Rank(articles);
    RankDescending(articles);
    ScoreFeedsLength(feeds, company, stop);
    RankLength(articles);
  }

  /** The inner loop of `fetch_and_score_articles` over one feed's entries. */
  method ScoreFeed(entries: seq<Entry>, company: set<string>, stop: set<string>) returns (articles: seq<Article>)
    ensures articles == ScoreEntries(entries, company, stop)
  {
    articles := [];
    for i := 0 to |entries|
      invariant articles == ScoreEntries(entries[..i], company, stop)
    {
      var article := ScoreEntry(entries[i], company, stop);
      ScoreEntriesStep(entries, i, company, stop);
      articles := articles + [article];
    }
    assert entries[..|entries|] == entries;
  }

  /** Ranking neither drops nor adds articles. */
  lemma RankLength(arts: seq<Article>)
    ensures |Rank(arts)| == |arts|
  {
    assert |Rank(arts)| == |multiset(Rank(arts))| == |multiset(arts)| == |arts|;
  }

  // ---------------------------------------------------------------------------
  // trending keywords

  /** All keywords of the given articles, article by article, duplicates kept. */
  function AllKeywords(arts: seq<Article>): seq<string> {
    if arts == [] then []
    else AllKeywords(arts[..|arts| - 1]) + arts[|arts| - 1].keywords
  }

  /** `Counter(all_keywords).most_common(20)` over the first 50 ranked articles. */
  function Trends(ranked: seq<Article>): seq<(string, nat)> {
    MostCommon(AllKeywords(Take(ranked, ScanLimit)), TrendLimit)
  }

  /** The trend list holds at most 20 distinct keywords of the first 50 ranked
      articles, each with its exact number of occurrences there, highest count
      first, ties in first-occurrence order; no keyword left out occurs more
      often than one listed. */
  lemma TrendsSpec(ranked: seq<Article>)
    ensures var window, r := AllKeywords(Take(ranked, ScanLimit)), Trends(ranked);
      && |r| <= TrendLimit
      && |r| == Min(TrendLimit, |Distinct(window)|)
      && (forall k :: 0 <= k < |r| ==> r[k].0 in window && r[k].1 == multiset(window)[r[k].0])
      && (forall i, j :: 0 <= i < j < |r| ==> r[i].0 != r[j].0)
      && RankedBy(r, window)
      && (forall w, k :: w in window && !Listed(r, w) && 0 <= k < |r| ==> r[k].1 >= multiset(window)[w])
  {
    var window := AllKeywords(Take(ranked, ScanLimit));
    var r := Trends(ranked);
    MostCommonSpec(window, TrendLimit);
    forall w, k | w in window && !Listed(r, w) && 0 <= k < |r| ensures r[k].1 >= multiset(window)[w] {
      assert Outranks(window, r[k], (w, multiset(window)[w]));
    }
  }
}
