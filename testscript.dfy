/** test.py: `suggest_seo_topics` with source links (a title is kept only when
    it already looks well formed, questions in title case) deduplicated in
    order of first appearance and cut to 15, and `main`'s decision to stop
    when no topic was produced. */
module TestScript {
  import opened Wrappers
  import opened Seqs
  import opened Text
  import opened Keywords
  import opened Counting
  import opened Articles
  import opened Ideas
  import Seo

  // ---------------------------------------------------------------------------
  // idea generation

  /** Idea from the title itself, only when it already looks well formed. */
  function TitleIdeas(a: Article): seq<Idea> {
    if LooksWellFormed(a.title) then [Idea(a.title, a.link)] else []
  }

  /** The questions (same template as seo.py) made from those of `sentences`
      that have the right length, each with the article's link. */
  function Questions(sentences: seq<string>, link: string): seq<Idea> {
    QuestionsOf(sentences, (s: string) requires s != [] => Idea(Seo.Question(s), link))
  }

  /** With their links dropped, the questions are those of seo.py. */
  lemma QuestionsAsInSeo(sentences: seq<string>, link: string)
    ensures Texts(Questions(sentences, link)) == Seo.Questions(sentences)
    ensures forall k :: 0 <= k < |Questions(sentences, link)| ==> Questions(sentences, link)[k].link == link
  {
    var make := (s: string) requires s != [] => Idea(Seo.Question(s), link);
    QuestionsOfSpec(sentences, make);
    Seo.QuestionsSpec(sentences);
  }

  /** The questions from the first two sentences, or none when the summary
      cannot be split into sentences. */
  function SummaryIdeas(a: Article, split: SentenceSplitter): seq<Idea> {
    match split(a.summary)
    case None => []
    case Some(sentences) => Questions(Take(sentences, 2), a.link)
  }

  /** Everything one article contributes, in order. */
  function ArticleIdeas(a: Article, split: SentenceSplitter): seq<Idea> {
    TitleIdeas(a) + SummaryIdeas(a, split)
  }

  /** The ideas of the given articles, article by article. */
  function GeneratedIdeas(arts: seq<Article>, split: SentenceSplitter): seq<Idea> {
    FlatMap(arts, a => ArticleIdeas(a, split))
  }

  /** Apart from the links, an article yields the ideas it yields in seo.py;
      every link is the article's own. */
  lemma ArticleIdeasAsInSeo(a: Article, split: SentenceSplitter)
    ensures Texts(ArticleIdeas(a, split)) == Seo.ArticleIdeas(a, split)
    ensures forall k :: 0 <= k < |ArticleIdeas(a, split)| ==> ArticleIdeas(a, split)[k].link == a.link
  {
    var title, summary := TitleIdeas(a), SummaryIdeas(a, split);
    if split(a.summary).Some? {
      QuestionsAsInSeo(Take(split(a.summary).value, 2), a.link);
    }
    assert Texts(title + summary) == Texts(title) + Texts(summary);
  }

  /** Texts of concatenated idea lists. */
  lemma TextsAppend(a: seq<Idea>, b: seq<Idea>)
    ensures Texts(a + b) == Texts(a) + Texts(b)
  {
  }

  /** Apart from the links, the generated ideas are those of seo.py. */
  lemma {:induction false} GeneratedIdeasAsInSeo(arts: seq<Article>, split: SentenceSplitter)
    ensures Texts(GeneratedIdeas(arts, split)) == Seo.GeneratedIdeas(arts, split)
  {
    if arts != [] {
      var n := |arts| - 1;
      GeneratedIdeasAsInSeo(arts[..n], split);
      ArticleIdeasAsInSeo(arts[n], split);
      TextsAppend(GeneratedIdeas(arts[..n], split), ArticleIdeas(arts[n], split));
    }
  }

  // ---------------------------------------------------------------------------
  // deduplication

  /** `unique_ideas[:NUM_SUGGESTIONS]` */
  function RankIdeas(ideas: seq<Idea>): seq<Idea> {
    Take(FirstOccurrences(ideas), SuggestionLimit)
  }

  /** What the suggestion list promises: the first 15 distinct idea texts (all
      of them when there are fewer) in order of first appearance, none twice,
      each with the link of its first occurrence. */
  lemma RankIdeasSpec(ideas: seq<Idea>)
    ensures var r, texts := RankIdeas(ideas), Texts(ideas);
      && |r| == Min(SuggestionLimit, |Distinct(texts)|)
      && (forall i, j :: 0 <= i < j < |r| ==> r[i].text != r[j].text)
      && (forall k :: 0 <= k < |r| ==> r[k].text in texts && r[k].link == FirstLink(ideas, r[k].text))
      && (forall i, j :: 0 <= i < j < |r| ==> FirstIndex(texts, r[i].text) < FirstIndex(texts, r[j].text))
  {
    FirstOccurrencesSpec(ideas);
    FirstOccurrencesOrder(ideas);
  }

  /** An idea left out appears for the first time after every listed one,
      and only when the list is full. */
  lemma RankIdeasLeftOut(ideas: seq<Idea>, t: string)
    requires t in Texts(ideas) && t !in Texts(RankIdeas(ideas))
    ensures |RankIdeas(ideas)| == SuggestionLimit
    ensures forall k :: 0 <= k < |RankIdeas(ideas)| ==>
      && RankIdeas(ideas)[k].text in Texts(ideas)
      && FirstIndex(Texts(ideas), RankIdeas(ideas)[k].text) < FirstIndex(Texts(ideas), t)
  {
    var u, texts := FirstOccurrences(ideas), Texts(ideas);
    var r := RankIdeas(ideas);
    FirstOccurrencesOrder(ideas);
    assert r == u[..|r|];
    var q :| 0 <= q < |u| && Texts(u)[q] == t;
    assert forall i :: 0 <= i < |r| ==> r[i] == u[i] && Texts(r)[i] == Texts(u)[i];
    assert q >= |r| by {
      assert forall i :: 0 <= i < |r| ==> Texts(u)[i] != t;
    }
  }

  /** Some idea is kept exactly when some idea was generated. */
  lemma RankIdeasEmpty(ideas: seq<Idea>)
    ensures RankIdeas(ideas) == [] <==> ideas == []
  {
    FirstOccurrencesSpec(ideas);
    if ideas != [] {
      assert Texts(ideas)[0] in Distinct(Texts(ideas));
    }
  }

  /** `suggest_seo_topics(articles)` as a value. */
  function SuggestedTopics(articles: seq<Article>, split: SentenceSplitter): seq<Idea> {
    RankIdeas(GeneratedIdeas(Take(articles, ScanLimit), split))
  }

  /** No topic is suggested exactly when seo.py would suggest none from the
      same articles. */
  lemma SuggestedTopicsEmpty(articles: seq<Article>, split: SentenceSplitter)
    ensures SuggestedTopics(articles, split) == [] <==> Seo.SuggestedTopics(articles, split) == []
    ensures SuggestedTopics(articles, split) == [] <==>
      forall a :: a in Take(articles, ScanLimit) ==> !LooksWellFormed(a.title) && Seo.SummaryIdeas(a, split) == []
  {
    var scan := Take(articles, ScanLimit);
    GeneratedIdeasAsInSeo(scan, split);
    RankIdeasEmpty(GeneratedIdeas(scan, split));
    Seo.RankIdeasEmpty(Seo.GeneratedIdeas(scan, split));
    Seo.SuggestedTopicsEmpty(articles, split);
  }

  // ---------------------------------------------------------------------------
  // the loops of suggest_seo_topics

  /** The loop over the first two sentences of a summary. */
  method AddQuestions(sentences: seq<string>, link: string) returns (questions: seq<Idea>)
    ensures questions == Questions(sentences, link)
  {
    questions := [];
    for j := 0 to |sentences|
      invariant questions == Questions(sentences[..j], link)
    {
      var sentence := sentences[j];
      if 8 < WordCount(sentence) < 20 {
        var q := [LowerChar(sentence[0])] + sentence[1..];
        questions := questions + [Idea("Why is " + q + " Important for Your Business?", link)];
      }
      QuestionsOfStep(sentences, j, (s: string) requires s != [] => Idea(Seo.Question(s), link));
    }
    assert sentences[..|sentences|] == sentences;
  }

  /** One pass of the generation loop. */
  method IdeasFor(article: Article, split: SentenceSplitter) returns (ideas: seq<Idea>)
    ensures ideas == ArticleIdeas(article, split)
  {
    ideas := [];
    if LooksWellFormed(article.title) {
      ideas := ideas + [Idea(article.title, article.link)];
    }
    var sentences := split(article.summary);
    if sentences.Some? {
      var questions := AddQuestions(Take(sentences.value, 2), article.link);
      ideas := ideas + questions;
    }
  }

  /** The dedup loop with its `seen` set, then the cut. */
  method Dedup(ideas: seq<Idea>) returns (topics: seq<Idea>)
    ensures topics == RankIdeas(ideas)
  {
    var unique: seq<Idea> := [];
    var seen: set<string> := {};
    for i := 0 to |ideas|
      invariant unique == FirstOccurrences(ideas[..i])
      invariant forall t :: t in seen <==> t in Texts(unique)
    {
      var idea := ideas[i];
      FirstOccurrencesStep(ideas, i);
      if idea.text !in seen {
        assert Texts(unique + [idea]) == Texts(unique) + [idea.text];
        seen := seen + {idea.text};
        unique := unique + [idea];
      }
    }
    assert ideas[..|ideas|] == ideas;
    topics := Take(unique, SuggestionLimit);
  }

  /** `suggest_seo_topics`. */
  method SuggestTopics(articles: seq<Article>, split: SentenceSplitter) returns (topics: seq<Idea>)
    ensures topics == SuggestedTopics(articles, split)
  {
    var scan := Take(articles, ScanLimit);
    var ideas: seq<Idea> := [];
    for i := 0 to |scan|
      invariant ideas == GeneratedIdeas(scan[..i], split)
    {
      var fromArticle := IdeasFor(scan[i], split);
      FlatMapStep(scan, i, a => ArticleIdeas(a, split));
      ideas := ideas + fromArticle;
    }
    assert scan[..|scan|] == scan;
    topics := Dedup(ideas);
  }

  // ---------------------------------------------------------------------------
  // main

  /** `main` with the feeds already parsed, the blog page already fetched (or
      not), the NLTK English stop words and sentence splitter as parameters,
      and the report handed back instead of sent. The guarded overlap score
      of this script equals the plain one (`OverlapScore`), so scoring and
      ranking are those of `FetchAndScore`. */
  method Run(feeds: seq<seq<Entry>>, blog: Option<BlogPage>, nltkEnglish: set<string>, split: SentenceSplitter)
    returns (outcome: Outcome<Idea>)
    ensures var stop := Stopwords(nltkEnglish);
      var ranked := Rank(ScoreFeeds(feeds, BlogKeywords(blog, stop), stop));
      && (outcome.NothingToReport? <==>
            forall a :: a in Take(ranked, ScanLimit) ==> !LooksWellFormed(a.title) && Seo.SummaryIdeas(a, split) == [])
      && (outcome.Report? ==> outcome.topics == SuggestedTopics(ranked, split) && outcome.trends == Trends(ranked))
  {
    var stop := Stopwords(nltkEnglish);
    var company := BlogKeywords(blog, stop);
    var scored := FetchAndScore(feeds, company, stop);
    var topics := SuggestTopics(scored, split);
    var trends := Trends(scored);
    SuggestedTopicsEmpty(scored, split);
    if topics == [] {
      outcome := NothingToReport;
    } else {
      outcome := Report(topics, trends);
    }
  }
}
