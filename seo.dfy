/** seo.py: `suggest_seo_topics` without links (a title is kept only when it
    already looks well formed, questions in title case) ranked by
    `Counter(ideas).most_common(15)`, and `main`'s decision to stop when no
    topic was produced. */
module Seo {
  import opened Wrappers
  import opened Seqs
  import opened Text
  import opened Keywords
  import opened Counting
  import opened Articles
  import opened Ideas

  // ---------------------------------------------------------------------------
  // idea generation

  /** Idea 1: the title itself, only when it already looks well formed. */
  function TitleIdeas(a: Article): seq<string> {
    if LooksWellFormed(a.title) then [a.title] else []
  }

  /** Idea 2: a sentence turned into a question; the first character is
      lowered unconditionally, which needs a non-empty sentence. */
  function Question(sentence: string): string
    requires sentence != []
  {
    "Why is " + LowerFirst(sentence) + " Important for Your Business?"
  }

  /** The questions made from those of `sentences` that have the right length
      (such a sentence has words, so it is not empty). */
  function Questions(sentences: seq<string>): seq<string> {
    QuestionsOf(sentences, Question)
  }

  /** One question per sentence of the right length, in sentence order; a
      question is made exactly for such a sentence. */
  lemma QuestionsSpec(sentences: seq<string>)
    ensures var qs, ks := Questions(sentences), QualifyingPositions(sentences);
      && |qs| == |ks|
      && forall i :: 0 <= i < |ks| ==> qs[i] == Question(sentences[ks[i]])
    ensures forall q :: q in Questions(sentences) <==>
      exists k :: 0 <= k < |sentences| && Qualifies(sentences[k]) && q == Question(sentences[k])
  {
    QuestionsOfSpec(sentences, Question);
    QuestionsOfMembers(sentences, Question);
  }

  /** The questions from the first two sentences, or none when the summary
      cannot be split into sentences. */
  function SummaryIdeas(a: Article, split: SentenceSplitter): seq<string> {
    match split(a.summary)
    case None => []
    case Some(sentences) => Questions(Take(sentences, 2))
  }

  /** Everything one article contributes, in order. */
  function ArticleIdeas(a: Article, split: SentenceSplitter): seq<string> {
    TitleIdeas(a) + SummaryIdeas(a, split)
  }

  /** The ideas of the given articles, article by article. */
  function GeneratedIdeas(arts: seq<Article>, split: SentenceSplitter): seq<string> {
    FlatMap(arts, a => ArticleIdeas(a, split))
  }

  /** A question starts with "Why". */
  lemma QuestionWellFormed(sentence: string)
    requires sentence != []
    ensures LooksWellFormed(Question(sentence))
  {
    var rest := " is " + LowerFirst(sentence) + " Important for Your Business?";
    assert Starters[1] == "Why";
    assert Question(sentence) == Starters[1] + rest;
    StartsWithStarter(1, rest);
  }

  /** Every idea of an article looks well formed, and there are at most three:
      the title when it looks well formed, and up to two questions. */
  lemma ArticleIdeasSpec(a: Article, split: SentenceSplitter)
    ensures |ArticleIdeas(a, split)| <= 3
    ensures forall idea :: idea in ArticleIdeas(a, split) ==> LooksWellFormed(idea)
    ensures a.title in ArticleIdeas(a, split) <== LooksWellFormed(a.title)
  {
    if split(a.summary).Some? {
      var ss := Take(split(a.summary).value, 2);
      QuestionsSpec(ss);
      forall q | q in Questions(ss) ensures LooksWellFormed(q) {
        var k :| 0 <= k < |ss| && Qualifies(ss[k]) && q == Question(ss[k]);
        QuestionWellFormed(ss[k]);
      }
    }
  }

  /** A summary that cannot be split costs only that article's questions:
      the ideas of every other article are unchanged. */
  lemma TokenizerFailureIsLocal(arts: seq<Article>, k: nat, split: SentenceSplitter)
    requires k < |arts| && split(arts[k].summary).None?
    ensures GeneratedIdeas(arts, split) ==
      GeneratedIdeas(arts[..k], split) + TitleIdeas(arts[k]) + GeneratedIdeas(arts[k + 1..], split)
  {
    FlatMapAround(arts, k, a => ArticleIdeas(a, split));
  }

  /** At most three ideas per article, all well formed; there are none
      exactly when no article contributes any. */
  lemma {:induction false} GeneratedIdeasSpec(arts: seq<Article>, split: SentenceSplitter)
    ensures |GeneratedIdeas(arts, split)| <= 3 * |arts|
    ensures forall idea :: idea in GeneratedIdeas(arts, split) ==> LooksWellFormed(idea)
    ensures GeneratedIdeas(arts, split) == [] <==> forall k :: 0 <= k < |arts| ==> ArticleIdeas(arts[k], split) == []
  {
    FlatMapEmpty(arts, a => ArticleIdeas(a, split));
    if arts != [] {
      var n := |arts| - 1;
      GeneratedIdeasSpec(arts[..n], split);
      ArticleIdeasSpec(arts[n], split);
    }
  }

  // ---------------------------------------------------------------------------
  // ranking

  /** `[p for p, _ in Counter(ideas).most_common(15)]` */
  function RankIdeas(ideas: seq<string>): seq<string> {
    Keys(MostCommon(ideas, SuggestionLimit))
  }

  /** What the suggestion list promises: at most 15 ideas (all distinct ones
      when there are fewer), none twice, each a generated idea. */
  lemma RankIdeasSpec(ideas: seq<string>)
    ensures var r := RankIdeas(ideas);
      && |r| == Min(SuggestionLimit, |Distinct(ideas)|)
      && (forall i, j :: 0 <= i < j < |r| ==> r[i] != r[j])
      && (forall k :: 0 <= k < |r| ==> r[k] in ideas)
  {
    MostCommonSpec(ideas, SuggestionLimit);
  }

  /** More frequent ideas come first and equally frequent ones in order of
      first appearance. */
  lemma RankIdeasOrder(ideas: seq<string>)
    ensures var r := RankIdeas(ideas);
      forall i, j :: 0 <= i < j < |r| ==>
        Outranks(ideas, (r[i], multiset(ideas)[r[i]]), (r[j], multiset(ideas)[r[j]]))
  {
    var r := RankIdeas(ideas);
    var mc := MostCommon(ideas, SuggestionLimit);
    MostCommonSpec(ideas, SuggestionLimit);
    forall i, j | 0 <= i < j < |r|
      ensures Outranks(ideas, (r[i], multiset(ideas)[r[i]]), (r[j], multiset(ideas)[r[j]]))
    {
      assert r[i] == mc[i].0 && r[j] == mc[j].0;
      assert Outranks(ideas, mc[i], mc[j]);
    }
  }

  /** No idea left out is more frequent than one listed. */
  lemma RankIdeasLeftOut(ideas: seq<string>, t: string)
    requires t in ideas && t !in RankIdeas(ideas)
    ensures forall k :: 0 <= k < |RankIdeas(ideas)| ==> multiset(ideas)[RankIdeas(ideas)[k]] >= multiset(ideas)[t]
  {
    var r := RankIdeas(ideas);
    var mc := MostCommon(ideas, SuggestionLimit);
    MostCommonSpec(ideas, SuggestionLimit);
    assert !Listed(mc, t) by {
      assert forall k :: 0 <= k < |mc| ==> mc[k].0 == r[k];
    }
    forall k | 0 <= k < |r| ensures multiset(ideas)[r[k]] >= multiset(ideas)[t] {
      assert r[k] == mc[k].0;
      assert Outranks(ideas, mc[k], (t, multiset(ideas)[t]));
    }
  }

  /** Some idea is ranked exactly when some idea was generated. */
  lemma RankIdeasEmpty(ideas: seq<string>)
    ensures RankIdeas(ideas) == [] <==> ideas == []
  {
    MostCommonSpec(ideas, SuggestionLimit);
    if ideas != [] {
      assert ideas[0] in Distinct(ideas);
    }
  }

  /** `suggest_seo_topics(articles)` as a value. */
  function SuggestedTopics(articles: seq<Article>, split: SentenceSplitter): seq<string> {
    RankIdeas(GeneratedIdeas(Take(articles, ScanLimit), split))
  }

  /** No topic is suggested exactly when none of the first 50 articles has a
      well-formed title or a summary sentence of the right length. */
  lemma SuggestedTopicsEmpty(articles: seq<Article>, split: SentenceSplitter)
    ensures SuggestedTopics(articles, split) == [] <==>
      forall a :: a in Take(articles, ScanLimit) ==> !LooksWellFormed(a.title) && SummaryIdeas(a, split) == []
  {
    var scan := Take(articles, ScanLimit);
    GeneratedIdeasSpec(scan, split);
    RankIdeasEmpty(GeneratedIdeas(scan, split));
  }

  // ---------------------------------------------------------------------------
  // the loops of suggest_seo_topics

  /** The loop over the first two sentences of a summary. */
  method AddQuestions(sentences: seq<string>) returns (questions: seq<string>)
    ensures questions == Questions(sentences)
  {
    questions := [];
    for j := 0 to |sentences|
      invariant questions == Questions(sentences[..j])
    {
      var sentence := sentences[j];
      if 8 < WordCount(sentence) < 20 {
        var q := [LowerChar(sentence[0])] + sentence[1..];
        questions := questions + ["Why is " + q + " Important for Your Business?"];
      }
      QuestionsOfStep(sentences, j, Question);
    }
    assert sentences[..|sentences|] == sentences;
  }

  /** One pass of the generation loop. */
  method IdeasFor(article: Article, split: SentenceSplitter) returns (ideas: seq<string>)
    ensures ideas == ArticleIdeas(article, split)
  {
    ideas := [];
    if LooksWellFormed(article.title) {
      ideas := ideas + [article.title];
    }
    var sentences := split(article.summary);
    if sentences.Some? {
      var questions := AddQuestions(Take(sentences.value, 2));
      ideas := ideas + questions;
    }
  }

  /** `suggest_seo_topics`: the generation loop over the first 50 articles,
      then the most common ideas. */
  method SuggestTopics(articles: seq<Article>, split: SentenceSplitter) returns (topics: seq<string>)
    ensures topics == SuggestedTopics(articles, split)
  {
    var scan := Take(articles, ScanLimit);
    var ideas: seq<string> := [];
    for i := 0 to |scan|
      invariant ideas == GeneratedIdeas(scan[..i], split)
    {
      var fromArticle := IdeasFor(scan[i], split);
      FlatMapStep(scan, i, a => ArticleIdeas(a, split));
      ideas := ideas + fromArticle;
    }
    assert scan[..|scan|] == scan;
    topics := Keys(MostCommon(ideas, SuggestionLimit));
  }

  // ---------------------------------------------------------------------------
  // main

  /** `main` with the feeds already parsed, the blog page already fetched (or
      not), the NLTK English stop words and sentence splitter as parameters,
      and the report handed back instead of sent. */
  method Run(feeds: seq<seq<Entry>>, blog: Option<BlogPage>, nltkEnglish: set<string>, split: SentenceSplitter)
    returns (outcome: Outcome<string>)
    ensures var stop := Stopwords(nltkEnglish);
      var ranked := Rank(ScoreFeeds(feeds, BlogKeywords(blog, stop), stop));
      && (outcome.NothingToReport? <==>
            forall a :: a in Take(ranked, ScanLimit) ==> !LooksWellFormed(a.title) && SummaryIdeas(a, split) == [])
      && (outcome.Report? ==> outcome.topics == SuggestedTopics(ranked, split) && outcome.trends == Trends(ranked))
  {
    var stop := Stopwords(nltkEnglish);
    var company := BlogKeywords(blog, stop);
    var scored := FetchAndScore(feeds, company, stop);
    var topics := SuggestTopics(scored, split);
    var trends := Trends(scored);
    SuggestedTopicsEmpty(scored, split);
    if topics == [] {
      outcome := NothingToReport;
    } else {
      outcome := Report(topics, trends);
    }
  }
}
