/** seonew.py: `suggest_seo_topics` with source links, frequency ranking that
    keeps each idea's first link, and `main`'s decision to stop when no topic
    was produced. */
module Seonew {
  import opened Wrappers
  import opened Seqs
  import opened Text
  import opened Keywords
  import opened Counting
  import opened Articles
  import opened Ideas

  // ---------------------------------------------------------------------------
  // idea generation

  /** Idea 1: keep a title that already looks well formed, otherwise rephrase
      it as a "How to" and an "Ultimate Guide" idea. */
  function TitleIdeas(a: Article): seq<Idea> {
    if LooksWellFormed(a.title) then [Idea(a.title, a.link)]
    else [Idea("How to " + a.title, a.link), Idea("The Ultimate Guide to " + a.title, a.link)]
  }

  /** Idea 2: a sentence turned into a question. */
  function Question(sentence: string): string {
    "Why is " + LowerFirstIfUpper(sentence) + " important for your business?"
  }

  /** The questions made from those of `sentences` that have the right length. */
  function Questions(sentences: seq<string>, link: string): seq<Idea> {
    QuestionsOf(sentences, s => Idea(Question(s), link))
  }

  /** One question per sentence of the right length, in sentence order, each
      with the article's link; a question is made exactly for such a sentence. */
  lemma QuestionsSpec(sentences: seq<string>, link: string)
    ensures var qs, ks := Questions(sentences, link), QualifyingPositions(sentences);
      && |qs| == |ks|
      && forall i :: 0 <= i < |ks| ==> qs[i] == Idea(Question(sentences[ks[i]]), link)
    ensures forall idea :: idea in Questions(sentences, link) <==>
      exists k :: 0 <= k < |sentences| && Qualifies(sentences[k]) && idea == Idea(Question(sentences[k]), link)
  {
    QuestionsOfSpec(sentences, s => Idea(Question(s), link));
    QuestionsOfMembers(sentences, s => Idea(Question(s), link));
  }

  /** The questions from the first two sentences, or none when the summary
      cannot be split into sentences. */
  function SummaryIdeas(a: Article, split: SentenceSplitter): seq<Idea> {
    match split(a.summary)
    case None => []
    case Some(sentences) => Questions(Take(sentences, 2), a.link)
  }

  /** Everything one article contributes, in order. */
  function ArticleIdeas(a: Article, split: SentenceSplitter): seq<Idea> {
    TitleIdeas(a) + SummaryIdeas(a, split)
  }

  /** The ideas of the given articles, article by article. */
  function GeneratedIdeas(arts: seq<Article>, split: SentenceSplitter): seq<Idea> {
    FlatMap(arts, a => ArticleIdeas(a, split))
  }

  /** The rephrasings start with "How to" and "The Ultimate Guide to". */
  lemma RephrasingsWellFormed(title: string)
    ensures LooksWellFormed("How to " + title)
    ensures LooksWellFormed("The Ultimate Guide to " + title)
  {
    assert Starters[0] == "How to" && Starters[3] == "The Ultimate Guide to";
    assert "How to " + title == Starters[0] + (" " + title);
    StartsWithStarter(0, " " + title);
    assert "The Ultimate Guide to " + title == Starters[3] + (" " + title);
    StartsWithStarter(3, " " + title);
  }

  /** A question starts with "Why". */
  lemma QuestionWellFormed(sentence: string)
    ensures LooksWellFormed(Question(sentence))
  {
    var rest := " is " + LowerFirstIfUpper(sentence) + " important for your business?";
    assert Starters[1] == "Why";
    assert Question(sentence) == Starters[1] + rest;
    StartsWithStarter(1, rest);
  }

  /** Every idea looks well formed: a title is kept only when it does, the
      rephrasings and the questions start with a starter. Each article yields
      one to four ideas, all carrying its link. */
  lemma ArticleIdeasSpec(a: Article, split: SentenceSplitter)
    ensures 1 <= |ArticleIdeas(a, split)| <= 4
    ensures forall idea :: idea in ArticleIdeas(a, split) ==> idea.link == a.link && LooksWellFormed(idea.text)
  {
    RephrasingsWellFormed(a.title);
    if split(a.summary).Some? {
      var ss := Take(split(a.summary).value, 2);
      QuestionsSpec(ss, a.link);
      forall idea | idea in Questions(ss, a.link) ensures LooksWellFormed(idea.text) {
        var k :| 0 <= k < |ss| && Qualifies(ss[k]) && idea == Idea(Question(ss[k]), a.link);
        QuestionWellFormed(ss[k]);
      }
    }
  }

  /** A summary that cannot be split costs only that article's questions:
      the ideas of every other article are unchanged. */
  lemma TokenizerFailureIsLocal(arts: seq<Article>, k: nat, split: SentenceSplitter)
    requires k < |arts| && split(arts[k].summary).None?
    ensures GeneratedIdeas(arts, split) ==
      GeneratedIdeas(arts[..k], split) + TitleIdeas(arts[k]) + GeneratedIdeas(arts[k + 1..], split)
  {
    FlatMapAround(arts, k, a => ArticleIdeas(a, split));
  }

  /** Between one and four ideas per article, all well formed, each with the
      link of an article it came from. */
  lemma {:induction false} GeneratedIdeasSpec(arts: seq<Article>, split: SentenceSplitter)
    ensures |arts| <= |GeneratedIdeas(arts, split)| <= 4 * |arts|
    ensures forall idea :: idea in GeneratedIdeas(arts, split) ==>
      LooksWellFormed(idea.text) && exists k :: 0 <= k < |arts| && arts[k].link == idea.link
  {
    if arts != [] {
      var n := |arts| - 1;
      GeneratedIdeasSpec(arts[..n], split);
      ArticleIdeasSpec(arts[n], split);
      forall idea | idea in GeneratedIdeas(arts, split)
        ensures LooksWellFormed(idea.text) && exists k :: 0 <= k < |arts| && arts[k].link == idea.link
      {
        if idea in GeneratedIdeas(arts[..n], split) {
          var k :| 0 <= k < n && arts[..n][k].link == idea.link;
          assert arts[k].link == idea.link;
        } else {
          assert arts[n].link == idea.link;
        }
      }
    }
  }

  // ---------------------------------------------------------------------------
  // ranking by frequency

  /** The `(idea, link, count)` triples built by the dedup loop. */
  function WithCounts(unique: seq<Idea>, counter: multiset<string>): (triples: seq<(Idea, nat)>)
    ensures |triples| == |unique|
  {
    seq(|unique|, k requires 0 <= k < |unique| => (unique[k], counter[unique[k].text]))
  }

  lemma WithCountsStep(unique: seq<Idea>, idea: Idea, counter: multiset<string>)
    ensures WithCounts(unique + [idea], counter) == WithCounts(unique, counter) + [(idea, counter[idea.text])]
  {
  }

  /** Deduplicate keeping each text's first link, sort by count (stable, so
      ties keep first-occurrence order), keep the first 15. */
  function RankIdeas(ideas: seq<Idea>): seq<Idea> {
    var counter := multiset(Texts(ideas));
    Keys(Take(SortByCount(WithCounts(FirstOccurrences(ideas), counter)), SuggestionLimit))
  }

  /** The same list without links. */
  function DropLinks(s: seq<(Idea, nat)>): (r: seq<(string, nat)>)
    ensures |r| == |s|
  {
    seq(|s|, k requires 0 <= k < |s| => (s[k].0.text, s[k].1))
  }

  lemma DropLinksCons(x: (Idea, nat), r: seq<(Idea, nat)>)
    ensures DropLinks([x] + r) == [(x.0.text, x.1)] + DropLinks(r)
  {
  }

  lemma {:induction false} InsertDropLinks(x: (Idea, nat), r: seq<(Idea, nat)>)
    ensures DropLinks(InsertByCount(x, r)) == InsertByCount((x.0.text, x.1), DropLinks(r))
  {
    if r == [] || x.1 >= r[0].1 {
      DropLinksCons(x, r);
    } else {
      var tail := r[1..];
      assert r == [r[0]] + tail;
      DropLinksCons(r[0], tail);
      InsertDropLinks(x, tail);
      DropLinksCons(r[0], InsertByCount(x, tail));
    }
  }

  /** Sorting by count does not look at the links. */
  lemma {:induction false} SortDropLinks(s: seq<(Idea, nat)>)
    ensures DropLinks(SortByCount(s)) == SortByCount(DropLinks(s))
  {
    if s != [] {
      SortDropLinks(s[1..]);
      assert DropLinks(s)[1..] == DropLinks(s[1..]);
      InsertDropLinks(s[0], SortByCount(s[1..]));
    }
  }

  /** The triples without links are the counter's items. */
  lemma WithCountsIsTally(ideas: seq<Idea>)
    ensures DropLinks(WithCounts(FirstOccurrences(ideas), multiset(Texts(ideas)))) == Tally(Texts(ideas))
  {
    FirstOccurrencesSpec(ideas);
    var u := FirstOccurrences(ideas);
    assert forall k :: 0 <= k < |u| ==> Texts(u)[k] == u[k].text;
  }

  /** Cutting and dropping the counts commute with dropping the links. */
  lemma TopTexts(sorted: seq<(Idea, nat)>, n: nat)
    ensures Texts(Keys(Take(sorted, n))) == Keys(Take(DropLinks(sorted), n))
  {
  }

  /** Frequency ranking with links: the texts are exactly
      `Counter(texts).most_common(15)`. */
  lemma RankIdeasIsMostCommon(ideas: seq<Idea>)
    ensures Texts(RankIdeas(ideas)) == Keys(MostCommon(Texts(ideas), SuggestionLimit))
  {
    var triples := WithCounts(FirstOccurrences(ideas), multiset(Texts(ideas)));
    WithCountsIsTally(ideas);
    SortDropLinks(triples);
    TopTexts(SortByCount(triples), SuggestionLimit);
  }

  /** Each ranked idea carries the link of the first occurrence of its text. */
  lemma RankIdeasLinks(ideas: seq<Idea>)
    ensures forall k :: 0 <= k < |RankIdeas(ideas)| ==>
      RankIdeas(ideas)[k].text in Texts(ideas) && RankIdeas(ideas)[k].link == FirstLink(ideas, RankIdeas(ideas)[k].text)
  {
    var unique := FirstOccurrences(ideas);
    var triples := WithCounts(unique, multiset(Texts(ideas)));
    var sorted := SortByCount(triples);
    var r := RankIdeas(ideas);
    FirstOccurrencesSpec(ideas);
    forall k | 0 <= k < |r| ensures r[k].text in Texts(ideas) && r[k].link == FirstLink(ideas, r[k].text) {
      assert r[k] == sorted[k].0;
      assert sorted[k] in multiset(triples);
      var m :| 0 <= m < |triples| && triples[m] == sorted[k];
      assert r[k] == unique[m];
    }
  }

  /** What the suggestion list promises: at most 15 ideas (all distinct ones
      when there are fewer), no text twice, each with the link of its first
      occurrence. */
  lemma RankIdeasSpec(ideas: seq<Idea>)
    ensures var r, texts := RankIdeas(ideas), Texts(ideas);
      && |r| == Min(SuggestionLimit, |Distinct(texts)|)
      && (forall i, j :: 0 <= i < j < |r| ==> r[i].text != r[j].text)
      && (forall k :: 0 <= k < |r| ==> r[k].text in texts && r[k].link == FirstLink(ideas, r[k].text))
  {
    var r, texts := RankIdeas(ideas), Texts(ideas);
    var mc := MostCommon(texts, SuggestionLimit);
    RankIdeasIsMostCommon(ideas);
    RankIdeasLinks(ideas);
    MostCommonSpec(texts, SuggestionLimit);
    assert forall k :: 0 <= k < |r| ==> r[k].text == Texts(r)[k] == mc[k].0;
  }

  /** More frequent ideas come first and equally frequent ones in order of
      first appearance. */
  lemma RankIdeasOrder(ideas: seq<Idea>)
    ensures var r, texts := RankIdeas(ideas), Texts(ideas);
      forall i, j :: 0 <= i < j < |r| ==>
        Outranks(texts, (r[i].text, multiset(texts)[r[i].text]), (r[j].text, multiset(texts)[r[j].text]))
  {
    var r, texts := RankIdeas(ideas), Texts(ideas);
    var mc := MostCommon(texts, SuggestionLimit);
    RankIdeasIsMostCommon(ideas);
    MostCommonSpec(texts, SuggestionLimit);
    forall i, j | 0 <= i < j < |r|
      ensures Outranks(texts, (r[i].text, multiset(texts)[r[i].text]), (r[j].text, multiset(texts)[r[j].text]))
    {
      assert r[i].text == Texts(r)[i] == mc[i].0 && r[j].text == Texts(r)[j] == mc[j].0;
      assert Outranks(texts, mc[i], mc[j]);
    }
  }

  /** No idea left out is more frequent than one listed. */
  lemma RankIdeasLeftOut(ideas: seq<Idea>, t: string)
    requires t in Texts(ideas) && t !in Texts(RankIdeas(ideas))
    ensures forall k :: 0 <= k < |RankIdeas(ideas)| ==>
      multiset(Texts(ideas))[RankIdeas(ideas)[k].text] >= multiset(Texts(ideas))[t]
  {
    var r, texts := RankIdeas(ideas), Texts(ideas);
    var mc := MostCommon(texts, SuggestionLimit);
    RankIdeasIsMostCommon(ideas);
    MostCommonSpec(texts, SuggestionLimit);
    assert !Listed(mc, t) by {
      assert forall k :: 0 <= k < |mc| ==> mc[k].0 == Texts(r)[k];
    }
    forall k | 0 <= k < |r| ensures multiset(texts)[r[k].text] >= multiset(texts)[t] {
      assert r[k].text == Texts(r)[k] == mc[k].0;
      assert Outranks(texts, mc[k], (t, multiset(texts)[t]));
    }
  }

  /** `suggest_seo_topics(articles)` as a value. */
  function SuggestedTopics(articles: seq<Article>, split: SentenceSplitter): seq<Idea> {
    RankIdeas(GeneratedIdeas(Take(articles, ScanLimit), split))
  }

  /** Some topic is suggested exactly when there is at least one article. */
  lemma SuggestedTopicsEmpty(articles: seq<Article>, split: SentenceSplitter)
    ensures SuggestedTopics(articles, split) == [] <==> articles == []
  {
    var ideas := GeneratedIdeas(Take(articles, ScanLimit), split);
    GeneratedIdeasSpec(Take(articles, ScanLimit), split);
    RankIdeasSpec(ideas);
    if ideas != [] {
      assert Texts(ideas)[0] in Distinct(Texts(ideas));
    }
  }

  /** The generation loop of `suggest_seo_topics` over the first 50 articles. */
  method GenerateIdeas(articles: seq<Article>, split: SentenceSplitter) returns (ideas: seq<Idea>)
    ensures ideas == GeneratedIdeas(Take(articles, ScanLimit), split)
  {
    var scan := Take(articles, ScanLimit);
    ideas := [];
    for i := 0 to |scan|
      invariant ideas == GeneratedIdeas(scan[..i], split)
    {
      var fromArticle := IdeasFor(scan[i], split);
      FlatMapStep(scan, i, a => ArticleIdeas(a, split));
      ideas := ideas + fromArticle;
    }
    assert scan[..|scan|] == scan;
  }

  /** One pass of the generation loop: the title idea or ideas, then the
      questions. */
  method IdeasFor(article: Article, split: SentenceSplitter) returns (ideas: seq<Idea>)
    ensures ideas == ArticleIdeas(article, split)
  {
    var link := article.link;
    var title := article.title;
    if LooksWellFormed(title) {
      ideas := [Idea(title, link)];
    } else {
      ideas := [Idea("How to " + title, link)];
      ideas := ideas + [Idea("The Ultimate Guide to " + title, link)];
    }
    var sentences := split(article.summary);
    if sentences.Some? {
      var questions := AddQuestions(Take(sentences.value, 2), link);
      ideas := ideas + questions;
    }
  }

  /** The loop over the first two sentences of a summary. */
  method AddQuestions(sentences: seq<string>, link: string) returns (questions: seq<Idea>)
    ensures questions == Questions(sentences, link)
  {
    questions := [];
    for j := 0 to |sentences|
      invariant questions == Questions(sentences[..j], link)
    {
      var sentence := sentences[j];
      if 8 < WordCount(sentence) < 20 {
        var q := LowerFirstIfUpper(sentence);
        questions := questions + [Idea("Why is " + q + " important for your business?", link)];
      }
      QuestionsOfStep(sentences, j, s => Idea(Question(s), link));
    }
    assert sentences[..|sentences|] == sentences;
  }

  /** The dedup loop with its `seen` set, the sort by count and the cut. */
  method RankByFrequency(ideas: seq<Idea>) returns (topics: seq<Idea>)
    ensures topics == RankIdeas(ideas)
  {
    var counter := multiset(Texts(ideas));
    var uniqueOrdered: seq<(Idea, nat)> := [];
    var seen: set<string> := {};
    for i := 0 to |ideas|
      invariant uniqueOrdered == WithCounts(FirstOccurrences(ideas[..i]), counter)
      invariant forall t :: t in seen <==> t in Texts(FirstOccurrences(ideas[..i]))
    {
      var idea := ideas[i];
      FirstOccurrencesStep(ideas, i);
      if idea.text !in seen {
        WithCountsStep(FirstOccurrences(ideas[..i]), idea, counter);
        assert Texts(FirstOccurrences(ideas[..i]) + [idea]) == Texts(FirstOccurrences(ideas[..i])) + [idea.text];
        uniqueOrdered := uniqueOrdered + [(idea, counter[idea.text])];
        seen := seen + {idea.text};
      }
    }
    assert ideas[..|ideas|] == ideas;
    uniqueOrdered := SortByCount(uniqueOrdered);
    topics := Keys(Take(uniqueOrdered, SuggestionLimit));
  }

  /** `suggest_seo_topics`. */
  method SuggestTopics(articles: seq<Article>, split: SentenceSplitter) returns (topics: seq<Idea>)
    ensures topics == SuggestedTopics(articles, split)
  {
    var ideas := GenerateIdeas(articles, split);
    topics := RankByFrequency(ideas);
  }

  // ---------------------------------------------------------------------------
  // main

  /** `main` with the feeds already parsed, the blog page already fetched (or
      not), the NLTK English stop words and sentence splitter as parameters,
      and the report handed back instead of sent. */
  method Run(feeds: seq<seq<Entry>>, blog: Option<BlogPage>, nltkEnglish: set<string>, split: SentenceSplitter)
    returns (outcome: Outcome<Idea>)
    ensures var stop := Stopwords(nltkEnglish);
      var ranked := Rank(ScoreFeeds(feeds, BlogKeywords(blog, stop), stop));
      && (outcome.NothingToReport? <==> EntryCount(feeds) == 0)
      && (outcome.Report? ==> outcome.topics == SuggestedTopics(ranked, split) && outcome.trends == Trends(ranked))
  {
    var stop := Stopwords(nltkEnglish);
    var company := BlogKeywords(blog, stop);
    var scored := FetchAndScore(feeds, company, stop);
    var topics := SuggestTopics(scored, split);
    var trends := Trends(scored);
    SuggestedTopicsEmpty(scored, split);
    if topics == [] {
      outcome := NothingToReport;
    } else {
      outcome := Report(topics, trends);
    }
  }
}
