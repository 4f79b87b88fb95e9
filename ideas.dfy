/** What the three `suggest_seo_topics` variants share: topic ideas, the
    "already well-formed title" test, the sentence-length rule, the
    first-letter lowering, and deduplication that keeps the first occurrence. */
module Ideas {
  import opened Wrappers
  import opened Seqs
  import opened Text

  /** `NUM_SUGGESTIONS` */
  const SuggestionLimit: nat := 15

  /** `sent_tokenize`, which is not part of this model: the sentences of a
      text, or `None` when it raises. */
  type SentenceSplitter = string -> Option<seq<string>>

  /** An idea text with the link of the article it came from. */
  datatype Idea = Idea(text: string, link: string)

  /** What `main` does with the results: stop when there are no topics,
      otherwise hand topics and trends to the report. */
  datatype Outcome<T> = NothingToReport | Report(topics: seq<T>, trends: seq<(string, nat)>)

  const QuestionStarters: seq<string> := ["How to", "Why", "What is", "The Ultimate Guide to", "A Beginner's Guide to"]
  const ListStarters: seq<string> := ["Ways to", "Steps to", "Effective Strategies for", "Examples of"]
  const Starters: seq<string> := QuestionStarters + ListStarters

  /** `any(starter.lower() in title.lower() for starter in question_starters + list_starters)` */
  predicate LooksWellFormed(title: string) {
    exists k :: 0 <= k < |Starters| && Contains(Lower(title), Lower(Starters[k]))
  }

  /** A text that begins with a starter looks well formed. */
  lemma {:induction false} StartsWithStarter(k: nat, rest: string)
    requires k < |Starters|
    ensures LooksWellFormed(Starters[k] + rest)
  {
    LowerAppend(Starters[k], rest);
    PrefixContained(Lower(Starters[k]), Lower(rest));
  }

  /** `8 < len(sent.split()) < 20` */
  predicate Qualifies(sentence: string) {
    8 < WordCount(sentence) < 20
  }

  /** The positions of the sentences of the right length, in increasing
      order: each such position exactly once. */
  function QualifyingPositions(sentences: seq<string>): (ks: seq<nat>)
    ensures |ks| <= |sentences|
    ensures forall i :: 0 <= i < |ks| ==> ks[i] < |sentences| && Qualifies(sentences[ks[i]])
    ensures forall i, j :: 0 <= i < j < |ks| ==> ks[i] < ks[j]
    ensures forall k :: 0 <= k < |sentences| && Qualifies(sentences[k]) ==> k in ks
  {
    if sentences == [] then []
    else
      var n := |sentences| - 1;
      var made := QualifyingPositions(sentences[..n]);
      assert forall k :: 0 <= k < n ==> sentences[..n][k] == sentences[k];
      if Qualifies(sentences[n]) then made + [n] else made
  }

  /** The loop `for sent in sentences[:2]: if 8 < len(sent.split()) < 20:
      ideas.append(...)`, with the script's question template (and link)
      passed as `make`. */
  function QuestionsOf<T>(sentences: seq<string>, make: string --> T): seq<T>
    requires forall s :: Qualifies(s) ==> make.requires(s)
  {
    if sentences == [] then []
    else
      var made := QuestionsOf(sentences[..|sentences| - 1], make);
      var last := sentences[|sentences| - 1];
      if Qualifies(last) then made + [make(last)] else made
  }

  lemma QuestionsOfStep<T>(sentences: seq<string>, j: nat, make: string --> T)
    requires forall s :: Qualifies(s) ==> make.requires(s)
    requires j < |sentences|
    ensures QuestionsOf(sentences[..j + 1], make) ==
      if Qualifies(sentences[j]) then QuestionsOf(sentences[..j], make) + [make(sentences[j])]
      else QuestionsOf(sentences[..j], make)
  {
    assert sentences[..j + 1][..j] == sentences[..j];
  }

  /** `qs[i]` is the question of sentence `ks[i]`, for every `i`. */
  ghost predicate MadeAt<T>(qs: seq<T>, ks: seq<nat>, sentences: seq<string>, make: string --> T) {
    && |qs| == |ks|
    && forall i :: 0 <= i < |ks| ==>
      ks[i] < |sentences| && make.requires(sentences[ks[i]]) && qs[i] == make(sentences[ks[i]])
  }

  lemma MadeAtWiden<T>(qs: seq<T>, ks: seq<nat>, sentences: seq<string>, n: nat, make: string --> T)
    requires n <= |sentences| && MadeAt(qs, ks, sentences[..n], make)
    ensures MadeAt(qs, ks, sentences, make)
  {
    forall i | 0 <= i < |ks| ensures sentences[..n][ks[i]] == sentences[ks[i]] {
    }
  }

  lemma MadeAtSnoc<T>(qs: seq<T>, ks: seq<nat>, sentences: seq<string>, n: nat, make: string --> T)
    requires n < |sentences| && make.requires(sentences[n]) && MadeAt(qs, ks, sentences, make)
    ensures MadeAt(qs + [make(sentences[n])], ks + [n], sentences, make)
  {
  }

  /** One question per sentence of the right length, in sentence order: the
      i-th question is made from the i-th qualifying sentence. */
  lemma {:induction false} QuestionsOfSpec<T>(sentences: seq<string>, make: string --> T)
    requires forall s :: Qualifies(s) ==> make.requires(s)
    ensures var qs, ks := QuestionsOf(sentences, make), QualifyingPositions(sentences);
      && |qs| == |ks|
      && forall i :: 0 <= i < |ks| ==> qs[i] == make(sentences[ks[i]])
  {
    QuestionsOfMadeAt(sentences, make);
  }

  lemma {:induction false} QuestionsOfMadeAt<T>(sentences: seq<string>, make: string --> T)
    requires forall s :: Qualifies(s) ==> make.requires(s)
    ensures MadeAt(QuestionsOf(sentences, make), QualifyingPositions(sentences), sentences, make)
  {
    if sentences != [] {
      var n := |sentences| - 1;
      var init := sentences[..n];
      QuestionsOfMadeAt(init, make);
      var made, ks := QuestionsOf(init, make), QualifyingPositions(init);
      MadeAtWiden(made, ks, sentences, n, make);
      if Qualifies(sentences[n]) {
        MadeAtSnoc(made, ks, sentences, n, make);
      }
    }
  }

  /** Hence a question is made exactly for each sentence of the right length. */
  lemma QuestionsOfMembers<T>(sentences: seq<string>, make: string --> T)
    requires forall s :: Qualifies(s) ==> make.requires(s)
    ensures |QuestionsOf(sentences, make)| <= |sentences|
    ensures forall q :: q in QuestionsOf(sentences, make) <==>
      exists k :: 0 <= k < |sentences| && Qualifies(sentences[k]) && q == make(sentences[k])
  {
    QuestionsOfSpec(sentences, make);
    var qs, ks := QuestionsOf(sentences, make), QualifyingPositions(sentences);
    forall q | q in qs
      ensures exists k :: 0 <= k < |sentences| && Qualifies(sentences[k]) && q == make(sentences[k])
    {
      var i :| 0 <= i < |qs| && qs[i] == q;
      assert Qualifies(sentences[ks[i]]);
    }
    forall k | 0 <= k < |sentences| && Qualifies(sentences[k])
      ensures make(sentences[k]) in qs
    {
      var i :| 0 <= i < |ks| && ks[i] == k;
      assert qs[i] == make(sentences[k]);
    }
  }

  /** seonew.py: lower the first character only when it is upper-case. */
  function LowerFirstIfUpper(s: string): string {
    if s != [] && IsUpper(s[0]) then [LowerChar(s[0])] + s[1..] else s
  }

  /** seo.py and test.py: `sent[0].lower() + sent[1:]`. */
  function LowerFirst(s: string): string
    requires s != []
  {
    [LowerChar(s[0])] + s[1..]
  }

  /** With ASCII case mapping the two ways of lowering the first character agree. */
  lemma LowerFirstAgree(s: string)
    requires s != []
    ensures LowerFirstIfUpper(s) == LowerFirst(s)
    ensures |LowerFirst(s)| == |s| && LowerFirst(s)[1..] == s[1..] && !IsUpper(LowerFirst(s)[0])
  {
    if !IsUpper(s[0]) {
      assert [s[0]] + s[1..] == s;
    }
  }

  /** The idea texts, in order. */
  function Texts(ideas: seq<Idea>): (texts: seq<string>)
    ensures |texts| == |ideas|
  {
    seq(|ideas|, k requires 0 <= k < |ideas| => ideas[k].text)
  }

  /** The link paired with the first occurrence of `text`. */
  function FirstLink(ideas: seq<Idea>, text: string): string
    requires text in Texts(ideas)
  {
    ideas[FirstIndex(Texts(ideas), text)].link
  }

  /** The ideas whose text was not seen before, in order: what the loop over
      `ideas` with a `seen` set keeps. */
  function FirstOccurrences(ideas: seq<Idea>): seq<Idea> {
    if ideas == [] then []
    else
      var kept := FirstOccurrences(ideas[..|ideas| - 1]);
      var last := ideas[|ideas| - 1];
      if last.text in Texts(kept) then kept else kept + [last]
  }

  lemma FirstOccurrencesStep(ideas: seq<Idea>, i: nat)
    requires i < |ideas|
    ensures FirstOccurrences(ideas[..i + 1]) ==
      if ideas[i].text in Texts(FirstOccurrences(ideas[..i])) then FirstOccurrences(ideas[..i])
      else FirstOccurrences(ideas[..i]) + [ideas[i]]
  {
    assert ideas[..i + 1][..i] == ideas[..i];
  }

  lemma TextsSnoc(ideas: seq<Idea>, idea: Idea)
    ensures Texts(ideas + [idea]) == Texts(ideas) + [idea.text]
  {
  }

  lemma TextsPrefix(ideas: seq<Idea>, n: nat)
    requires n <= |ideas|
    ensures Texts(ideas[..n]) == Texts(ideas)[..n]
  {
  }

  /** First-occurrence deduplication keeps each distinct text once, in order
      of first occurrence. */
  lemma {:induction false} FirstOccurrencesTexts(ideas: seq<Idea>)
    ensures Texts(FirstOccurrences(ideas)) == Distinct(Texts(ideas))
  {
    if ideas != [] {
      var n := |ideas| - 1;
      var init := ideas[..n];
      var last := ideas[n];
      FirstOccurrencesTexts(init);
      var kept := FirstOccurrences(init);
      var texts := Texts(ideas);
      TextsPrefix(ideas, n);
      var d0 := Distinct(texts[..n]);
      assert Distinct(texts) == if texts[n] in d0 then d0 else d0 + [texts[n]];
      if last.text !in Texts(kept) {
        TextsSnoc(kept, last);
      }
    }
  }

  /** Each kept idea has the link of the first occurrence of its text. */
  lemma {:induction false} FirstOccurrencesLinks(ideas: seq<Idea>)
    ensures forall k :: 0 <= k < |FirstOccurrences(ideas)| ==>
      && FirstOccurrences(ideas)[k].text in Texts(ideas)
      && FirstOccurrences(ideas)[k].link == FirstLink(ideas, FirstOccurrences(ideas)[k].text)
  {
    if ideas != [] {
      var n := |ideas| - 1;
      var init := ideas[..n];
      var last := ideas[n];
      FirstOccurrencesLinks(init);
      FirstOccurrencesTexts(init);
      var kept := FirstOccurrences(init);
      var texts := Texts(ideas);
      assert texts[..n] == Texts(init);
      forall k | 0 <= k < |kept|
        ensures kept[k].text in texts && kept[k].link == FirstLink(ideas, kept[k].text)
      {
        var t := kept[k].text;
        FirstIndexPrefix(texts, n, t);
        assert ideas[FirstIndex(texts, t)] == init[FirstIndex(Texts(init), t)];
      }
      if last.text !in Texts(kept) {
        assert last.text !in Texts(init);
        assert texts[n] == last.text;
        assert FirstIndex(texts, last.text) == n;
        assert FirstOccurrences(ideas) == kept + [last];
      }
    }
  }

  /** Both facts about first-occurrence deduplication together. */
  lemma FirstOccurrencesSpec(ideas: seq<Idea>)
    ensures Texts(FirstOccurrences(ideas)) == Distinct(Texts(ideas))
    ensures forall k :: 0 <= k < |FirstOccurrences(ideas)| ==>
      && FirstOccurrences(ideas)[k].text in Texts(ideas)
      && FirstOccurrences(ideas)[k].link == FirstLink(ideas, FirstOccurrences(ideas)[k].text)
  {
    FirstOccurrencesTexts(ideas);
    FirstOccurrencesLinks(ideas);
  }

  /** The deduplicated list has no repeated text, lists texts in order of
      first occurrence, and holds every text of the input. */
  lemma FirstOccurrencesOrder(ideas: seq<Idea>)
    ensures var u, texts := FirstOccurrences(ideas), Texts(ideas);
      && (forall i, j :: 0 <= i < j < |u| ==> u[i].text != u[j].text)
      && (forall k :: 0 <= k < |u| ==> u[k].text in texts)
      && (forall i, j :: 0 <= i < j < |u| ==> FirstIndex(texts, u[i].text) < FirstIndex(texts, u[j].text))
      && (forall t :: t in texts ==> t in Texts(u))
  {
    var u, texts := FirstOccurrences(ideas), Texts(ideas);
    FirstOccurrencesSpec(ideas);
    DistinctInFirstOccurrenceOrder(texts);
    forall i, j | 0 <= i < j < |u| ensures u[i].text != u[j].text {
      assert Texts(u)[i] == u[i].text && Texts(u)[j] == u[j].text;
    }
    forall i, j | 0 <= i < j < |u| ensures FirstIndex(texts, u[i].text) < FirstIndex(texts, u[j].text) {
      assert Texts(u)[i] == u[i].text && Texts(u)[j] == u[j].text;
    }
  }
}
