/** Stop-word filtering, the relevance score, and the company keyword set
    built from the scraped blog text (`get_existing_blog_keywords`). */
module Keywords {
  import opened Wrappers
  import opened Seqs
  import opened Text

  /** `EXTRA_STOPWORDS`, added to NLTK's English list. */
  const ExtraStopwords: set<string> := {
    "with", "from", "that", "this", "have", "will", "your", "their", "about", "into", "more",
    "been", "also", "over", "some", "what", "when", "where", "which", "using", "than", "then",
    "each", "only", "very", "just", "them", "they", "such", "while", "there", "here",
    "http", "https", "www", "com", "blog", "like", "get", "make", "use", "new", "year",
    "need", "know", "see", "top", "best", "guide", "how", "why"
  }

  /** `STOPWORDS`: NLTK's English stop words (an input here) with the extra list. */
  function Stopwords(nltkEnglish: set<string>): (stop: set<string>)
    ensures ExtraStopwords <= stop && nltkEnglish <= stop
  {
    nltkEnglish + ExtraStopwords
  }

  /** `[w for w in words if w not in STOPWORDS]`: every occurrence of a word
      outside `stop` is kept and every occurrence of a stop word is dropped. */
  function FilterStopwords(words: seq<string>, stop: set<string>): (keywords: seq<string>)
    ensures forall w :: multiset(keywords)[w] == if w in stop then 0 else multiset(words)[w]
    ensures |keywords| <= |words|
  {
    if words == [] then []
    else
      assert words == [words[0]] + words[1..];
      (if words[0] in stop then [] else [words[0]]) + FilterStopwords(words[1..], stop)
  }

  /** The kept words are in their original order. */
  lemma {:induction false} FilterStopwordsIsSubsequence(words: seq<string>, stop: set<string>)
    ensures IsSubsequence(FilterStopwords(words, stop), words)
  {
    if words != [] {
      FilterStopwordsIsSubsequence(words[1..], stop);
      var rest := FilterStopwords(words[1..], stop);
      if words[0] !in stop {
        var kept := [words[0]] + rest;
        assert FilterStopwords(words, stop) == kept;
        assert kept[1..] == rest;
        assert IsSubsequence(kept, words) == IsSubsequence(kept[1..], words[1..]);
      } else {
        assert FilterStopwords(words, stop) == rest;
        SubsequenceOfTail(rest, words);
      }
    }
  }

  /** A subsequence of the tail of `b` is a subsequence of `b`. */
  lemma {:induction false} SubsequenceOfTail<T>(a: seq<T>, b: seq<T>)
    requires b != [] && IsSubsequence(a, b[1..])
    ensures IsSubsequence(a, b)
    decreases |b|, 1
  {
    if a != [] && a[0] == b[0] {
      SubsequenceDropHead(a, b[1..]);
    }
  }

  lemma {:induction false} SubsequenceDropHead<T>(a: seq<T>, c: seq<T>)
    requires a != [] && IsSubsequence(a, c)
    ensures IsSubsequence(a[1..], c)
    decreases |c| + 1, 0
  {
    if a[0] == c[0] {
      SubsequenceOfTail(a[1..], c);
    } else {
      SubsequenceDropHead(a, c[1..]);
      SubsequenceOfTail(a[1..], c);
    }
  }

  /** Filtering an already filtered list changes nothing. */
  lemma {:induction false} FilterStopwordsIdempotent(words: seq<string>, stop: set<string>)
    ensures FilterStopwords(FilterStopwords(words, stop), stop) == FilterStopwords(words, stop)
  {
    if words != [] {
      FilterStopwordsIdempotent(words[1..], stop);
      var rest := FilterStopwords(words[1..], stop);
      if words[0] !in stop {
        var kept := [words[0]] + rest;
        assert FilterStopwords(words, stop) == kept;
        assert kept[1..] == rest;
        assert FilterStopwords(kept, stop) == [words[0]] + FilterStopwords(rest, stop);
      } else {
        assert FilterStopwords(words, stop) == rest;
      }
    }
  }

  /** `set(keywords)`. */
  function WordSet(keywords: seq<string>): set<string> {
    set w | w in keywords
  }

  lemma {:induction false} SubsetCard<T>(a: set<T>, b: set<T>)
    requires a <= b
    ensures |a| <= |b|
    decreases |a|
  {
    if a != {} {
      var x :| x in a;
      SubsetCard(a - {x}, b - {x});
    }
  }

  /** `len(set(keywords).intersection(company_keywords))`. */
  function Score(keywords: seq<string>, company: set<string>): (score: nat)
    ensures score <= |company| && score <= |WordSet(keywords)|
    ensures company == {} ==> score == 0
  {
    var common := WordSet(keywords) * company;
    SubsetCard(common, company);
    SubsetCard(common, WordSet(keywords));
    |common|
  }

  /** test.py's `overlap_score`: the same intersection size, computed only
      when the company set is non-empty and 0 otherwise. */
  function OverlapScore(keywords: seq<string>, company: set<string>): (score: nat)
    ensures score == Score(keywords, company)
  {
    if company != {} then |WordSet(keywords) * company| else 0
  }

  /** What the scrape of the company blog yields: the texts of the title and
      description elements. */
  datatype BlogPage = BlogPage(titles: seq<string>, descriptions: seq<string>)

  /** The text the blog keywords are drawn from: the titles joined by spaces,
      then the descriptions joined by spaces, with nothing between the last
      title and the first description. */
  function BlogText(page: BlogPage): string {
    JoinWithSpace(page.titles) + JoinWithSpace(page.descriptions)
  }

  /** `get_existing_blog_keywords` after the fetch: no page (a request error)
      gives the empty set; otherwise the stop-word-free keywords of the text. */
  function BlogKeywords(page: Option<BlogPage>, stop: set<string>): (keywords: set<string>)
    ensures page.None? ==> keywords == {}
    ensures forall w :: w in keywords ==> |w| >= 3 && IsLowerWord(w) && w !in stop
    ensures page.Some? ==> forall w :: w in keywords <==> w in CleanText(BlogText(page.value)) && w !in stop
  {
    match page
    case None => {}
    case Some(p) =>
      var words := CleanText(BlogText(p));
      var kept := FilterStopwords(words, stop);
      assert forall w :: w in kept <==> w in words && w !in stop by {
        forall w ensures w in kept <==> w in words && w !in stop {
          assert w in kept <==> multiset(kept)[w] > 0;
          assert w in words <==> multiset(words)[w] > 0;
        }
      }
      WordSet(kept)
  }
}
