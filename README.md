# SEO blog-topic generator — verified model of the text pipeline

The repository holds three near-identical scripts (`seonew.py`, `seo.py`,
`test.py`) that read RSS feed entries, score each entry against the
vocabulary of a company blog, rank the articles, turn the titles and the first
summary sentences of the best 50 articles into blog-topic ideas, deduplicate
and rank those ideas, and pick the 20 most common keywords as trends. This
project models that in-memory pipeline in Dafny and proves what each step
promises.

Modules, one per concern:

- `Text`: `clean_text` (the regular expression `\b[a-zA-Z]{3,}\b` on the
  lowered text), `str.split()` word counting, and the substring test `in`.
- `Keywords`: the stop-word set, the stop-word filter, the relevance score,
  and the keywords of the company blog.
- `Counting`: `collections.Counter` and `most_common(n)`.
- `Articles`: feed entries, article records, the stable ranking on
  `(score, published)`, the fetch-and-score loop, and the trend list.
- `Ideas`: what the three idea generators share. This covers the starters,
  the sentence-length rule, first-letter lowering and first-occurrence
  deduplication.
- `Seonew`, `Seo`, `TestScript`: each script's own `suggest_seo_topics` and
  `main`.
- `Seqs` and `Wrappers`: sequence helpers and `Option`.

Loops in the source are Dafny methods with loop invariants. Each is proved
equal to a specification function, and the lemmas state the promises about
that function. Examples are `Articles.FetchAndScore` and
`Seonew.RankByFrequency`. `clean_text`, the score and the sort are
expressions in the source, so they are functions here.

`seonew.py`, `seo.py` and `test.py` share `clean_text`, the stop-word set,
the keyword filter, the ranking and the trend extraction. seonew.py:51-111
and seo.py:51-111 are identical line for line. test.py:47-100 has the same
code at other line numbers; its stop-word list omits a repeated `"into"`, so
the set is the same.
Rows that cite `seonew.py` for these shared parts apply equally to the other
two files. The only scoring difference is test.py:90, which guards the
intersection with an explicit empty-set test. `Keywords.OverlapScore` proves
that guard makes no difference.

## Model

| member | source | states |
|---|---|---|
| Text.CleanText | seonew.py:61-63 | every token is at least 3 characters long and made only of lowercase ASCII letters |
| Text.CleanTextIsFindall | seonew.py:61-63 | the tokens are exactly the regex matches of the lowered text, taken left to right without overlap; every match is found; a letter run glued to a digit or underscore is never kept, even in part |
| Text.MatchSpans | seonew.py:63 | the scanner returns only matches (ASCII letters, length at least 3, word boundaries on both sides), in increasing, non-overlapping order |
| Text.MatchSpansComplete | seonew.py:63 | every match that starts after the scan position is among the spans the scanner returns |
| Text.LowerAppend | seonew.py:63 | lower-casing distributes over concatenation |
| Text.SplitWords | seonew.py:139 | `str.split()` yields non-empty words that contain no whitespace |
| Text.WordCountIsWordStarts | seonew.py:139 | the number of words from `str.split()` equals the number of positions where a non-whitespace character follows whitespace or the start of the string |
| Text.ContainsIff | seonew.py:128 | `sub in s` holds exactly when `sub` occurs at some position of `s` |
| Text.PrefixContained | seonew.py:128 | a string that starts with `p` contains `p` |
| Keywords.Stopwords | seonew.py:51-58 | the stop-word set contains every extra stop word and every NLTK English stop word |
| Keywords.FilterStopwords | seonew.py:97 | each word is kept as often as it occurs when it is not a stop word, and dropped entirely when it is |
| Keywords.FilterStopwordsIsSubsequence | seonew.py:97 | the keywords are a subsequence of the cleaned words, order kept |
| Keywords.FilterStopwordsIdempotent | seonew.py:97 | filtering the keywords a second time changes nothing |
| Keywords.Score | seonew.py:100 | the score is at most the size of the company set and at most the number of distinct keywords; it is 0 when the company set is empty |
| Keywords.OverlapScore | test.py:90 | the guarded overlap score equals the plain intersection size for every company set |
| Keywords.BlogKeywords | seonew.py:65-82 | a failed fetch gives the empty set; otherwise a word is a blog keyword exactly when it is a cleaned token of the joined titles and descriptions and is not a stop word; every keyword is lowercase with at least 3 letters |
| Counting.Tally | seonew.py:230 | the counter's items are the distinct elements in first-occurrence order, each with its exact count |
| Counting.SortByCount | seonew.py:159 | sorting by count is a permutation of its input |
| Counting.SortRanked | seonew.py:159 | sorting entries given in first-occurrence order by count ranks them: higher counts first, ties in first-occurrence order |
| Counting.SortedTally | seonew.py:230 | the sorted counter holds every distinct element once with its exact count, ranked |
| Counting.MostCommonSpec | seo.py:136 | `most_common(n)` lists min(n, #distinct) distinct elements with exact positive counts; higher counts come first and ties keep first-occurrence order; no left-out element outranks a listed one |
| Articles.ScoreEntry | seonew.py:89-109 | an entry becomes an article with the same title, link and date; its keywords are lowercase, at least 3 letters long and free of stop words; its score is bounded by the company set size and the distinct keyword count, and is 0 when that set is empty |
| Articles.ScoreEntryKeywords | seonew.py:95-97 | the keywords are the cleaned words of `title + " " + summary` (the summary is empty when missing), kept in text order, each as often as it occurs unless it is a stop word |
| Articles.MissingSummary | seonew.py:95-106 | with no summary, the keywords and score are those of an empty summary, and the stored summary is the placeholder "No summary available." |
| Articles.ScoreFeedsLength | seonew.py:86-109 | one article is built per feed entry |
| Articles.Rank | seonew.py:111 | the ranking is a permutation of the built articles |
| Articles.RankDescending | seonew.py:111 | the ranking is non-increasing in `(score, published)`, so a higher score always comes earlier |
| Articles.RankStable | seonew.py:111 | articles with equal `(score, published)` keep their fetch order |
| Articles.RankHigherScoreFirst | seonew.py:111 | of two articles, the one with the higher score is ranked first whatever their dates |
| Articles.RankLength | seonew.py:111 | ranking neither drops nor adds articles |
| Articles.ScoreFeed | seonew.py:89-109 | the loop over one feed's entries builds one scored article per entry, in entry order |
| Articles.FetchAndScore | seonew.py:84-111 | the nested append loops followed by the sort give the ranked articles: a non-increasing permutation of one scored article per entry |
| Articles.TrendsSpec | seonew.py:229-230 | the trends are at most 20 distinct keywords of the first 50 ranked articles; each has its exact count there; counts are descending with ties in first-occurrence order; no left-out keyword is more frequent than a listed one |
| Ideas.StartsWithStarter | seonew.py:119-128 | any text that begins with one of the nine starters looks well formed |
| Ideas.LowerFirstAgree | seonew.py:141 | lowering the first character only when it is upper-case gives the same string as lowering it always (seo.py:130); the length and the rest are unchanged |
| Ideas.QualifyingPositions | seonew.py:137-138 | the positions of the sentences with 9 to 19 words, each exactly once and in increasing order |
| Ideas.QuestionsOfSpec | seonew.py:137-142 | the sentence loop makes one item per sentence with 9 to 19 words, in sentence order: item i comes from the i-th such sentence |
| Ideas.QuestionsOfMembers | seonew.py:137-142 | there are at most as many questions as sentences, and an item is made exactly for each sentence with 9 to 19 words |
| Ideas.FirstOccurrencesTexts | test.py:125-130 | the deduplicated texts are the distinct texts in first-occurrence order |
| Ideas.FirstOccurrencesLinks | test.py:125-130 | each kept idea carries the link of its text's first occurrence |
| Ideas.FirstOccurrencesSpec | test.py:125-130 | deduplication keeps the distinct texts in first-occurrence order, each with the link of its first occurrence |
| Ideas.FirstOccurrencesOrder | seonew.py:151-156 | deduplication repeats no text, lists texts in order of first occurrence, and drops no text |
| Seonew.QuestionsSpec | seonew.py:137-142 | the questions correspond one to one, in sentence order, to the examined sentences with 9 to 19 words: the i-th question is made from the i-th such sentence with the seonew template and carries the article link; a question is made exactly for each such sentence |
| Seonew.RephrasingsWellFormed | seonew.py:132-133 | the "How to" and "The Ultimate Guide to" rewrites of any title look well formed |
| Seonew.QuestionWellFormed | seonew.py:142 | every generated question looks well formed, because it starts with "Why" |
| Seonew.ArticleIdeasSpec | seonew.py:123-146 | each article yields 1 to 4 ideas; all carry its link and all look well formed |
| Seonew.TokenizerFailureIsLocal | seonew.py:136-146 | when the tokenizer fails on one article, only that article's questions are lost; the ideas of all other articles are unchanged |
| Seonew.GeneratedIdeasSpec | seonew.py:123-146 | n articles yield between n and 4n ideas; every idea looks well formed and carries the link of some scanned article |
| Seonew.SortDropLinks | seonew.py:159 | the sort by count ignores links: it commutes with dropping them |
| Seonew.WithCountsIsTally | seonew.py:149-156 | the deduplicated (idea, link, count) triples without their links are the counter's items |
| Seonew.RankIdeasIsMostCommon | seonew.py:149-162 | the suggested texts are exactly `Counter(texts).most_common(15)` |
| Seonew.RankIdeasLinks | seonew.py:149-162 | each suggestion carries the link of its text's first occurrence |
| Seonew.RankIdeasSpec | seonew.py:149-162 | there are min(15, #distinct) suggestions; no text appears twice and each carries the link of its first occurrence |
| Seonew.RankIdeasOrder | seonew.py:149-162 | more frequent texts come first and ties keep first-occurrence order |
| Seonew.RankIdeasLeftOut | seonew.py:162 | no left-out idea is more frequent than any listed one |
| Seonew.SuggestedTopicsEmpty | seonew.py:123-162 | some topic is suggested exactly when there is at least one article |
| Seonew.AddQuestions | seonew.py:138-143 | the sentence loop computes the questions of the sentences it is given |
| Seonew.IdeasFor | seonew.py:124-146 | one pass of the generation loop appends exactly the article's ideas |
| Seonew.GenerateIdeas | seonew.py:118-146 | the generation loop yields the ideas of the first 50 articles in order |
| Seonew.RankByFrequency | seonew.py:149-162 | the dedup loop with its `seen` set, the in-place sort and the cut give the frequency ranking |
| Seonew.SuggestTopics | seonew.py:113-162 | `suggest_seo_topics` computes the specified suggestions |
| Seonew.Run | seonew.py:214-234 | nothing is reported exactly when the feeds have no entry; otherwise the report holds the suggestions and trends of the ranked articles |
| Seo.QuestionsSpec | seo.py:127-130 | the questions correspond one to one, in sentence order, to the examined sentences with 9 to 19 words: the i-th question is made from the i-th such sentence with the title-case template; a question is made exactly for each such sentence |
| Seo.QuestionWellFormed | seo.py:130 | every generated question looks well formed |
| Seo.ArticleIdeasSpec | seo.py:119-132 | each article yields at most 3 ideas, all well formed; a well-formed title is kept verbatim |
| Seo.TokenizerFailureIsLocal | seo.py:126-132 | a tokenizer failure loses only that article's questions; the ideas of later and earlier articles are unchanged |
| Seo.GeneratedIdeasSpec | seo.py:119-132 | n articles yield at most 3n ideas, all well formed; there are none exactly when no article contributes any |
| Seo.RankIdeasSpec | seo.py:136 | there are min(15, #distinct) suggestions; none appears twice and each is a generated idea |
| Seo.RankIdeasOrder | seo.py:136 | counts are descending and ties keep first-occurrence order |
| Seo.RankIdeasLeftOut | seo.py:136 | no left-out idea is more frequent than any listed one |
| Seo.RankIdeasEmpty | seo.py:136 | the ranking is empty exactly when no idea was generated |
| Seo.SuggestedTopicsEmpty | seo.py:119-136 | no topic is suggested exactly when none of the first 50 articles has a well-formed title or a summary sentence of the right length |
| Seo.AddQuestions | seo.py:128-130 | the sentence loop computes the questions of the sentences it is given |
| Seo.IdeasFor | seo.py:121-132 | one pass of the generation loop appends exactly the article's ideas |
| Seo.SuggestTopics | seo.py:113-136 | `suggest_seo_topics` computes the specified suggestions |
| Seo.Run | seo.py:188-208 | nothing is reported exactly when no scanned article yields an idea; otherwise the report holds the suggestions and trends of the ranked articles |
| TestScript.QuestionsAsInSeo | test.py:117-120 | without links, the questions are those of seo.py; each carries the article link |
| TestScript.ArticleIdeasAsInSeo | test.py:108-122 | without links, an article's ideas are those of seo.py; every link is the article's own |
| TestScript.GeneratedIdeasAsInSeo | test.py:107-122 | without links, the generated ideas are those of seo.py |
| TestScript.RankIdeasSpec | test.py:125-132 | the suggestions are the first min(15, #distinct) distinct texts in first-occurrence order; none appears twice and each has the link of its first occurrence |
| TestScript.RankIdeasLeftOut | test.py:132 | an idea is left out only when the list is full, and then its first occurrence comes after every listed idea's |
| TestScript.RankIdeasEmpty | test.py:125-132 | the suggestions are empty exactly when no idea was generated |
| TestScript.SuggestedTopicsEmpty | test.py:107-132 | no topic is suggested exactly when seo.py would suggest none from the same articles, that is when no scanned article has a well-formed title or a qualifying sentence |
| TestScript.AddQuestions | test.py:117-120 | the sentence loop computes the questions of the sentences it is given |
| TestScript.IdeasFor | test.py:108-122 | one pass of the generation loop appends exactly the article's ideas |
| TestScript.Dedup | test.py:125-132 | the loop with its `seen` set keeps first occurrences, and the cut takes the first 15 |
| TestScript.SuggestTopics | test.py:102-132 | `suggest_seo_topics` computes the specified suggestions |
| TestScript.Run | test.py:179-198 | nothing is reported exactly when no scanned article yields an idea; otherwise the report holds the suggestions and trends of the ranked articles |

## Left out

- Feed fetching (`feedparser.parse`) and blog scraping (`requests`, BeautifulSoup) are network and HTML I/O. Their results are inputs: one entry list per feed, and an optional page of titles and descriptions (`None` when the request fails).
- `send_email` (SMTP, credentials) and `build_email_content` (HTML templating with the current time) are output only. `Run` returns the topics and trends it would send.
- The NLTK English stop-word list and its download are a foreign data file. The list is a parameter, and the model unions it with the literal extra stop words.
- `sent_tokenize` is a foreign library. It is a function parameter that returns either the sentences or `None` when it raises.
- `datetime(*published_parsed[:6])` and its `datetime.now()` fallback read the clock. `published` is an integer supplied with each entry.
- Word characters for `\b`, `str.lower()`, `str.isupper()` and `str.split()`: the model uses ASCII letters, digits and `_` as word characters and ASCII case mapping. It uses Python's exact whitespace set for `split()`. Unicode letters beyond ASCII are not modelled. So a non-ASCII letter acts as a separator here, and the model keeps tokens Python drops: in `"résumé"` the model finds `"sum"` between the accented letters, while Python's Unicode `\b` finds no match.
- Entries without a title or a link: `entry.title` and `entry.link` are read outside the `try` (seonew.py:95 and 104; seo.py:95 and 104; test.py:85 and 94). For an entry missing either, feedparser raises `AttributeError`, which aborts `fetch_and_score_articles` and `main`, so nothing is sent. `Entry` always has both fields, so the model does not capture that abort.
- Seonew.TitleIdeas: the `"#"` default for a missing link and the `or ""` for a `None` title (seonew.py:124-125) cannot fire, because every article record that reaches them was built with a `link` key and a string title; an entry lacking either aborts the run earlier, as the line above says. The model has no missing link or `None` title.
- Seonew.RankByFrequency: the in-place `list.sort` at seonew.py:159 is modelled as reassigning the sorted value. The loop and its result are the same, but aliasing of the list object is not modelled.
- Configuration read from the environment and `print` logging are left out.

