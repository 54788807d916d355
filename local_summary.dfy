/** The backend's local extractive summariser (`generateLocalSummary`) and its two keyword
    extractors (`extractKeywords`, `extractTopKeywords`).

    `cleanText` and `isStopWord` live in `backend/src/utils/TextUtils`, which is not part of
    this model; they are passed in as the two fields of `TextUtils` and nothing is known about
    them. */
module LocalSummarizer {
  import opened Text
  import opened Ranking

  datatype TextUtils = TextUtils(clean: string -> string, isStopWord: string -> bool)

  /** One scored fragment: the trimmed text, its score, its position among the surviving
      fragments and its word count (pieces of the untrimmed text split on whitespace). */
  datatype ScoredSentence = ScoredSentence(sentence: string, score: int, index: nat, length: nat)

  function ScoreOf(x: ScoredSentence): int
  {
    x.score
  }

  function IndexOf(x: ScoredSentence): int
  {
    x.index
  }

  function SentenceOf(x: ScoredSentence): string
  {
    x.sentence
  }

  /** How many points the summary has at most. */
  const SummaryPoints: nat := 4

  /** How many content keywords are asked for. */
  const ContentKeywordLimit: nat := 10

  /** How many title keywords are kept. */
  const TitleKeywordLimit: nat := 10

  const ValueIndicators: seq<string> := [
    "important", "significant", "key", "crucial", "essential", "main", "primary", "shows",
    "reveals", "found", "discovered", "research", "study", "data", "result", "results",
    "conclusion", "findings", "evidence", "proof", "new", "breakthrough", "innovation",
    "technology", "development", "impact", "effect", "influence", "change", "improvement",
    "benefit", "problem", "solution", "challenge", "opportunity", "trend", "future", "expert",
    "analysis", "report", "according", "official", "confirmed"]

  /** The alternatives of `/said|stated|reported|announced/`. */
  const Attributions: seq<string> := ["said", "stated", "reported", "announced"]

  const ActionWords: seq<string> := [
    "can", "should", "will", "how to", "way to", "method", "approach", "strategy"]

  const FillerPhrases: seq<string> := [
    "click here", "read more", "subscribe", "follow us", "share this"]

  /** The four word lists the score looks for. The scoring functions take them as a parameter;
      `generateLocalSummary` uses `SourceLexicon`, the lists above. */
  datatype Lexicon = Lexicon(valueIndicators: seq<string>, attributions: seq<string>,
                             actionWords: seq<string>, fillerPhrases: seq<string>)

  const SourceLexicon: Lexicon := Lexicon(ValueIndicators, Attributions, ActionWords, FillerPhrases)

  // ---------------------------------------------------------------------------------------
  // fragments

  /** The surviving fragments: the cleaned text split on runs of `.`, `!` and `?`, keeping
      those longer than 30 characters once trimmed. */
  function Sentences(cleaned: string): seq<string>
  {
    KeepLonger(SplitSentences(cleaned), 30)
  }

  // ---------------------------------------------------------------------------------------
  // the score of one fragment

  /** The position bonus of fragment `i` of `n`; the thresholds `n * 0.15` and `n * 0.85` are
      compared exactly. */
  function PositionBonus(i: nat, n: nat): int
  {
    (if i == 0 then 4 else 0) + (if i == 1 then 2 else 0)
    + (if 100 * i < 15 * n then 3 else 0) + (if 100 * i > 85 * n then 2 else 0)
  }

  /** The length bonus for a fragment of `w` words. */
  function LengthBonus(w: nat): int
  {
    if 15 <= w <= 35 then 4
    else if 10 <= w <= 45 then 2
    else if w < 8 || w > 60 then -3
    else 0
  }

  predicate IsDigit(c: char)
  {
    '0' <= c <= '9'
  }

  /** One of the four alternatives of `/\d+%|\$\d+|\d+,\d+|\d+ (million|billion|thousand|percent)/`
      matches at position `i`. A run of digits matches exactly when its last digit does, so one
      digit is enough on each side. */
  predicate NumericAt(s: string, i: nat)
  {
    i + 1 < |s| &&
    ((IsDigit(s[i]) && s[i + 1] == '%')
     || (s[i] == '$' && IsDigit(s[i + 1]))
     || (i + 2 < |s| && IsDigit(s[i]) && s[i + 1] == ',' && IsDigit(s[i + 2]))
     || (IsDigit(s[i]) && s[i + 1] == ' '
         && (StartsWith(s[i + 2..], "million") || StartsWith(s[i + 2..], "billion")
             || StartsWith(s[i + 2..], "thousand") || StartsWith(s[i + 2..], "percent"))))
  }

  predicate HasNumericDetail(s: string)
  {
    exists i: nat | i < |s| :: NumericAt(s, i)
  }

  /** `/"[^"]*"/` matches: there are two double quotes. */
  predicate HasQuote(s: string)
  {
    exists i: nat, j: nat | i < j < |s| :: s[i] == '"' && s[j] == '"'
  }

  /** The score the source computes for fragment `sentence` at position `i` of `n`, given the
      keyword list. */
  function SentenceScore(lex: Lexicon, sentence: string, i: nat, n: nat, keywords: seq<string>): int
  {
    var lower := Lower(sentence);
    PositionBonus(i, n)
    + LengthBonus(|SplitWhitespace(sentence)|)
    + 3 * Hits(lower, LowerEach(keywords))
    + 2 * Hits(lower, lex.valueIndicators)
    + (if HasNumericDetail(sentence) then 3 else 0)
    + (if HasQuote(sentence) || Hits(lower, lex.attributions) > 0 then 2 else 0)
    + 2 * Hits(lower, lex.actionWords)
    - 4 * Hits(lower, lex.fillerPhrases)
  }

  /** One `terms.forEach((t) => { if (lower.includes(t)) score += weight; })`, as the change it
      makes to the score. */
  method AddHits(lower: string, terms: seq<string>, weight: int) returns (delta: int)
    ensures delta == weight * Hits(lower, terms)
  {
    delta := 0;
    for j := 0 to |terms|
      invariant delta == weight * Hits(lower, terms[..j])
    {
      assert terms[..j + 1][..j] == terms[..j];
      if Contains(lower, terms[j]) {
        delta := delta + weight;
      }
    }
    assert terms[..|terms|] == terms;
  }

  /** The scoring closure: the position and length bonuses, then one `forEach` per word list
      adding to `score`. */
  method ScoreSentence(lex: Lexicon, sentence: string, i: nat, n: nat, keywords: seq<string>)
    returns (score: int)
    ensures score == SentenceScore(lex, sentence, i, n, keywords)
  {
    score := 0;
    var lower := Lower(sentence);
    var words := SplitWhitespace(sentence);
    if i == 0 { score := score + 4; }
    if i == 1 { score := score + 2; }
    if 100 * i < 15 * n { score := score + 3; }
    if 100 * i > 85 * n { score := score + 2; }
    assert score == PositionBonus(i, n);
    if 15 <= |words| <= 35 {
      score := score + 4;
    } else if 10 <= |words| <= 45 {
      score := score + 2;
    } else if |words| < 8 || |words| > 60 {
      score := score - 3;
    }
    ghost var base := PositionBonus(i, n) + LengthBonus(|words|);
    assert score == base;
    var delta := AddHits(lower, LowerEach(keywords), 3);
    score := score + delta;
    delta := AddHits(lower, lex.valueIndicators, 2);
    score := score + delta;
    ghost var hits := base + 3 * Hits(lower, LowerEach(keywords)) + 2 * Hits(lower, lex.valueIndicators);
    assert score == hits;
    if HasNumericDetail(sentence) {
      score := score + 3;
    }
    if HasQuote(sentence) || Hits(lower, lex.attributions) > 0 {
      score := score + 2;
    }
    ghost var details := hits + (if HasNumericDetail(sentence) then 3 else 0)
      + (if HasQuote(sentence) || Hits(lower, lex.attributions) > 0 then 2 else 0);
    assert score == details;
    delta := AddHits(lower, lex.actionWords, 2);
    score := score + delta;
    delta := AddHits(lower, lex.fillerPhrases, -4);
    score := score + delta;
  }

  // ---------------------------------------------------------------------------------------
  // keywords

  /** The words longer than `n` that are not stop words, in order. */
  function LongWords(words: seq<string>, n: nat, isStopWord: string -> bool): (r: seq<string>)
    ensures |r| <= |words|
    ensures forall k :: 0 <= k < |r| ==> |r[k]| > n && !isStopWord(r[k])
    ensures forall w :: w in r <==> w in words && |w| > n && !isStopWord(w)
  {
    if words == [] then []
    else
      (if |words[0]| > n && !isStopWord(words[0]) then [words[0]] else [])
      + LongWords(words[1..], n, isStopWord)
  }

  /** `extractKeywords`: the lowercased title split on whitespace, words longer than 3 that are
      not stop words, the first 10. */
  function ExtractKeywords(title: string, isStopWord: string -> bool): seq<string>
  {
    var candidates := LongWords(SplitWhitespace(Lower(title)), 3, isStopWord);
    candidates[..Min(TitleKeywordLimit, |candidates|)]
  }

  /** `extractKeywords` keeps at most 10 words, each lowercase, longer than 3 and not a stop word;
      they are the first such words of the title, in order and with repeats. */
  lemma {:induction false} ExtractKeywordsSpec(title: string, isStopWord: string -> bool)
    ensures var r := ExtractKeywords(title, isStopWord);
            |r| <= 10
            && (forall k :: 0 <= k < |r| ==> |r[k]| > 3 && !isStopWord(r[k]) && IsLowerCase(r[k]))
            && r <= LongWords(SplitWhitespace(Lower(title)), 3, isStopWord)
  {
    var pieces := SplitWhitespace(Lower(title));
    LowerIsLowerCase(title);
    SplitWhitespaceLowerCase(Lower(title));
    var candidates := LongWords(pieces, 3, isStopWord);
    forall k | 0 <= k < |candidates| ensures IsLowerCase(candidates[k]) {
      assert candidates[k] in pieces;
    }
  }

  /** `\w`: ASCII letters, digits and `_`. */
  predicate IsWordChar(c: char)
  {
    ('a' <= c <= 'z') || ('A' <= c <= 'Z') || ('0' <= c <= '9') || c == '_'
  }

  /** `.replace(/[^\w\s]/g, " ")`. */
  function BlankPunctuation(s: string): (r: string)
    ensures |r| == |s|
    ensures forall i :: 0 <= i < |r| ==> IsWordChar(r[i]) || IsSpace(r[i])
  {
    seq(|s|, i requires 0 <= i < |s| => if IsWordChar(s[i]) || IsSpace(s[i]) then s[i] else ' ')
  }

  /** The words `extractTopKeywords` counts: lowercased, punctuation blanked, split on
      whitespace, longer than 4 and not stop words. */
  function ContentWords(content: string, isStopWord: string -> bool): seq<string>
  {
    LongWords(SplitWhitespace(BlankPunctuation(Lower(content))), 4, isStopWord)
  }

  /** Every content word is lowercase. */
  lemma {:induction false} ContentWordsLowerCase(content: string, isStopWord: string -> bool)
    ensures forall k :: 0 <= k < |ContentWords(content, isStopWord)| ==>
              IsLowerCase(ContentWords(content, isStopWord)[k])
  {
    var b := BlankPunctuation(Lower(content));
    LowerIsLowerCase(content);
    assert IsLowerCase(b);
    SplitWhitespaceLowerCase(b);
    var words := ContentWords(content, isStopWord);
    forall k | 0 <= k < |words| ensures IsLowerCase(words[k]) {
      assert words[k] in SplitWhitespace(b);
    }
  }

  /** The distinct words of `ws` in first-seen order: the key order of the `Map` the source
      fills. */
  function Distinct(ws: seq<string>): (r: seq<string>)
    ensures forall w :: w in r <==> w in ws
    ensures forall i, j :: 0 <= i < j < |r| ==> r[i] != r[j]
  {
    if ws == [] then []
    else
      var d := Distinct(ws[..|ws| - 1]);
      assert ws == ws[..|ws| - 1] + [ws[|ws| - 1]];
      if ws[|ws| - 1] in d then d else d + [ws[|ws| - 1]]
  }

  /** How often `w` occurs in `ws`. */
  function Count(ws: seq<string>, w: string): nat
  {
    if ws == [] then 0 else Count(ws[..|ws| - 1], w) + (if ws[|ws| - 1] == w then 1 else 0)
  }

  lemma {:induction false} CountPositive(ws: seq<string>, w: string)
    ensures Count(ws, w) > 0 <==> w in ws
  {
    if ws != [] {
      CountPositive(ws[..|ws| - 1], w);
      assert ws == ws[..|ws| - 1] + [ws[|ws| - 1]];
    }
  }

  /** The `Map` entries `[word, count]`, in insertion order. */
  function Frequencies(ws: seq<string>): (r: seq<(string, int)>)
    ensures |r| == |Distinct(ws)|
  {
    var d := Distinct(ws);
    seq(|d|, k requires 0 <= k < |d| => (d[k], Count(ws, d[k])))
  }

  function Frequency(e: (string, int)): int
  {
    e.1
  }

  function Word(e: (string, int)): string
  {
    e.0
  }

  /** The selected entries, as the source has them before projecting on the words. */
  function TopEntries(content: string, limit: nat, isStopWord: string -> bool): seq<(string, int)>
  {
    var ranked := SortDesc(Frequencies(ContentWords(content, isStopWord)), Frequency);
    ranked[..Min(limit, |ranked|)]
  }

  /** `.map((entry) => entry[0])`. */
  function Words(entries: seq<(string, int)>): (r: seq<string>)
    ensures |r| == |entries| && forall k :: 0 <= k < |r| ==> r[k] == entries[k].0
  {
    seq(|entries|, k requires 0 <= k < |entries| => entries[k].0)
  }

  /** `extractTopKeywords`: the `limit` most frequent content words, most frequent first, ties
      in first-seen order. */
  function TopKeywords(content: string, limit: nat, isStopWord: string -> bool): seq<string>
  {
    Words(TopEntries(content, limit, isStopWord))
  }

  /** The counting loop: `order` is the key order of the source's `Map`, `counts` its contents. */
  method CountFrequencies(words: seq<string>) returns (order: seq<string>, counts: map<string, int>)
    ensures order == Distinct(words)
    ensures forall w :: w in counts <==> w in words
    ensures forall w :: w in counts ==> counts[w] == Count(words, w)
  {
    order := [];
    counts := map[];
    for i := 0 to |words|
      invariant Tallied(order, counts, words[..i])
    {
      assert words[..i + 1] == words[..i] + [words[i]];
      order, counts := Tally(order, counts, words[..i], words[i]);
    }
    assert words[..|words|] == words;
  }

  /** `order` and `counts` are the `Map`'s key order and values after counting `seen`. */
  ghost predicate Tallied(order: seq<string>, counts: map<string, int>, seen: seq<string>)
  {
    order == Distinct(seen)
    && (forall x :: x in counts <==> x in seen)
    && (forall x :: x in counts ==> counts[x] == Count(seen, x))
  }

  /** One step of the counting loop: `wordCount.set(word, (wordCount.get(word) || 0) + 1)`, a
      new key going to the end of the key order. */
  method Tally(order: seq<string>, counts: map<string, int>, ghost seen: seq<string>, w: string)
    returns (order': seq<string>, counts': map<string, int>)
    requires Tallied(order, counts, seen)
    ensures Tallied(order', counts', seen + [w])
  {
    DistinctStep(seen, w);
    CountStep(seen, w);
    if w in counts {
      counts' := counts[w := counts[w] + 1];
      order' := order;
    } else {
      CountPositive(seen, w);
      counts' := counts[w := 1];
      order' := order + [w];
    }
  }

  lemma {:induction false} DistinctStep(ws: seq<string>, w: string)
    ensures Distinct(ws + [w]) == if w in Distinct(ws) then Distinct(ws) else Distinct(ws) + [w]
  {
    assert (ws + [w])[..|ws|] == ws;
  }

  lemma {:induction false} CountStep(ws: seq<string>, w: string)
    ensures forall x :: Count(ws + [w], x) == Count(ws, x) + (if x == w then 1 else 0)
  {
    assert (ws + [w])[..|ws|] == ws;
  }

  method ExtractTopKeywords(content: string, limit: nat, isStopWord: string -> bool)
    returns (r: seq<string>)
    ensures r == TopKeywords(content, limit, isStopWord)
  {
    var words := ContentWords(content, isStopWord);
    var order, counts := CountFrequencies(words);
    var entries := seq(|order|, k requires 0 <= k < |order| => (order[k], counts[order[k]]));
    forall k | 0 <= k < |order| ensures entries[k] == Frequencies(words)[k] {
      assert order[k] in words;
    }
    assert entries == Frequencies(words);
    var ranked := SortDesc(entries, Frequency);
    var top := ranked[..Min(limit, |ranked|)];
    r := Words(top);
  }

  lemma {:induction false} FrequenciesDistinct(ws: seq<string>)
    ensures DistinctBy(Frequencies(ws), Word)
  {
  }

  /** Every selected entry is a content word with its own count. */
  lemma {:induction false} TopEntriesCounted(content: string, limit: nat, isStopWord: string -> bool)
    ensures var words := ContentWords(content, isStopWord);
            var e := TopEntries(content, limit, isStopWord);
            forall k :: 0 <= k < |e| ==> e[k].0 in words && e[k].1 == Count(words, e[k].0)
  {
    var words := ContentWords(content, isStopWord);
    var f := Frequencies(words);
    assert TopEntries(content, limit, isStopWord) == SortDesc(f, Frequency)[..Min(limit, |f|)];
    RankedCounted(words, limit);
  }

  /** The top entries of any word list are words of the list with their own counts. */
  lemma {:induction false} RankedCounted(words: seq<string>, limit: nat)
    ensures var f := Frequencies(words);
            var e := SortDesc(f, Frequency)[..Min(limit, |f|)];
            forall k :: 0 <= k < |e| ==> e[k].0 in words && e[k].1 == Count(words, e[k].0)
  {
    var f := Frequencies(words);
    var ranked := SortDesc(f, Frequency);
    SortPermutes(f, Frequency);
    var e := ranked[..Min(limit, |f|)];
    forall k | 0 <= k < |e| ensures e[k].0 in words && e[k].1 == Count(words, e[k].0) {
      assert e[k] == ranked[k];
      assert ranked[k] in multiset(f);
      var m :| 0 <= m < |f| && f[m] == ranked[k];
      assert f[m].0 in Distinct(words);
    }
  }


  /** `extractTopKeywords` returns at most `limit` words, no word twice, each longer than 4 and
      not a stop word, most frequent first. */
  lemma {:induction false} TopKeywordsSpec(content: string, limit: nat, isStopWord: string -> bool)
    ensures var words := ContentWords(content, isStopWord);
            var r := TopKeywords(content, limit, isStopWord);
            |r| <= limit
            && (forall k :: 0 <= k < |r| ==> |r[k]| > 4 && !isStopWord(r[k]))
            && (forall i, j :: 0 <= i < j < |r| ==> r[i] != r[j])
            && (forall i, j :: 0 <= i < j < |r| ==> Count(words, r[i]) >= Count(words, r[j]))
  {
    var words := ContentWords(content, isStopWord);
    var f := Frequencies(words);
    var ranked := SortDesc(f, Frequency);
    var e := TopEntries(content, limit, isStopWord);
    var r := TopKeywords(content, limit, isStopWord);
    TopEntriesCounted(content, limit, isStopWord);
    FrequenciesDistinct(words);
    SortDistinctBy(f, Frequency, Word);
    SortNonIncreasing(f, Frequency);
    forall i, j | 0 <= i < j < |r| ensures r[i] != r[j] {
      assert Word(ranked[i]) != Word(ranked[j]);
    }
    forall i, j | 0 <= i < j < |r| ensures Count(words, r[i]) >= Count(words, r[j]) {
      assert Frequency(ranked[i]) >= Frequency(ranked[j]);
    }
  }

  /** A content word left out is no more frequent than any selected one. */
  lemma {:induction false} TopKeywordsDominate(content: string, limit: nat, isStopWord: string -> bool, w: string)
    requires w in ContentWords(content, isStopWord)
    requires w !in TopKeywords(content, limit, isStopWord)
    ensures var words := ContentWords(content, isStopWord);
            forall k :: 0 <= k < |TopKeywords(content, limit, isStopWord)| ==>
              Count(words, TopKeywords(content, limit, isStopWord)[k]) >= Count(words, w)
  {
    RankedDominate(ContentWords(content, isStopWord), limit, w);
  }

  /** A word of any list left out of its top entries is no more frequent than any word kept. */
  lemma {:induction false} RankedDominate(words: seq<string>, limit: nat, w: string)
    requires w in words
    requires var f := Frequencies(words);
             w !in Words(SortDesc(f, Frequency)[..Min(limit, |f|)])
    ensures var f := Frequencies(words);
            var r := Words(SortDesc(f, Frequency)[..Min(limit, |f|)]);
            forall k :: 0 <= k < |r| ==> Count(words, r[k]) >= Count(words, w)
  {
    var f := Frequencies(words);
    var e := SortDesc(f, Frequency)[..Min(limit, |f|)];
    var r := Words(e);
    RankedCounted(words, limit);
    var d := Distinct(words);
    var a :| 0 <= a < |d| && d[a] == w;
    assert f[a] == (w, Count(words, w));
    EntriesDominate(f, Min(limit, |f|), f[a]);
    forall k | 0 <= k < |r| ensures Count(words, r[k]) >= Count(words, w) {
      assert r[k] == e[k].0;
    }
  }

  /** An entry whose word the top `m` leave out has a frequency no higher than any of them. */
  lemma {:induction false} EntriesDominate(f: seq<(string, int)>, m: nat, y: (string, int))
    requires m <= |f| && y in f
    requires y.0 !in Words(SortDesc(f, Frequency)[..m])
    ensures var e := SortDesc(f, Frequency)[..m];
            forall k :: 0 <= k < |e| ==> e[k].1 >= y.1
  {
    var e := SortDesc(f, Frequency)[..m];
    TopDominates(f, m, Frequency);
    forall k | 0 <= k < |e| ensures e[k].1 >= y.1 {
      assert e[k] in e;
      assert Frequency(e[k]) >= Frequency(y);
    }
  }

  /** Among words of equal frequency, the selection keeps those seen first, in that order. */
  lemma {:induction false} TopKeywordsTieOrder(content: string, limit: nat, isStopWord: string -> bool, v: int)
    ensures var f := Frequencies(ContentWords(content, isStopWord));
            WithKey(TopEntries(content, limit, isStopWord), Frequency, v) <= WithKey(f, Frequency, v)
  {
    var f := Frequencies(ContentWords(content, isStopWord));
    TopKeepsTieOrder(f, Min(limit, |f|), Frequency, v);
  }

  // ---------------------------------------------------------------------------------------
  // the summary

  /** The keyword list: the title's, then the ten most frequent content words. */
  function Keywords(cleaned: string, title: string, isStopWord: string -> bool): seq<string>
  {
    ExtractKeywords(title, isStopWord) + TopKeywords(cleaned, ContentKeywordLimit, isStopWord)
  }

  /** What the scoring closure returns for fragment `i`. */
  function ScoredAt(lex: Lexicon, sentences: seq<string>, keywords: seq<string>, i: nat)
    : ScoredSentence
    requires i < |sentences|
  {
    ScoredSentence(Trim(sentences[i]), SentenceScore(lex, sentences[i], i, |sentences|, keywords), i,
                   |SplitWhitespace(sentences[i])|)
  }

  /** `sentences.map((sentence, index) => …)`. */
  function Scored(lex: Lexicon, sentences: seq<string>, keywords: seq<string>): (r: seq<ScoredSentence>)
    ensures |r| == |sentences|
    ensures forall i :: 0 <= i < |r| ==> r[i] == ScoredAt(lex, sentences, keywords, i)
  {
    seq(|sentences|, i requires 0 <= i < |sentences| => ScoredAt(lex, sentences, keywords, i))
  }

  /** `.map((item) => item.sentence)`. */
  function Texts(top: seq<ScoredSentence>): (r: seq<string>)
    ensures |r| == |top| && forall k :: 0 <= k < |r| ==> r[k] == top[k].sentence
  {
    seq(|top|, k requires 0 <= k < |top| => top[k].sentence)
  }

  /** The fragments `generateLocalSummary` picks when there are more than three. */
  function Selection(lex: Lexicon, sentences: seq<string>, keywords: seq<string>): seq<ScoredSentence>
  {
    TopInOrder(Scored(lex, sentences, keywords), SummaryPoints, ScoreOf, IndexOf)
  }

  /** `generateLocalSummary`. */
  function LocalSummary(content: string, title: string, u: TextUtils): seq<string>
  {
    var cleaned := u.clean(content);
    var sentences := Sentences(cleaned);
    if |sentences| <= 3 then NonEmpty(TrimEach(sentences))
    else
      Texts(Selection(SourceLexicon, sentences, Keywords(cleaned, title, u.isStopWord)))
  }

  /** The closure of `sentences.map(…)` for fragment `i`: its score and the record it returns. */
  method ScoreFragment(lex: Lexicon, sentences: seq<string>, i: nat, keywords: seq<string>)
    returns (x: ScoredSentence)
    requires i < |sentences|
    ensures x == ScoredAt(lex, sentences, keywords, i)
  {
    var score := ScoreSentence(lex, sentences[i], i, |sentences|, keywords);
    x := ScoredSentence(Trim(sentences[i]), score, i, |SplitWhitespace(sentences[i])|);
  }

  /** The `sentences.map(…)` that scores every fragment. */
  method ScoreAll(lex: Lexicon, sentences: seq<string>, keywords: seq<string>)
    returns (scored: seq<ScoredSentence>)
    ensures scored == Scored(lex, sentences, keywords)
  {
    scored := [];
    for i := 0 to |sentences|
      invariant |scored| == i
      invariant forall k :: 0 <= k < i ==> scored[k] == ScoredAt(lex, sentences, keywords, k)
    {
      var x := ScoreFragment(lex, sentences, i, keywords);
      scored := scored + [x];
      assert scored[i] == ScoredAt(lex, sentences, keywords, i);
    }
    var all := Scored(lex, sentences, keywords);
    assert forall k :: 0 <= k < |scored| ==> scored[k] == all[k];
  }

  method GenerateLocalSummary(content: string, title: string, u: TextUtils)
    returns (points: seq<string>)
    ensures points == LocalSummary(content, title, u)
  {
    var cleaned := u.clean(content);
    var sentences := Sentences(cleaned);
    if |sentences| <= 3 {
      points := NonEmpty(TrimEach(sentences));
      return;
    }
    var titleWords := ExtractKeywords(title, u.isStopWord);
    var contentKeywords := ExtractTopKeywords(cleaned, ContentKeywordLimit, u.isStopWord);
    var keywords := titleWords + contentKeywords;
    var scored := ScoreAll(SourceLexicon, sentences, keywords);
    points := Texts(TopInOrder(scored, SummaryPoints, ScoreOf, IndexOf));
  }

  // ---------------------------------------------------------------------------------------
  // what the summary promises

  /** With at most three surviving fragments the summary is exactly those fragments, trimmed,
      in order, with no scoring. */
  lemma {:induction false} FewSentences(content: string, title: string, u: TextUtils)
    requires |Sentences(u.clean(content))| <= 3
    ensures LocalSummary(content, title, u) == TrimEach(Sentences(u.clean(content)))
  {
    NonEmptyKeepsAll(TrimEach(Sentences(u.clean(content))));
  }

  lemma {:induction false} ScoredAscending(lex: Lexicon, sentences: seq<string>, keywords: seq<string>)
    ensures AscendingBy(Scored(lex, sentences, keywords), IndexOf)
  {
  }

  /** With more than three fragments the summary has exactly four points, each a trimmed
      surviving fragment, with strictly ascending positions. */
  lemma {:induction false} SelectionShape(lex: Lexicon, sentences: seq<string>, keywords: seq<string>)
    requires |sentences| > 3
    ensures var top := Selection(lex, sentences, keywords);
            |top| == SummaryPoints
            && (forall k :: 0 <= k < |top| ==>
                  top[k].index < |sentences| && top[k].sentence == Trim(sentences[top[k].index])
                  && top[k].score == SentenceScore(lex, sentences[top[k].index], top[k].index,
                                                   |sentences|, keywords))
            && (forall i, j :: 0 <= i < j < |top| ==> top[i].index < top[j].index)
  {
    var scored := Scored(lex, sentences, keywords);
    ScoredAscending(lex, sentences, keywords);
    TopInOrderLength(scored, SummaryPoints, ScoreOf, IndexOf);
    TopInOrderAscending(scored, SummaryPoints, ScoreOf, IndexOf);
    TopInOrderFrom(scored, SummaryPoints, ScoreOf, IndexOf);
    var top := Selection(lex, sentences, keywords);
    forall k | 0 <= k < |top|
      ensures top[k].index < |sentences| && top[k].sentence == Trim(sentences[top[k].index])
      ensures top[k].score == SentenceScore(lex, sentences[top[k].index], top[k].index,
                                            |sentences|, keywords)
    {
      assert top[k] in scored;
    }
    forall i, j | 0 <= i < j < |top| ensures top[i].index < top[j].index {
      assert IndexOf(top[i]) < IndexOf(top[j]);
    }
  }

  /** A fragment left out scores below every chosen one, or the same as a chosen one that comes
      earlier: the stable descending sort prefers the lower position on ties. */
  lemma {:induction false} SelectionIsBest(lex: Lexicon, sentences: seq<string>, keywords: seq<string>,
                                           i: nat)
    requires i < |sentences|
    requires forall k :: 0 <= k < |Selection(lex, sentences, keywords)| ==>
               Selection(lex, sentences, keywords)[k].index != i
    ensures var top := Selection(lex, sentences, keywords);
            var s := SentenceScore(lex, sentences[i], i, |sentences|, keywords);
            forall k :: 0 <= k < |top| ==>
              top[k].score > s || (top[k].score == s && top[k].index < i)
  {
    var scored := Scored(lex, sentences, keywords);
    var top := Selection(lex, sentences, keywords);
    ScoredAscending(lex, sentences, keywords);
    TopInOrderBest(scored, SummaryPoints, ScoreOf, IndexOf);
    var y := scored[i];
    assert y in scored;
    assert y !in top;
    forall k | 0 <= k < |top| ensures top[k].score > y.score || (top[k].score == y.score && top[k].index < i) {
      assert top[k] in top;
      assert RankedBefore(top[k], y, ScoreOf, IndexOf);
    }
  }

  /** The summary's points are the chosen fragments' trimmed texts, in the chosen order. */
  lemma {:induction false} ManySentences(content: string, title: string, u: TextUtils)
    requires |Sentences(u.clean(content))| > 3
    ensures var cleaned := u.clean(content);
            var top := Selection(SourceLexicon, Sentences(cleaned), Keywords(cleaned, title, u.isStopWord));
            var r := LocalSummary(content, title, u);
            |r| == SummaryPoints && forall k :: 0 <= k < |r| ==> r[k] == top[k].sentence
  {
    var cleaned := u.clean(content);
    SelectionShape(SourceLexicon, Sentences(cleaned), Keywords(cleaned, title, u.isStopWord));
  }

  // ---------------------------------------------------------------------------------------
  // properties of the score

  /** The position bonuses stack: the first fragment of at least one gets 4 + 3, the second of
      more than 13 gets 2 + 3, and the last of more than 7 gets the closing 2 and nothing for
      being early. */
  lemma {:induction false} PositionBonusCases(n: nat)
    ensures n >= 1 ==> PositionBonus(0, n) == 7
    ensures n >= 14 ==> PositionBonus(1, n) == 5
    ensures n >= 7 ==> PositionBonus(n - 1, n) == 2
  {
  }

  /** The length bonus is exactly one of 4, 2, -3 and 0, each for its own range of counts. */
  lemma {:induction false} LengthBonusCases(w: nat)
    ensures LengthBonus(w) == 4 <==> 15 <= w <= 35
    ensures LengthBonus(w) == 2 <==> (10 <= w < 15 || 35 < w <= 45)
    ensures LengthBonus(w) == -3 <==> (w < 8 || w > 60)
    ensures LengthBonus(w) == 0 <==> (8 <= w < 10 || 45 < w <= 60)
  {
  }

  /** Each keyword entry adds 3 when the lowercased fragment contains it lowercased, so a keyword
      listed twice counts twice. */
  lemma {:induction false} KeywordAdds(lex: Lexicon, sentence: string, i: nat, n: nat,
                                       keywords: seq<string>, k: string)
    ensures SentenceScore(lex, sentence, i, n, keywords + [k])
            == SentenceScore(lex, sentence, i, n, keywords)
               + (if Contains(Lower(sentence), Lower(k)) then 3 else 0)
  {
    assert LowerEach(keywords + [k])[..|keywords|] == LowerEach(keywords);
  }

  /** Keywords listed twice count twice. */
  lemma {:induction false} KeywordsRepeated(lex: Lexicon, sentence: string, i: nat, n: nat,
                                            keywords: seq<string>)
    ensures SentenceScore(lex, sentence, i, n, keywords + keywords)
            == SentenceScore(lex, sentence, i, n, []) + 6 * Hits(Lower(sentence), LowerEach(keywords))
  {
    assert LowerEach(keywords + keywords) == LowerEach(keywords) + LowerEach(keywords);
    HitsAppend(Lower(sentence), LowerEach(keywords), LowerEach(keywords));
    assert LowerEach([]) == [];
  }

  /** Each value indicator adds 2 when the lowercased fragment contains it. */
  lemma {:induction false} ValueIndicatorAdds(lex: Lexicon, sentence: string, i: nat, n: nat,
                                              keywords: seq<string>, w: string)
    ensures SentenceScore(lex.(valueIndicators := lex.valueIndicators + [w]), sentence, i, n, keywords)
            == SentenceScore(lex, sentence, i, n, keywords)
               + (if Contains(Lower(sentence), w) then 2 else 0)
  {
    HitsAppend(Lower(sentence), lex.valueIndicators, [w]);
  }

  /** Each action word adds 2 when the lowercased fragment contains it. */
  lemma {:induction false} ActionWordAdds(lex: Lexicon, sentence: string, i: nat, n: nat,
                                          keywords: seq<string>, w: string)
    ensures SentenceScore(lex.(actionWords := lex.actionWords + [w]), sentence, i, n, keywords)
            == SentenceScore(lex, sentence, i, n, keywords)
               + (if Contains(Lower(sentence), w) then 2 else 0)
  {
    HitsAppend(Lower(sentence), lex.actionWords, [w]);
  }

  /** Each filler phrase takes 4 away when the lowercased fragment contains it. */
  lemma {:induction false} FillerPhraseSubtracts(lex: Lexicon, sentence: string, i: nat, n: nat,
                                                 keywords: seq<string>, w: string)
    ensures SentenceScore(lex.(fillerPhrases := lex.fillerPhrases + [w]), sentence, i, n, keywords)
            == SentenceScore(lex, sentence, i, n, keywords)
               - (if Contains(Lower(sentence), w) then 4 else 0)
  {
    HitsAppend(Lower(sentence), lex.fillerPhrases, [w]);
  }

  /** The attribution bonus is given once: one more attribution word adds 2 exactly when the
      fragment contains it and had neither a quotation nor another attribution word. */
  lemma {:induction false} AttributionAdds(lex: Lexicon, sentence: string, i: nat, n: nat,
                                           keywords: seq<string>, w: string)
    ensures SentenceScore(lex.(attributions := lex.attributions + [w]), sentence, i, n, keywords)
            == SentenceScore(lex, sentence, i, n, keywords)
               + (if Contains(Lower(sentence), w) && !HasQuote(sentence)
                     && Hits(Lower(sentence), lex.attributions) == 0 then 2 else 0)
  {
    HitsAppend(Lower(sentence), lex.attributions, [w]);
  }
}
