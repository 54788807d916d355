/** The extension's own summariser (`generateFallbackSummary`), used when the backend cannot be
    reached: a simpler scorer than the backend's, with its own constants, over fragments longer
    than 20 characters, keeping three. */
module FallbackSummarizer {
  import opened Text
  import opened Ranking

  /** The record the scoring closure returns: trimmed text, score and position. */
  datatype Scored = Scored(sentence: string, score: int, index: nat)

  function ScoreOf(x: Scored): int
  {
    x.score
  }

  function IndexOf(x: Scored): int
  {
    x.index
  }

  const SummaryPoints: nat := 3

  /** The fragments of the raw content (no cleaning) longer than 20 characters once trimmed. */
  function Sentences(content: string): seq<string>
  {
    KeepLonger(SplitSentences(content), 20)
  }

  /** The lowercased title split on whitespace, words longer than 3: no stop-word filter, no
      limit, no de-duplication. */
  function TitleWords(title: string): (r: seq<string>)
    ensures forall k :: 0 <= k < |r| ==> |r[k]| > 3
  {
    LongerThan(SplitWhitespace(Lower(title)), 3)
  }

  function LongerThan(words: seq<string>, n: nat): (r: seq<string>)
    ensures forall k :: 0 <= k < |r| ==> |r[k]| > n
    ensures forall w :: w in r <==> w in words && |w| > n
  {
    if words == [] then []
    else (if |words[0]| > n then [words[0]] else []) + LongerThan(words[1..], n)
  }

  /** +3 for the first fragment, +2 for the last, +1 below `n * 0.3`, compared exactly. */
  function PositionBonus(i: nat, n: nat): int
  {
    (if i == 0 then 3 else 0) + (if i == n - 1 then 2 else 0) + (if 10 * i < 3 * n then 1 else 0)
  }

  function LengthBonus(w: nat): int
  {
    if 10 <= w <= 30 then 2 else if 5 <= w <= 50 then 1 else 0
  }

  /** The score of fragment `sentence` at position `i` of `n`. */
  function SentenceScore(sentence: string, i: nat, n: nat, titleWords: seq<string>): int
  {
    PositionBonus(i, n) + LengthBonus(|SplitWhitespace(sentence)|)
    + 2 * Hits(Lower(sentence), titleWords)
  }

  /** The scoring closure with its `titleWords.forEach` loop. */
  method ScoreSentence(sentence: string, i: nat, n: nat, titleWords: seq<string>)
    returns (score: int)
    ensures score == SentenceScore(sentence, i, n, titleWords)
  {
    score := 0;
    var lower := Lower(sentence);
    if i == 0 { score := score + 3; }
    if i == n - 1 { score := score + 2; }
    if 10 * i < 3 * n { score := score + 1; }
    var wordCount := |SplitWhitespace(sentence)|;
    if 10 <= wordCount <= 30 {
      score := score + 2;
    } else if 5 <= wordCount <= 50 {
      score := score + 1;
    }
    ghost var base := score;
    for j := 0 to |titleWords|
      invariant score == base + 2 * Hits(lower, titleWords[..j])
    {
      assert titleWords[..j + 1][..j] == titleWords[..j];
      if Contains(lower, titleWords[j]) {
        score := score + 2;
      }
    }
    assert titleWords[..|titleWords|] == titleWords;
  }

  function ScoredAt(sentences: seq<string>, titleWords: seq<string>, i: nat): Scored
    requires i < |sentences|
  {
    Scored(Trim(sentences[i]), SentenceScore(sentences[i], i, |sentences|, titleWords), i)
  }

  function ScoreEach(sentences: seq<string>, titleWords: seq<string>): (r: seq<Scored>)
    ensures |r| == |sentences|
    ensures forall i :: 0 <= i < |r| ==> r[i] == ScoredAt(sentences, titleWords, i)
  {
    seq(|sentences|, i requires 0 <= i < |sentences| => ScoredAt(sentences, titleWords, i))
  }

  function Texts(top: seq<Scored>): (r: seq<string>)
    ensures |r| == |top| && forall k :: 0 <= k < |r| ==> r[k] == top[k].sentence
  {
    seq(|top|, k requires 0 <= k < |top| => top[k].sentence)
  }

  function Selection(sentences: seq<string>, titleWords: seq<string>): seq<Scored>
  {
    TopInOrder(ScoreEach(sentences, titleWords), SummaryPoints, ScoreOf, IndexOf)
  }

  /** `generateFallbackSummary`. */
  function FallbackSummary(content: string, title: string): seq<string>
  {
    var sentences := Sentences(content);
    if |sentences| <= 3 then NonEmpty(TrimEach(sentences))
    else Texts(Selection(sentences, TitleWords(title)))
  }

  method ScoreAll(sentences: seq<string>, titleWords: seq<string>) returns (scored: seq<Scored>)
    ensures scored == ScoreEach(sentences, titleWords)
  {
    scored := [];
    for i := 0 to |sentences|
      invariant |scored| == i
      invariant forall k :: 0 <= k < i ==> scored[k] == ScoredAt(sentences, titleWords, k)
    {
      var score := ScoreSentence(sentences[i], i, |sentences|, titleWords);
      scored := scored + [Scored(Trim(sentences[i]), score, i)];
      assert scored[i] == ScoredAt(sentences, titleWords, i);
    }
    var all := ScoreEach(sentences, titleWords);
    assert forall k :: 0 <= k < |scored| ==> scored[k] == all[k];
  }

  method GenerateFallbackSummary(content: string, title: string) returns (points: seq<string>)
    ensures points == FallbackSummary(content, title)
  {
    var sentences := Sentences(content);
    if |sentences| <= 3 {
      points := NonEmpty(TrimEach(sentences));
      return;
    }
    var titleWords := TitleWords(title);
    var scored := ScoreAll(sentences, titleWords);
    points := Texts(TopInOrder(scored, SummaryPoints, ScoreOf, IndexOf));
  }

  // ---------------------------------------------------------------------------------------
  // what the summary promises

  /** With at most three fragments: exactly those fragments, trimmed, in order. */
  lemma {:induction false} FewSentences(content: string, title: string)
    requires |Sentences(content)| <= 3
    ensures FallbackSummary(content, title) == TrimEach(Sentences(content))
  {
    NonEmptyKeepsAll(TrimEach(Sentences(content)));
  }

  /** With more than three: exactly three points, each the trimmed text of a fragment, in
      strictly ascending position. */
  lemma {:induction false} SelectionShape(sentences: seq<string>, titleWords: seq<string>)
    requires |sentences| > 3
    ensures var top := Selection(sentences, titleWords);
            |top| == SummaryPoints
            && (forall k :: 0 <= k < |top| ==>
                  top[k].index < |sentences| && top[k].sentence == Trim(sentences[top[k].index])
                  && top[k].score == SentenceScore(sentences[top[k].index], top[k].index,
                                                   |sentences|, titleWords))
            && (forall i, j :: 0 <= i < j < |top| ==> top[i].index < top[j].index)
  {
    var scored := ScoreEach(sentences, titleWords);
    assert AscendingBy(scored, IndexOf);
    TopInOrderLength(scored, SummaryPoints, ScoreOf, IndexOf);
    TopInOrderAscending(scored, SummaryPoints, ScoreOf, IndexOf);
    TopInOrderFrom(scored, SummaryPoints, ScoreOf, IndexOf);
    var top := Selection(sentences, titleWords);
    forall k | 0 <= k < |top|
      ensures top[k].index < |sentences| && top[k].sentence == Trim(sentences[top[k].index])
      ensures top[k].score == SentenceScore(sentences[top[k].index], top[k].index,
                                            |sentences|, titleWords)
    {
      assert top[k] in scored;
    }
    forall i, j | 0 <= i < j < |top| ensures top[i].index < top[j].index {
      assert IndexOf(top[i]) < IndexOf(top[j]);
    }
  }

  /** A fragment left out scores below every chosen one, or ties with a chosen one that comes
      earlier. */
  lemma {:induction false} SelectionIsBest(sentences: seq<string>, titleWords: seq<string>, i: nat)
    requires i < |sentences|
    requires forall k :: 0 <= k < |Selection(sentences, titleWords)| ==>
               Selection(sentences, titleWords)[k].index != i
    ensures var top := Selection(sentences, titleWords);
            var s := SentenceScore(sentences[i], i, |sentences|, titleWords);
            forall k :: 0 <= k < |top| ==>
              top[k].score > s || (top[k].score == s && top[k].index < i)
  {
    var scored := ScoreEach(sentences, titleWords);
    var top := Selection(sentences, titleWords);
    assert AscendingBy(scored, IndexOf);
    TopInOrderBest(scored, SummaryPoints, ScoreOf, IndexOf);
    var y := scored[i];
    assert y in scored;
    assert y !in top;
    forall k | 0 <= k < |top| ensures top[k].score > y.score || (top[k].score == y.score && top[k].index < i) {
      assert top[k] in top;
      assert RankedBefore(top[k], y, ScoreOf, IndexOf);
    }
  }

  /** With more than three fragments the points are the chosen fragments' texts. */
  lemma {:induction false} ManySentences(content: string, title: string)
    requires |Sentences(content)| > 3
    ensures var top := Selection(Sentences(content), TitleWords(title));
            var r := FallbackSummary(content, title);
            |r| == SummaryPoints && forall k :: 0 <= k < |r| ==> r[k] == top[k].sentence
  {
    SelectionShape(Sentences(content), TitleWords(title));
  }

  /** No term of the score is negative, so no fragment scores below 0; a fragment scores at
      most 3 + 2 + 1 + 2 + 2 per title word. */
  lemma {:induction false} ScoreBounds(sentence: string, i: nat, n: nat, titleWords: seq<string>)
    ensures 0 <= SentenceScore(sentence, i, n, titleWords) <= 8 + 2 * |titleWords|
  {
  }

  /** The position bonuses stack: the only fragment gets all three, the first of many gets
      3 + 1, the last of at least two gets 2. */
  lemma {:induction false} PositionBonusCases(n: nat)
    ensures PositionBonus(0, 1) == 6
    ensures n >= 2 ==> PositionBonus(0, n) == 4
    ensures n >= 2 ==> PositionBonus(n - 1, n) == 2
  {
  }

  /** Each title word adds 2 when the lowercased fragment contains it, a word listed twice
      counting twice. */
  lemma {:induction false} TitleWordAdds(sentence: string, i: nat, n: nat, titleWords: seq<string>, w: string)
    ensures SentenceScore(sentence, i, n, titleWords + [w])
            == SentenceScore(sentence, i, n, titleWords) + (if Contains(Lower(sentence), w) then 2 else 0)
  {
    assert (titleWords + [w])[..|titleWords|] == titleWords;
  }
}
