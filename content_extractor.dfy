/** The extension's content extractor: the page title from a cascade of sources, the main text
    from a cascade of three strategies (semantic selectors, a density score, the whole body),
    the headings, the word count, and the gate that decides whether a page is worth
    summarising.

    The page is a `Document` value. `cloneNode(true)` followed by `el.remove()` on the clone is
    `Prune` on that value, so the page itself is never changed, which is what the clone is for
    in the source. */
module ContentExtractor {
  import opened Options
  import opened Text
  import opened Dom

  /** The page: the `<head>` and `<body>` elements and `document.title`. */
  datatype Document = Document(head: Node, body: Node, title: string)

  /** What `extractContent` returns; `url` and `timestamp` come from `window.location.href` and
      `Date.now()`, which are passed in. */
  datatype ContentExtraction = ContentExtraction(
    title: string,
    content: string,
    wordCount: nat,
    mainContent: string,
    headings: seq<string>,
    url: string,
    timestamp: int)

  const MinContentLength: nat := 100
  const MinWordCount: nat := 50
  const LongFormWordCount: nat := 500
  const MinBodyLength: nat := 200
  const MaxHeadingLength: nat := 200
  const UntitledPage: string := "Untitled Page"

  /** The selectors tried in turn for the main content. */
  const ContentSelectors: seq<Selector> := [
    Tag("article"), Tag("main"), AttrEquals("role", "main"),
    Class("post-content"), Class("entry-content"), Class("article-content"), Class("content"),
    Id("content"), Class("article-body"), Class("post-body"), Class("story-body"),
    Class("article-wrap"), Class("post-wrap"),
    Class("notion-page-content"), Class("markdown-body"), Class("Post-body"),
    Class("postArticle-content"), Class("wiki-content"), Class("reader-content"),
    Class("contenido"), Class("contenu"), Class("inhalt"), Class("conteudo"),
    Class("\U{30B3}\U{30F3}\U{30C6}\U{30F3}\U{30C4}"), Class("\U{5185}\U{5BB9}")]

  /** The elements removed from cleaned content as noise. */
  const NoiseSelectors: seq<Selector> := [
    Tag("nav"), Tag("header"), Tag("footer"), Tag("aside"),
    Class("sidebar"), Class("navigation"), Class("menu"), Class("breadcrumb"), Class("breadcrumbs"),
    Class("ads"), Class("advertisement"), Class("ad-container"), Class("ad-banner"),
    Class("sponsored"), Class("promo"), Class("promotion"),
    AttrContains("class", "ad-"), AttrContains("id", "ad-"),
    AttrContains("class", "ads-"), AttrContains("id", "ads-"),
    Class("social-share"), Class("social-sharing"), Class("share-buttons"), Class("comments"),
    Class("comment-section"), Class("newsletter-signup"), Class("subscribe"), Class("newsletter"),
    Class("popup"), Class("modal"), Class("overlay"), Class("tooltip"), Class("dropdown"),
    Class("cookie-banner"), Class("cookie-notice"),
    Class("related-posts"), Class("related-articles"), Class("recommended"), Class("suggestions"),
    Class("more-stories"),
    Class("twitter-tweet"), Class("instagram-media"), Class("fb-post"), Class("youtube-player"),
    Class("ad-slot"), Class("adsystem"),
    Class("publicidad"), Class("publicit\U{00E9}"), Class("werbung"), Class("\U{5E83}\U{544A}"),
    Class("\U{5E7F}\U{544A}")]

  /** `"script, style, noscript"`. */
  const StripSelectors: seq<Selector> := [Tag("script"), Tag("style"), Tag("noscript")]

  /** `"div, section, article"`: the density candidates. */
  const CandidateSelectors: seq<Selector> := [Tag("div"), Tag("section"), Tag("article")]

  const HeadingSelectors: seq<Selector> := [
    Tag("h1"), Tag("h2"), Tag("h3"), Tag("h4"), Tag("h5"), Tag("h6")]

  /** Every element of the page, in document order. */
  function AllElements(d: Document): seq<Node>
  {
    Elements(d.head) + Elements(d.body)
  }

  /** `document.querySelector(sels)`. */
  function QuerySelector(d: Document, sels: seq<Selector>): Option<Node>
  {
    SelectFirst(AllElements(d), sels)
  }

  // ---------------------------------------------------------------------------------------
  // cleanContent

  /** What `cleanContent(e)` returns: the text of `e` with scripts, styles and noise removed,
      whitespace runs collapsed to one space and the ends trimmed. */
  function CleanedText(e: Node): string
  {
    NormalizeSpace(TextContent(Prune(e, StripSelectors + NoiseSelectors)))
  }

  /** `/\n\s*\n/` matches somewhere in `s`. */
  ghost predicate HasBlankLine(s: string)
  {
    exists i, j :: 0 <= i < j < |s| && s[i] == '\n' && s[j] == '\n'
  }

  /** After `.replace(/\s+/g, " ")` no line feed is left, so `.replace(/\n\s*\n/g, "\n")`
      finds nothing to replace and returns its input. */
  lemma {:induction false} SecondReplaceFindsNothing(s: string)
    ensures !HasBlankLine(CollapseSpaces(s))
  {
    NormalizeLeavesNoLineFeed(s);
  }

  /** `NOISE_SELECTORS.forEach((selector) => { root.querySelectorAll(selector).forEach((el) =>
      el.remove()); })` on a clone `root`. */
  method RemoveEach(root: Node, sels: seq<Selector>) returns (r: Node)
    ensures r == Prune(root, sels)
  {
    r := root;
    PruneNothing(root);
    assert sels[..0] == [];
    for i := 0 to |sels|
      invariant r == Prune(root, sels[..i])
    {
      PruneCompose(root, sels[..i], [sels[i]]);
      assert sels[..i] + [sels[i]] == sels[..i + 1];
      r := Prune(r, [sels[i]]);
    }
    assert sels[..|sels|] == sels;
  }

  method CleanContent(e: Node) returns (r: string)
    ensures r == CleanedText(e)
  {
    var clone := e;
    clone := Prune(clone, StripSelectors);
    clone := RemoveEach(clone, NoiseSelectors);
    PruneCompose(e, StripSelectors, NoiseSelectors);
    var text := TextContent(clone);
    var collapsed := CollapseSpaces(text);
    SecondReplaceFindsNothing(text);
    r := Trim(collapsed);
  }

  /** Cleaned text is normalised, keeps every non-whitespace character of the pruned text in
      order, and no script, style, noscript or noise element survives below the element. */
  lemma {:induction false} CleanedTextSpec(e: Node)
    ensures Normalized(CleanedText(e))
    ensures var pruned := Prune(e, StripSelectors + NoiseSelectors);
            RemoveAll(CleanedText(e), IsSpace) == RemoveAll(TextContent(pruned), IsSpace)
    ensures forall x :: x in Descendants(Prune(e, StripSelectors + NoiseSelectors)) ==>
              !MatchesAny(x, StripSelectors) && !MatchesAny(x, NoiseSelectors)
  {
    var pruned := Prune(e, StripSelectors + NoiseSelectors);
    NormalizeSpaceShape(TextContent(pruned));
    PruneRemoves(e, StripSelectors + NoiseSelectors);
    forall x | x in Descendants(pruned)
      ensures !MatchesAny(x, StripSelectors) && !MatchesAny(x, NoiseSelectors)
    {
      MatchesAnyAppend(x, StripSelectors, NoiseSelectors);
    }
  }

  // ---------------------------------------------------------------------------------------
  // strategy 1: semantic selectors

  /** The cleaned text of the first element a content selector finds, if it finds one. */
  function Candidate(d: Document, s: Selector): Option<string>
  {
    match QuerySelector(d, [s])
    case None => None
    case Some(e) => Some(CleanedText(e))
  }

  function CandidateTexts(d: Document, sels: seq<Selector>): (r: seq<Option<string>>)
    ensures |r| == |sels| && forall k :: 0 <= k < |r| ==> r[k] == Candidate(d, sels[k])
  {
    seq(|sels|, k requires 0 <= k < |sels| => Candidate(d, sels[k]))
  }

  /** A candidate is taken when it is longer than 100 characters. */
  predicate Long(c: Option<string>)
  {
    c.Some? && |c.value| > MinContentLength
  }

  /** The first candidate taken, or `""` when none is. */
  function FirstLong(cs: seq<Option<string>>): string
  {
    if cs == [] then ""
    else if Long(cs[0]) then cs[0].value
    else FirstLong(cs[1..])
  }

  function SemanticText(d: Document): string
  {
    FirstLong(CandidateTexts(d, ContentSelectors))
  }

  /** `trySemanticExtraction`. */
  method TrySemanticExtraction(d: Document) returns (r: string)
    ensures r == SemanticText(d)
  {
    r := FirstLongCandidate(d, ContentSelectors);
  }

  /** The loop of `trySemanticExtraction` over a list of selectors, with its early `return`. */
  method FirstLongCandidate(d: Document, sels: seq<Selector>) returns (r: string)
    ensures r == FirstLong(CandidateTexts(d, sels))
  {
    ghost var candidates := CandidateTexts(d, sels);
    for i := 0 to |sels|
      invariant FirstLong(candidates[i..]) == FirstLong(candidates)
    {
      assert candidates[i..][1..] == candidates[i + 1..];
      assert candidates[i..][0] == Candidate(d, sels[i]);
      var element := QuerySelector(d, [sels[i]]);
      if element.Some? {
        var content := CleanContent(element.value);
        if |content| > MinContentLength {
          return content;
        }
      }
    }
    r := "";
  }

  /** Candidate `k` is taken and none before it is. */
  ghost predicate FirstLongAt(cs: seq<Option<string>>, k: int)
  {
    0 <= k < |cs| && Long(cs[k]) && forall j :: 0 <= j < k ==> !Long(cs[j])
  }

  /** The result is `""` exactly when no candidate is longer than 100 characters, and otherwise
      the first candidate that is. */
  lemma {:induction false} FirstLongSpec(cs: seq<Option<string>>)
    ensures FirstLong(cs) == "" <==> forall k :: 0 <= k < |cs| ==> !Long(cs[k])
    ensures FirstLong(cs) != "" ==> exists k :: FirstLongAt(cs, k) && cs[k] == Some(FirstLong(cs))
  {
    if cs == [] {
    } else if Long(cs[0]) {
      assert FirstLongAt(cs, 0);
    } else {
      var rest := cs[1..];
      FirstLongSpec(rest);
      assert forall k :: 1 <= k < |cs| ==> cs[k] == rest[k - 1];
      if FirstLong(cs) != "" {
        var k :| FirstLongAt(rest, k) && rest[k] == Some(FirstLong(rest));
        assert cs[k + 1] == rest[k];
        assert FirstLongAt(cs, k + 1);
      }
    }
  }

  // ---------------------------------------------------------------------------------------
  // strategy 2: density score

  function RMin(a: real, b: real): real
  {
    if a <= b then a else b
  }

  /** The score before `Math.max(0, …)`: three per paragraph below, one per hundred characters
      of text up to ten, ten off for each of the classes `sidebar`, `footer` and `header`, and
      fifteen off when the id contains `ad`. Lengths are exact rationals, not doubles. */
  function RawScore(e: Node): real
  {
    var paragraphs := |Select(Descendants(e), [Tag("p")])|;
    var text := TextContent(e);
    3.0 * paragraphs as real
    + RMin(|text| as real / 100.0, 10.0)
    - (if "sidebar" in ClassList(e) then 10.0 else 0.0)
    - (if "footer" in ClassList(e) then 10.0 else 0.0)
    - (if "header" in ClassList(e) then 10.0 else 0.0)
    - (if Contains(IdOf(e), "ad") then 15.0 else 0.0)
  }

  /** `scoreElement`: the raw score, floored at 0. */
  function ElementScore(e: Node): (r: real)
    ensures r >= 0.0 && r >= RawScore(e)
    ensures r == 0.0 || r == RawScore(e)
  {
    if RawScore(e) > 0.0 then RawScore(e) else 0.0
  }

  /** `scoreElement`: the score built up one indicator at a time. */
  method ScoreElement(e: Node) returns (score: real)
    ensures score == ElementScore(e)
  {
    score := 0.0;
    var paragraphs := Select(Descendants(e), [Tag("p")]);
    var text := TextContent(e);
    var classes := ClassList(e);
    score := score + 3.0 * |paragraphs| as real;
    score := score + RMin(|text| as real / 100.0, 10.0);
    ghost var base := score;
    if "sidebar" in classes { score := score - 10.0; }
    if "footer" in classes { score := score - 10.0; }
    if "header" in classes { score := score - 10.0; }
    if Contains(IdOf(e), "ad") { score := score - 15.0; }
    assert score == base
      - (if "sidebar" in classes then 10.0 else 0.0)
      - (if "footer" in classes then 10.0 else 0.0)
      - (if "header" in classes then 10.0 else 0.0)
      - (if Contains(IdOf(e), "ad") then 15.0 else 0.0);
    assert score == RawScore(e);
    if score < 0.0 { score := 0.0; }
  }

  /** The score is at most three per paragraph plus ten, and an element with no paragraph whose
      id contains `ad` scores 0 however much text it has. */
  lemma {:induction false} ElementScoreBounds(e: Node)
    ensures ElementScore(e) <= 3.0 * |Select(Descendants(e), [Tag("p")])| as real + 10.0
    ensures |Select(Descendants(e), [Tag("p")])| == 0 && Contains(IdOf(e), "ad") ==>
              ElementScore(e) == 0.0
  {
  }

  /** The candidate the loop keeps under `score`: the first with the largest positive score.
      Computed over the prefix, as the loop goes. */
  function Best(cs: seq<Node>, score: Node -> real): Option<Node>
  {
    if cs == [] then None
    else
      var b := Best(cs[..|cs| - 1], score);
      if score(cs[|cs| - 1]) > BestScore(b, score) then Some(cs[|cs| - 1]) else b
  }

  /** `bestScore`: 0 before any candidate has been kept. */
  function BestScore(b: Option<Node>, score: Node -> real): real
  {
    match b
    case None => 0.0
    case Some(e) => score(e)
  }

  function Candidates(d: Document): seq<Node>
  {
    Select(AllElements(d), CandidateSelectors)
  }

  function ReadabilityText(d: Document): string
  {
    match Best(Candidates(d), ElementScore)
    case None => ""
    case Some(e) => CleanedText(e)
  }

  /** `tryReadabilityExtraction`: the best candidate, cleaned, or nothing. */
  method TryReadabilityExtraction(d: Document) returns (r: string)
    ensures r == ReadabilityText(d)
  {
    var candidates := Candidates(d);
    var bestCandidate := BestCandidate(candidates);
    if bestCandidate.Some? {
      r := CleanContent(bestCandidate.value);
    } else {
      r := "";
    }
  }

  /** The loop of `tryReadabilityExtraction` keeping `bestScore` and `bestCandidate`. */
  method BestCandidate(candidates: seq<Node>) returns (bestCandidate: Option<Node>)
    ensures bestCandidate == Best(candidates, ElementScore)
  {
    bestCandidate := None;
    var bestScore: real := 0.0;
    for i := 0 to |candidates|
      invariant bestCandidate == Best(candidates[..i], ElementScore)
      invariant bestScore == BestScore(bestCandidate, ElementScore)
    {
      assert candidates[..i + 1] == candidates[..i] + [candidates[i]];
      BestStep(candidates[..i], candidates[i], ElementScore);
      var score := ScoreElement(candidates[i]);
      if score > bestScore {
        bestScore := score;
        bestCandidate := Some(candidates[i]);
      }
    }
    assert candidates[..|candidates|] == candidates;
  }

  /** One more candidate: it is kept when it beats the score kept so far. */
  lemma {:induction false} BestStep(cs: seq<Node>, x: Node, score: Node -> real)
    ensures var b := Best(cs, score);
            Best(cs + [x], score) == if score(x) > BestScore(b, score) then Some(x) else b
  {
    assert (cs + [x])[..|cs|] == cs;
  }

  /** A kept candidate has a positive score. */
  lemma {:induction false} BestPositive(cs: seq<Node>, score: Node -> real)
    requires Best(cs, score).Some?
    ensures BestScore(Best(cs, score), score) > 0.0
  {
    var init := cs[..|cs| - 1];
    if Best(init, score).Some? {
      BestPositive(init, score);
    }
  }

  /** No candidate is kept exactly when no candidate scores above 0. */
  lemma {:induction false} BestNone(cs: seq<Node>, score: Node -> real)
    ensures Best(cs, score).None? <==> forall j :: 0 <= j < |cs| ==> score(cs[j]) <= 0.0
  {
    if cs != [] {
      var init := cs[..|cs| - 1];
      BestNone(init, score);
      assert forall j :: 0 <= j < |init| ==> init[j] == cs[j];
      if Best(init, score).Some? {
        BestPositive(init, score);
      }
    }
  }

  /** Candidate `i` scores at least as much as every candidate and strictly more than every
      one before it. */
  ghost predicate FirstMaxAt(cs: seq<Node>, score: Node -> real, i: int)
  {
    && 0 <= i < |cs|
    && (forall j :: 0 <= j < |cs| ==> score(cs[j]) <= score(cs[i]))
    && (forall j :: 0 <= j < i ==> score(cs[j]) < score(cs[i]))
  }

  /** The kept candidate is one of the candidates, no candidate scores more, and every candidate
      before it scores strictly less: the first strict maximum wins. */
  lemma {:induction false} BestIsFirstMax(cs: seq<Node>, score: Node -> real)
    requires Best(cs, score).Some?
    ensures exists i :: FirstMaxAt(cs, score, i) && cs[i] == Best(cs, score).value
  {
    var init := cs[..|cs| - 1];
    var last := cs[|cs| - 1];
    var b := Best(init, score);
    assert forall j :: 0 <= j < |init| ==> init[j] == cs[j];
    if score(last) > BestScore(b, score) {
      if b.Some? {
        BestIsFirstMax(init, score);
        var i :| FirstMaxAt(init, score, i) && init[i] == b.value;
      } else {
        BestNone(init, score);
      }
      assert FirstMaxAt(cs, score, |cs| - 1);
    } else {
      BestIsFirstMax(init, score);
      var i :| FirstMaxAt(init, score, i) && init[i] == b.value;
      assert FirstMaxAt(cs, score, i);
    }
  }

  /** The density strategy finds nothing exactly when every candidate scores 0; otherwise it
      cleans a candidate with a positive score that is the first of the highest scores. */
  lemma {:induction false} ReadabilitySpec(d: Document)
    ensures Best(Candidates(d), ElementScore).None? <==>
              forall j :: 0 <= j < |Candidates(d)| ==> ElementScore(Candidates(d)[j]) == 0.0
    ensures Best(Candidates(d), ElementScore).Some? ==>
              ElementScore(Best(Candidates(d), ElementScore).value) > 0.0
              && exists i :: FirstMaxAt(Candidates(d), ElementScore, i)
                   && Candidates(d)[i] == Best(Candidates(d), ElementScore).value
  {
    var cs := Candidates(d);
    BestNone(cs, ElementScore);
    if Best(cs, ElementScore).Some? {
      BestPositive(cs, ElementScore);
      BestIsFirstMax(cs, ElementScore);
    }
  }

  // ---------------------------------------------------------------------------------------
  // strategy 3 and the cascade

  function FallbackText(d: Document): string
  {
    CleanedText(Prune(d.body, NoiseSelectors))
  }

  /** `fallbackExtraction`: noise removed from a clone of the body, then `cleanContent`. */
  method FallbackExtraction(d: Document) returns (r: string)
    ensures r == FallbackText(d)
  {
    var body := d.body;
    body := RemoveEach(body, NoiseSelectors);
    r := CleanContent(body);
  }

  /** The fallback's own noise pass is subsumed by the one in `cleanContent`: the fallback text
      is the cleaned text of the body. */
  lemma {:induction false} FallbackIsCleanedBody(d: Document)
    ensures FallbackText(d) == CleanedText(d.body)
  {
    var a, b := NoiseSelectors, StripSelectors + NoiseSelectors;
    PruneCompose(d.body, a, b);
    forall x: Node ensures MatchesAny(x, a + b) <==> MatchesAny(x, b) {
      MatchesAnyAppend(x, a, b);
      MatchesAnyAppend(x, StripSelectors, NoiseSelectors);
    }
    PruneSame(d.body, a + b, b);
  }

  /** `extractMainContent`. */
  function MainContent(d: Document): string
  {
    var semantic := SemanticText(d);
    if |semantic| > MinContentLength then semantic
    else
      var readability := ReadabilityText(d);
      if |readability| > MinContentLength then readability else FallbackText(d)
  }

  method ExtractMainContent(d: Document) returns (r: string)
    ensures r == MainContent(d)
  {
    var mainContent := TrySemanticExtraction(d);
    if |mainContent| > MinContentLength {
      return mainContent;
    }
    var readabilityContent := TryReadabilityExtraction(d);
    if |readabilityContent| > MinContentLength {
      return readabilityContent;
    }
    r := FallbackExtraction(d);
  }

  /** The main content is longer than 100 characters or is the cleaned body, and it is always
      normalised cleaned text. */
  lemma {:induction false} MainContentSpec(d: Document)
    ensures |MainContent(d)| > MinContentLength || MainContent(d) == CleanedText(d.body)
    ensures Normalized(MainContent(d))
  {
    FallbackIsCleanedBody(d);
    CleanedNormalized(d.body);
    SemanticNormalized(d);
    ReadabilityNormalized(d);
  }

  lemma {:induction false} CleanedNormalized(e: Node)
    ensures Normalized(CleanedText(e))
  {
    NormalizeSpaceShape(TextContent(Prune(e, StripSelectors + NoiseSelectors)));
  }

  lemma {:induction false} SemanticNormalized(d: Document)
    ensures Normalized(SemanticText(d))
  {
    var semantic := SemanticText(d);
    if semantic != "" {
      var cs := CandidateTexts(d, ContentSelectors);
      FirstLongSpec(cs);
      var k :| FirstLongAt(cs, k) && cs[k] == Some(semantic);
      CleanedNormalized(QuerySelector(d, [ContentSelectors[k]]).value);
    }
  }

  lemma {:induction false} ReadabilityNormalized(d: Document)
    ensures Normalized(ReadabilityText(d))
  {
    var best := Best(Candidates(d), ElementScore);
    if best.Some? {
      CleanedNormalized(best.value);
    }
  }

  // ---------------------------------------------------------------------------------------
  // title

  /** `split(sep)[0]`: what comes before the first occurrence of `sep`. */
  function BeforeFirst(s: string, sep: string): (r: string)
    requires |sep| > 0
    ensures r <= s
  {
    if s == [] || StartsWith(s, sep) then [] else [s[0]] + BeforeFirst(s[1..], sep)
  }

  /** The last-resort source: the title before ` - `, else before ` | `, else before ` :: `,
      else all of it; `||` skips empty strings. */
  function LastResort(title: string): string
  {
    var a := BeforeFirst(title, " - ");
    if a != "" then a
    else
      var b := BeforeFirst(title, " | ");
      if b != "" then b
      else
        var c := BeforeFirst(title, " :: ");
        if c != "" then c else title
  }

  function TextOfFirst(d: Document, sels: seq<Selector>): Option<string>
  {
    match QuerySelector(d, sels)
    case None => None
    case Some(e) => Some(TextContent(e))
  }

  function ContentAttributeOfFirst(d: Document, sels: seq<Selector>): Option<string>
  {
    match QuerySelector(d, sels)
    case None => None
    case Some(e) => Attribute(e, "content")
  }

  /** The thirteen title sources in order; `None` is `null` or `undefined`. */
  function TitleSources(d: Document): (r: seq<Option<string>>)
    ensures |r| == 13
  {
    [ TextOfFirst(d, [Tag("h1")]),
      ContentAttributeOfFirst(d, [AttrEquals("property", "og:title")]),
      ContentAttributeOfFirst(d, [AttrEquals("name", "twitter:title")]),
      ContentAttributeOfFirst(d, [AttrEquals("property", "article:title")]),
      TextOfFirst(d, [Class("post-title"), Class("article-title"), Class("entry-title")]),
      TextOfFirst(d, [Class("title"), Class("headline"), Class("page-title")]),
      TextOfFirst(d, [Class("story-title"), Class("content-title")]),
      TextOfFirst(d, [Class("notion-page-title")]),
      TextOfFirst(d, [Class("Post-title")]),
      TextOfFirst(d, [Class("js-title-field")]),
      TextOfFirst(d, [Id("firstHeading")]),
      Some(d.title),
      Some(LastResort(d.title)) ]
  }

  /** A source gives a title when it has a value that is not blank. */
  predicate Usable(o: Option<string>)
  {
    o.Some? && |Trim(o.value)| > 0
  }

  /** The trimmed value of the first usable source. */
  function FirstTitle(sources: seq<Option<string>>): Option<string>
  {
    if sources == [] then None
    else if Usable(sources[0]) then Some(Trim(sources[0].value))
    else FirstTitle(sources[1..])
  }

  function Title(d: Document): string
  {
    FirstTitle(TitleSources(d)).GetOr(UntitledPage)
  }

  /** `extractTitle`: the loop over the sources with its early `return`. */
  method ExtractTitle(d: Document) returns (title: string)
    ensures title == Title(d)
  {
    var sources := TitleSources(d);
    for i := 0 to |sources|
      invariant FirstTitle(sources[i..]) == FirstTitle(sources)
    {
      assert sources[i..][1..] == sources[i + 1..];
      if sources[i].Some? {
        var t := Trim(sources[i].value);
        if |t| > 0 {
          return t;
        }
      }
    }
    title := UntitledPage;
  }

  /** Source `k` is usable and no source before it is. */
  ghost predicate FirstUsableAt(sources: seq<Option<string>>, k: int)
  {
    0 <= k < |sources| && Usable(sources[k]) && forall j :: 0 <= j < k ==> !Usable(sources[j])
  }

  /** The title is the trimmed value of the first usable source, or "Untitled Page" when there
      is none. */
  lemma {:induction false} FirstTitleSpec(sources: seq<Option<string>>)
    ensures FirstTitle(sources).None? <==> forall k :: 0 <= k < |sources| ==> !Usable(sources[k])
    ensures FirstTitle(sources).Some? ==>
              exists k :: FirstUsableAt(sources, k)
                && FirstTitle(sources).value == Trim(sources[k].value)
  {
    if sources == [] {
    } else if Usable(sources[0]) {
      assert FirstUsableAt(sources, 0);
    } else {
      var rest := sources[1..];
      FirstTitleSpec(rest);
      assert forall k :: 1 <= k < |sources| ==> sources[k] == rest[k - 1];
      if FirstTitle(sources).Some? {
        var k :| FirstUsableAt(rest, k) && FirstTitle(rest).value == Trim(rest[k].value);
        assert sources[k + 1] == rest[k];
        forall j | 0 <= j < k + 1 ensures !Usable(sources[j]) {
          if j > 0 {
            assert sources[j] == rest[j - 1];
          }
        }
        assert FirstUsableAt(sources, k + 1);
      }
    }
  }

  lemma {:induction false} TitleNonEmpty(d: Document)
    ensures |Title(d)| > 0 && Trim(Title(d)) == Title(d)
  {
    FirstTitleTrimmed(TitleSources(d));
    UntitledTrimmed();
  }

  /** A title found is non-empty and already trimmed. */
  lemma {:induction false} FirstTitleTrimmed(sources: seq<Option<string>>)
    ensures FirstTitle(sources).Some? ==>
              |FirstTitle(sources).value| > 0 && Trim(FirstTitle(sources).value) == FirstTitle(sources).value
  {
    FirstTitleSpec(sources);
    if FirstTitle(sources).Some? {
      var k :| FirstUsableAt(sources, k) && FirstTitle(sources).value == Trim(sources[k].value);
      TrimIdempotent(sources[k].value);
    }
  }

  lemma UntitledTrimmed()
    ensures Trim(UntitledPage) == UntitledPage
  {
    assert !IsSpace(UntitledPage[0]) && !IsSpace(UntitledPage[|UntitledPage| - 1]);
    assert TrimStart(UntitledPage) == UntitledPage;
  }

  /** A prefix of a blank string is blank. */
  lemma {:induction false} BlankPrefix(p: string, s: string)
    requires p <= s && Trim(s) == []
    ensures Trim(p) == []
  {
    assert forall i :: 0 <= i < |p| ==> p[i] == s[i];
  }

  /** The last-resort source never supplies the title: it is consulted only when
      `document.title` is blank, and everything it can return is then a blank prefix of
      `document.title`. */
  lemma {:induction false} LastResortNeverUsed(d: Document)
    ensures Title(d) == FirstTitle(TitleSources(d)[..12]).GetOr(UntitledPage)
  {
    var sources := TitleSources(d);
    FirstTitleSpec(sources);
    FirstTitleSpec(sources[..12]);
    if Trim(d.title) == [] {
      BlankPrefix(BeforeFirst(d.title, " - "), d.title);
      BlankPrefix(BeforeFirst(d.title, " | "), d.title);
      BlankPrefix(BeforeFirst(d.title, " :: "), d.title);
      assert !Usable(sources[12]);
    } else {
      assert Usable(sources[11]);
    }
    forall k | 0 <= k < 12 ensures sources[..12][k] == sources[k] { }
  }

  // ---------------------------------------------------------------------------------------
  // headings, word count, extractContent

  /** The trimmed text of each heading element. */
  function TrimmedTexts(hs: seq<Node>): (r: seq<string>)
    ensures |r| == |hs| && forall k :: 0 <= k < |r| ==> r[k] == Trim(TextContent(hs[k]))
  {
    seq(|hs|, k requires 0 <= k < |hs| => Trim(TextContent(hs[k])))
  }

  /** A heading text is kept when it is 1 to 199 characters long. */
  predicate KeptHeading(t: string)
  {
    0 < |t| < MaxHeadingLength
  }

  /** The kept texts, in order. Computed over the prefix, as the loop goes. */
  function KeepHeadings(ts: seq<string>): seq<string>
  {
    if ts == [] then []
    else
      var init := KeepHeadings(ts[..|ts| - 1]);
      if KeptHeading(ts[|ts| - 1]) then init + [ts[|ts| - 1]] else init
  }

  function Headings(d: Document): seq<string>
  {
    KeepHeadings(TrimmedTexts(Select(AllElements(d), HeadingSelectors)))
  }

  /** `extractHeadings`. */
  method ExtractHeadings(d: Document) returns (headings: seq<string>)
    ensures headings == Headings(d)
  {
    var headingElements := Select(AllElements(d), HeadingSelectors);
    headings := KeepHeadingTexts(headingElements);
  }

  /** The `forEach` of `extractHeadings`, pushing each short enough trimmed text. */
  method KeepHeadingTexts(hs: seq<Node>) returns (headings: seq<string>)
    ensures headings == KeepHeadings(TrimmedTexts(hs))
  {
    headings := [];
    ghost var texts := TrimmedTexts(hs);
    for i := 0 to |hs|
      invariant headings == KeepHeadings(texts[..i])
    {
      assert texts[..i + 1][..i] == texts[..i];
      var text := Trim(TextContent(hs[i]));
      assert texts[..i + 1][i] == text;
      if 0 < |text| < MaxHeadingLength {
        headings := headings + [text];
      }
    }
    assert texts[..|hs|] == texts;
  }

  /** A text is kept exactly when it is one of the texts and has an acceptable length. */
  lemma {:induction false} KeepHeadingsSpec(ts: seq<string>)
    ensures forall t :: t in KeepHeadings(ts) <==> t in ts && KeptHeading(t)
  {
    if ts != [] {
      var init := ts[..|ts| - 1];
      KeepHeadingsSpec(init);
      assert ts == init + [ts[|ts| - 1]];
    }
  }

  /** Every heading is trimmed and 1 to 199 characters long, and every heading element whose
      trimmed text has such a length contributes it. */
  lemma {:induction false} HeadingsSpec(d: Document)
    ensures forall t :: t in Headings(d) ==> KeptHeading(t) && Trim(t) == t
    ensures forall h ::
              (h in Select(AllElements(d), HeadingSelectors) && KeptHeading(Trim(TextContent(h))))
              ==> Trim(TextContent(h)) in Headings(d)
  {
    var hs := Select(AllElements(d), HeadingSelectors);
    var ts := TrimmedTexts(hs);
    KeepHeadingsSpec(ts);
    forall t | t in Headings(d) ensures KeptHeading(t) && Trim(t) == t {
      var k :| 0 <= k < |ts| && ts[k] == t;
      TrimIdempotent(TextContent(hs[k]));
    }
    forall h | h in hs && KeptHeading(Trim(TextContent(h)))
      ensures Trim(TextContent(h)) in Headings(d)
    {
      var k :| 0 <= k < |hs| && hs[k] == h;
      assert ts[k] == Trim(TextContent(h));
    }
  }

  function Extraction(d: Document, url: string, now: int): (r: ContentExtraction)
  {
    var mainContent := MainContent(d);
    ContentExtraction(Title(d), mainContent, CountWords(mainContent), mainContent, Headings(d),
                      url, now)
  }

  /** `extractContent`. */
  method ExtractContent(d: Document, url: string, now: int) returns (r: ContentExtraction)
    ensures r == Extraction(d, url, now)
  {
    var title := ExtractTitle(d);
    var mainContent := ExtractMainContent(d);
    var headings := ExtractHeadings(d);
    var wordCount := CountWords(mainContent);
    r := ContentExtraction(title, mainContent, wordCount, mainContent, headings, url, now);
  }

  /** The word count is the number of maximal non-whitespace runs of the content, the content is
      the main content, and the title is never empty. */
  lemma {:induction false} ExtractionSpec(d: Document, url: string, now: int)
    ensures var r := Extraction(d, url, now);
            r.wordCount == Runs(r.content) && r.content == r.mainContent && |r.title| > 0
  {
    CountWordsIsRuns(MainContent(d));
    TitleNonEmpty(d);
  }

  method HasSignificantContent(d: Document, url: string, now: int) returns (b: bool)
    ensures b <==> Runs(MainContent(d)) >= MinWordCount
  {
    var extraction := ExtractContent(d, url, now);
    ExtractionSpec(d, url, now);
    b := extraction.wordCount >= MinWordCount;
  }

  method IsLongFormContent(d: Document, url: string, now: int) returns (b: bool)
    ensures b <==> Runs(MainContent(d)) >= LongFormWordCount
  {
    var extraction := ExtractContent(d, url, now);
    ExtractionSpec(d, url, now);
    b := extraction.wordCount >= LongFormWordCount;
  }

  // ---------------------------------------------------------------------------------------
  // shouldProcessPage

  const DownloadExtensions: seq<string> := [
    "pdf", "doc", "docx", "xls", "xlsx", "ppt", "pptx", "zip", "rar", "exe", "dmg"]

  const SearchPatterns: seq<string> := ["/search", "/results", "?q=", "?search="]

  const AdminSections: seq<string> := [
    "admin", "login", "register", "checkout", "cart", "account", "settings", "dashboard"]

  /** `/\.(pdf|…|dmg)(\?|$)/i` matches at the dot at `i` with extension `ext`. Lowercasing the
      URL first is the `i` flag, since every pattern character is ASCII. */
  predicate ExtensionAt(lower: string, i: nat, ext: string)
  {
    i < |lower| && lower[i] == '.' && StartsWith(lower[i + 1..], ext)
    && (i + 1 + |ext| == |lower| || lower[i + 1 + |ext|] == '?')
  }

  predicate IsDownloadUrl(url: string)
  {
    exists i: nat, k: nat | i < |url| && k < |DownloadExtensions| ::
      ExtensionAt(Lower(url), i, DownloadExtensions[k])
  }

  predicate IsSearchUrl(url: string)
  {
    exists k: nat | k < |SearchPatterns| :: Contains(Lower(url), SearchPatterns[k])
  }

  /** `/\/(admin|…|dashboard)\//i`. */
  predicate IsAdminUrl(url: string)
  {
    exists k: nat | k < |AdminSections| :: Contains(Lower(url), "/" + AdminSections[k] + "/")
  }

  /** `shouldProcessPage`, with `window.location.href` passed in. */
  function ShouldProcessPage(url: string, d: Document): bool
  {
    if IsDownloadUrl(url) then false
    else if IsSearchUrl(url) then false
    else if IsAdminUrl(url) then false
    else if |TextContent(d.body)| < MinBodyLength then false
    else true
  }

  lemma {:induction false} LowerAppend(a: string, b: string)
    ensures Lower(a + b) == Lower(a) + Lower(b)
  {
  }

  /** A URL whose path ends in one of the extensions, in any letter case, alone or followed by
      a query, is never processed. */
  lemma {:induction false} DownloadNotProcessed(base: string, ext: string, query: string, d: Document)
    requires Lower(ext) in DownloadExtensions
    requires query == "" || query[0] == '?'
    ensures !ShouldProcessPage(base + "." + ext + query, d)
  {
    var url := base + "." + ext + query;
    var k :| 0 <= k < |DownloadExtensions| && DownloadExtensions[k] == Lower(ext);
    LowerAppend(base + "." + ext, query);
    LowerAppend(base + ".", ext);
    LowerAppend(base, ".");
    var lower := Lower(url);
    assert lower == Lower(base) + "." + Lower(ext) + Lower(query);
    assert Lower(query) == "" || Lower(query)[0] == '?';
    ExtensionAtJoin(Lower(base), Lower(ext), Lower(query));
    assert ExtensionAt(lower, |base|, DownloadExtensions[k]);
  }

  /** The dot between a prefix and an extension, followed by nothing or a query, is where the
      extension pattern matches. */
  lemma {:induction false} ExtensionAtJoin(pre: string, ext: string, query: string)
    requires query == "" || query[0] == '?'
    ensures ExtensionAt(pre + "." + ext + query, |pre|, ext)
  {
    var s := pre + "." + ext + query;
    assert s[|pre|] == '.';
    assert s[|pre| + 1..] == ext + query;
    assert (ext + query)[..|ext|] == ext;
    if query != "" {
      assert s[|pre| + 1 + |ext|] == query[0];
    }
  }

  /** A URL that contains a search or admin pattern anywhere, in any letter case, is never
      processed, whatever surrounds it. */
  lemma {:induction false} PatternNotProcessed(before: string, middle: string, after: string, d: Document)
    requires Lower(middle) in SearchPatterns
             || exists k :: 0 <= k < |AdminSections| && Lower(middle) == "/" + AdminSections[k] + "/"
    ensures !ShouldProcessPage(before + middle + after, d)
  {
    var url := before + middle + after;
    LowerAppend(before + middle, after);
    LowerAppend(before, middle);
    var p := Lower(middle);
    assert StartsWith(p, p);
    ContainsInLonger(Lower(before), p, Lower(after), p);
    if p in SearchPatterns {
      var k :| 0 <= k < |SearchPatterns| && SearchPatterns[k] == p;
      assert Contains(Lower(url), SearchPatterns[k]);
    } else {
      var k :| 0 <= k < |AdminSections| && p == "/" + AdminSections[k] + "/";
      assert Contains(Lower(url), "/" + AdminSections[k] + "/");
    }
  }

  /** A page whose body text is shorter than 200 characters is never processed; a page is
      processed exactly when it has at least that much text and none of the URL patterns. */
  lemma {:induction false} ProcessedPages(url: string, d: Document)
    ensures |TextContent(d.body)| < MinBodyLength ==> !ShouldProcessPage(url, d)
    ensures ShouldProcessPage(url, d) <==>
              |TextContent(d.body)| >= MinBodyLength && !IsDownloadUrl(url) && !IsSearchUrl(url)
              && !IsAdminUrl(url)
  {
  }
}
