# ClarityAI core in Dafny

This project models the deterministic core of ClarityAI, a browser extension with a small
backend that summarises web pages. It covers five parts:

- **The backend's local extractive summariser** (`generateLocalSummary`) and its two keyword
  extractors (`extractKeywords`, `extractTopKeywords`). The summariser:
  - splits the cleaned text into fragments on runs of `.`, `!` and `?`;
  - keeps the fragments longer than 30 characters;
  - scores each fragment with fixed integer weights;
  - keeps the best four under a stable descending sort, and puts them back in page order.
- **The extension's fallback summariser** (`generateFallbackSummary`). It is simpler, with its
  own constants: fragments longer than 20 characters, title words only, and three points.
- **The content extractor.** It has:
  - a title cascade over thirteen sources;
  - a main-content cascade: semantic selectors, then a density score with a first-maximum
    rule, then the whole body;
  - whitespace cleanup of a pruned copy of the page tree;
  - the heading filter, the word count, and the gate that decides whether a page is processed.
- **The storage manager**, a class over `chrome.storage.local`:
  - the summary history, newest first with a cap of ten: save, delete by id, clear;
  - the settings record, merged over the defaults: save, partial update, and enable, disable or
    toggle of a host in `disabledSites`;
  - the text and markdown exports.
- **The request validators**, whose checks run in a fixed order and report the first failure.

The files are:

| file | module | contents |
|---|---|---|
| options.dfy | `Options` | `Option` |
| text.dfy | `Text` | the JavaScript string operations the core uses: `\s`, `trim`, `split` on a pattern, ASCII `toLowerCase`, `includes`, `replace(/\s+/g, " ")`, `join`, `split` on one character, decimal formatting, a generic filter. |
| ranking.dfy | `Ranking` | `.sort((a, b) => key(b) - key(a))` as a stable insertion sort, `.slice(0, k)`, and the re-sort by index, with the properties of each. |
| local_summary.dfy | `LocalSummarizer` | the backend summariser and the keyword extractors. |
| fallback_summary.dfy | `FallbackSummarizer` | the extension's fallback summariser. |
| dom.dfy | `Dom` | the page as a tree value, selectors as predicates on nodes, `querySelectorAll`/`querySelector`, `textContent`, and `Prune`, which is clone-then-remove. |
| content_extractor.dfy | `ContentExtractor` | the content extractor. |
| storage_manager.dfy | `Storage` | the settings and history values, the exports, and the `StorageManager` class. |
| validation.dfy | `Validation` | `validateSummaryRequest` and `validateUrl`. |

Some parts of the source update state step by step:

- the per-fragment `let score` accumulated by `forEach`;
- the word-count `Map`;
- the candidate loop that keeps `bestScore` and `bestCandidate`;
- the early-exit loops over title sources and selectors;
- the heading `push` loop;
- the noise-removal loop;
- every storage operation.

Each of these is a `method`. Its loop invariants or its `ensures` tie the result, or the new
state, to a specification function, and the source's promises are proved as lemmas about that
function. The split/filter/map pipelines are functions. The
backend's scoring functions take the four word lists (value indicators, attributions, action
words, filler phrases) as a `Lexicon` parameter, and `generateLocalSummary` passes
`SourceLexicon`, the lists as the source writes them; every lemma about the score holds for any
lists.

Helpers the core calls but whose code is outside this model are passed in as function-typed
parameters, and nothing is known about them:

- `cleanText` and `isStopWord` (`backend/src/utils/TextUtils`, which is not part of this model);
- `new URL(url)` and its `hostname`;
- `toLocaleDateString`;
- `window.location.href` and `Date.now()`.

Two details of the code that the model keeps:

- The density score counts every `p` element anywhere below the candidate
  (`querySelectorAll("p")`), not only its children.
- A heading is kept when its trimmed text is 1 to 199 characters long: a trimmed heading of
  exactly 200 characters is dropped.

## Model

Source paths are relative to the repository root. `BSF` below means
`backend/src/services/SummarizationService-functional.ts`.

| member | source | states |
|---|---|---|
| Text.Trim | chrome-extension/src/contentExtractor.ts:300 | `trim()` is the slice between the first and the last non-whitespace character. Its ends are not whitespace, and it is empty exactly when the string is all whitespace. |
| Text.TrimFrom | chrome-extension/src/contentExtractor.ts:300 | Everything before the returned index is whitespace, and the character at the index is not. |
| Text.TrimTo | chrome-extension/src/contentExtractor.ts:300 | Everything from the returned index on is whitespace, and the character just before it is not, unless the whole string was blank. |
| Text.TrimStart | chrome-extension/src/contentExtractor.ts:298 | What is left after dropping leading whitespace is empty or starts with a non-space. |
| Text.TrimIsSlice | chrome-extension/src/contentExtractor.ts:300 | What `trim()` drops on either side is all whitespace. |
| Text.TrimIdempotent | chrome-extension/src/contentExtractor.ts:311 | Trimming twice is trimming once. |
| Text.SplitRuns | backend/src/services/SummarizationService-functional.ts:142 | `split` on a run pattern gives at least one piece. The first piece is empty exactly when the text starts with a separator. No piece holds a separator, and the pieces together are the text without its separators. |
| Text.SplitRunsKeeps | backend/src/services/SummarizationService-functional.ts:294 | A property every character of the text has, every character of every piece has. |
| Text.SplitWhitespaceLowerCase | backend/src/services/SummarizationService-functional.ts:293-294 | Splitting lowercase text on whitespace gives lowercase words. |
| Text.KeepLonger | backend/src/services/SummarizationService-functional.ts:143 | `.filter((s) => s.trim().length > n)` keeps exactly the pieces whose trimmed length exceeds `n`. |
| Text.Filter | chrome-extension/src/storageManager.ts:64 | The result keeps exactly the elements that pass the test, and is no longer than the list. |
| Text.FilterKeepsOrder | chrome-extension/src/storageManager.ts:64 | A filter keeps the relative order of what it keeps. |
| Text.FilterKeepsAll | chrome-extension/src/storageManager.ts:149-151 | A filter that rejects nothing returns the list unchanged. |
| Text.FilterAppendOne | chrome-extension/src/storageManager.ts:149-153 | An appended element the filter rejects leaves the result as it was. |
| Text.TrimEach | backend/src/services/SummarizationService-functional.ts:146 | `.map((s) => s.trim())` trims every element. |
| Text.NonEmpty | backend/src/services/SummarizationService-functional.ts:146 | `.filter((s) => s.length > 0)` keeps no empty string. |
| Text.NonEmptyKeepsAll | backend/src/services/SummarizationService-functional.ts:146 | When no element is empty, the filter keeps the list as it is. |
| Text.Hits | backend/src/services/SummarizationService-functional.ts:172-176 | The number of list entries the text contains is at most the number of entries. |
| Text.HitsAppend | backend/src/services/SummarizationService-functional.ts:152 | The hits of two concatenated lists add up. |
| Text.HitsAll | backend/src/services/SummarizationService-functional.ts:172-176 | Every entry is a hit exactly when the hit count equals the list length. |
| Text.Lower | backend/src/services/SummarizationService-functional.ts:157 | `toLowerCase()` keeps the length. |
| Text.LowerIsLowerCase | backend/src/services/SummarizationService-functional.ts:157 | The lowercased text holds no upper-case ASCII letter. |
| Text.LowerEach | backend/src/services/SummarizationService-functional.ts:173 | Every keyword is lowercased. |
| Text.Contains | backend/src/services/SummarizationService-functional.ts:173 | `includes` holds exactly when the pattern occurs at some position. |
| Text.ContainsInLonger | chrome-extension/src/contentExtractor.ts:355 | What a string contains, any longer string around it contains too. |
| Text.CollapseSpaces | chrome-extension/src/contentExtractor.ts:298 | `replace(/\s+/g, " ")` leaves only plain single spaces. The result is empty exactly when the input is, and starts with a space exactly when the input does. |
| Text.CollapseKeepsText | chrome-extension/src/contentExtractor.ts:298 | Collapsing whitespace keeps every other character in order. |
| Text.NormalizeSpaceShape | chrome-extension/src/contentExtractor.ts:297-300 | The cleaned text has no whitespace at either end and only single plain spaces inside, and it keeps every other character in order. |
| Text.TrimKeepsSpacing | chrome-extension/src/contentExtractor.ts:300 | Trimming single-spaced text keeps it single-spaced. |
| Text.SliceKeepsSpacing | chrome-extension/src/contentExtractor.ts:300 | Any slice of single-spaced text is single-spaced. |
| Text.NormalizeKeepsText | chrome-extension/src/contentExtractor.ts:300 | Trimming drops only whitespace. |
| Text.NormalizeLeavesNoLineFeed | chrome-extension/src/contentExtractor.ts:298-299 | After the first replace no line feed is left. |
| Text.CountWordsIsRuns | chrome-extension/src/contentExtractor.ts:323-325 | `countWords` is the number of maximal runs of non-whitespace characters. |
| Text.CountWordsEmpty | chrome-extension/src/contentExtractor.ts:323-325 | `countWords("")` is 0. |
| Text.SplitOn | chrome-extension/src/storageManager.ts:207 | `split` on one character gives at least one piece. |
| Text.SplitOnNoSeparator | chrome-extension/src/storageManager.ts:207 | A string without the separator splits into itself. |
| Text.SplitOnAppend | chrome-extension/src/storageManager.ts:207 | A separator-free prefix and a separator split off as one piece. |
| Text.SplitJoinRoundTrip | chrome-extension/src/storageManager.ts:205-207 | Joining separator-free lines and splitting again gives back the lines. |
| Text.NatToString | chrome-extension/src/storageManager.ts:206 | A number is written as one or more decimal digits. |
| Text.DecimalRoundTrip | chrome-extension/src/storageManager.ts:217-218 | Reading the written digits back gives the number. |
| Ranking.InsertPos | backend/src/services/SummarizationService-functional.ts:281 | The new element goes after every element with a larger key and before the first with a key at most its own. |
| Ranking.InsertRankSorted | backend/src/services/SummarizationService-functional.ts:281 | Inserting an element earlier than everything keeps a list ordered by key and then position. |
| Ranking.SortPermutes | backend/src/services/SummarizationService-functional.ts:281 | The sort only reorders: the multiset of elements is unchanged. |
| Ranking.SortNonIncreasing | backend/src/services/SummarizationService-functional.ts:281 | After the sort the keys are non-increasing. |
| Ranking.SortStable | backend/src/services/SummarizationService-functional.ts:281 | The elements sharing any one key keep their relative order. |
| Ranking.SortDistinctBy | backend/src/services/SummarizationService-functional.ts:317 | A list whose elements are pairwise distinct under a projection still is after sorting. |
| Ranking.SortRanks | backend/src/services/SummarizationService-functional.ts:281 | On a list in position order, the sort orders by descending key and then by ascending position. |
| Ranking.TopDominates | backend/src/services/SummarizationService-functional.ts:281-282 | Everything the slice leaves out has a key at most that of everything it keeps. |
| Ranking.TopKeepsTieOrder | backend/src/services/SummarizationService-functional.ts:316-318 | Among equal keys, the slice keeps the elements seen first, in input order. |
| Ranking.TopInOrderLength | backend/src/services/SummarizationService-functional.ts:280-283 | The selection has `min(k, n)` elements. |
| Ranking.TopInOrderAscending | backend/src/services/SummarizationService-functional.ts:283 | The selection comes out in strictly ascending position. |
| Ranking.TopInOrderMembers | backend/src/services/SummarizationService-functional.ts:282-283 | The re-sort by position keeps exactly the elements of the slice. |
| Ranking.TopInOrderFrom | backend/src/services/SummarizationService-functional.ts:280-283 | Everything selected comes from the input. |
| Ranking.TopInOrderBest | backend/src/services/SummarizationService-functional.ts:280-283 | Every element left out ranks after every element kept: a lower key, or an equal key and a later position. |
| LocalSummarizer.AddHits | backend/src/services/SummarizationService-functional.ts:172-176 | One `forEach` over a word list adds the weight once per entry the lowercased fragment contains. |
| LocalSummarizer.SentenceScore | backend/src/services/SummarizationService-functional.ts:156-269 | The score of fragment `i` of `n` in closed form: the position and length bonuses, 3 per keyword hit, 2 per value indicator, 3 for a numeric detail, 2 once for a quotation or attribution, 2 per action word, −4 per filler phrase. Each weight is proved against its list by the lemmas that follow. |
| LocalSummarizer.ScoreSentence | backend/src/services/SummarizationService-functional.ts:156-269 | The accumulated score is the sum of the position bonus, the length bonus, 3 per keyword hit, 2 per value indicator, 3 for a numeric detail, 2 for a quote or attribution, 2 per action word, and −4 per filler phrase. |
| LocalSummarizer.ScoreFragment | backend/src/services/SummarizationService-functional.ts:155-277 | The closure returns the trimmed fragment, its score, its index and its word count. |
| LocalSummarizer.Scored | backend/src/services/SummarizationService-functional.ts:155 | The map produces one record per fragment, record `i` for fragment `i`. |
| LocalSummarizer.ScoreAll | backend/src/services/SummarizationService-functional.ts:155-277 | The loop builds the list of records of every fragment, in order. |
| LocalSummarizer.Texts | backend/src/services/SummarizationService-functional.ts:285 | The points are the records' texts, in order. |
| LocalSummarizer.LocalSummary | backend/src/services/SummarizationService-functional.ts:136-286 | `generateLocalSummary` on values: the trimmed fragments when there are at most three, otherwise the four best-scored fragments in page order. FewSentences, SelectionShape, SelectionIsBest and ManySentences prove this. |
| LocalSummarizer.GenerateLocalSummary | backend/src/services/SummarizationService-functional.ts:136-286 | The method computes the specified summary: cleaned text, surviving fragments, the early return for at most three, title and content keywords, scoring, top four, page order. |
| LocalSummarizer.FewSentences | backend/src/services/SummarizationService-functional.ts:141-147 | With at most three surviving fragments the summary is exactly those fragments, trimmed, in order. |
| LocalSummarizer.SelectionShape | backend/src/services/SummarizationService-functional.ts:155-285 | With more than three fragments exactly four records are chosen. Each is the trimmed fragment at its own index with that fragment's score, and the indices strictly ascend. |
| LocalSummarizer.SelectionIsBest | backend/src/services/SummarizationService-functional.ts:280-283 | A fragment left out scores below every chosen one, or equal to a chosen one with a lower index. |
| LocalSummarizer.ManySentences | backend/src/services/SummarizationService-functional.ts:279-285 | With more than three fragments the summary has four points, the chosen records' texts in order. |
| LocalSummarizer.PositionBonusCases | backend/src/services/SummarizationService-functional.ts:161-164 | The bonuses stack: the first fragment gets 4 + 3, the second of at least 14 gets 2 + 3, and the last of at least 7 gets only the closing 2. |
| LocalSummarizer.LengthBonusCases | backend/src/services/SummarizationService-functional.ts:167-169 | The length bonus is exactly one of 4, 2, −3 and 0, each for its own range of word counts. |
| LocalSummarizer.KeywordAdds | backend/src/services/SummarizationService-functional.ts:172-176 | One more keyword adds 3 exactly when the lowercased fragment contains it lowercased. |
| LocalSummarizer.KeywordsRepeated | backend/src/services/SummarizationService-functional.ts:150-176 | A keyword listed twice counts twice. |
| LocalSummarizer.ValueIndicatorAdds | backend/src/services/SummarizationService-functional.ts:225-227 | One more value indicator adds 2 exactly when the lowercased fragment contains it, and 0 otherwise. |
| LocalSummarizer.ActionWordAdds | backend/src/services/SummarizationService-functional.ts:255-257 | One more action word adds 2 exactly when the lowercased fragment contains it, and 0 otherwise. |
| LocalSummarizer.FillerPhraseSubtracts | backend/src/services/SummarizationService-functional.ts:267-269 | One more filler phrase takes away 4 exactly when the lowercased fragment contains it, and 0 otherwise. |
| LocalSummarizer.AttributionAdds | backend/src/services/SummarizationService-functional.ts:236-241 | The attribution bonus is given at most once: one more attribution word adds 2 exactly when the fragment contains it and has no quotation and no other attribution word. |
| LocalSummarizer.LongWords | backend/src/services/SummarizationService-functional.ts:295 | The filter keeps exactly the words longer than `n` that are not stop words. |
| LocalSummarizer.ExtractKeywords | backend/src/services/SummarizationService-functional.ts:291-297 | `extractKeywords`: the first 10 lowercased title words that are longer than 3 and not stop words. ExtractKeywordsSpec proves this. |
| LocalSummarizer.ExtractKeywordsSpec | backend/src/services/SummarizationService-functional.ts:291-297 | `extractKeywords` gives at most 10 words, each lowercase, longer than 3 and not a stop word. They are a prefix of all such words of the title, in order and with repeats. |
| LocalSummarizer.BlankPunctuation | backend/src/services/SummarizationService-functional.ts:305 | Every character left is a word character or whitespace, and the length is unchanged. |
| LocalSummarizer.ContentWordsLowerCase | backend/src/services/SummarizationService-functional.ts:303-307 | Every counted content word is lowercase. |
| LocalSummarizer.Distinct | backend/src/services/SummarizationService-functional.ts:310-313 | The `Map`'s key order holds each word once, and exactly the words seen. |
| LocalSummarizer.CountPositive | backend/src/services/SummarizationService-functional.ts:312 | A word's count is positive exactly when it occurs. |
| LocalSummarizer.Frequencies | backend/src/services/SummarizationService-functional.ts:316 | There is one entry per distinct word. |
| LocalSummarizer.Words | backend/src/services/SummarizationService-functional.ts:319 | `.map((entry) => entry[0])` projects every entry on its word. |
| LocalSummarizer.CountFrequencies | backend/src/services/SummarizationService-functional.ts:310-313 | The counting loop yields the first-seen key order and, for every word seen, its number of occurrences. |
| LocalSummarizer.Tally | backend/src/services/SummarizationService-functional.ts:312 | One `wordCount.set` call, adding 1 to the word's count or starting it at 1, turns the counts of the words seen into the counts with one more word, a new word going to the end of the key order. |
| LocalSummarizer.ExtractTopKeywords | backend/src/services/SummarizationService-functional.ts:302-320 | The method, with its counting loop, computes the specified keyword list. |
| LocalSummarizer.FrequenciesDistinct | backend/src/services/SummarizationService-functional.ts:310-316 | No word has two entries. |
| LocalSummarizer.TopEntriesCounted | backend/src/services/SummarizationService-functional.ts:311-318 | Every selected entry is a content word with its own count. |
| LocalSummarizer.TopKeywords | backend/src/services/SummarizationService-functional.ts:302-320 | `extractTopKeywords` on values: the words of the most frequent entries, ties in first-seen order. TopKeywordsSpec, TopKeywordsDominate and TopKeywordsTieOrder prove this. |
| LocalSummarizer.TopKeywordsSpec | backend/src/services/SummarizationService-functional.ts:302-320 | At most `limit` words, none twice, each longer than 4 and not a stop word, in non-increasing frequency. |
| LocalSummarizer.TopKeywordsDominate | backend/src/services/SummarizationService-functional.ts:316-318 | A content word left out is no more frequent than any selected one. |
| LocalSummarizer.TopKeywordsTieOrder | backend/src/services/SummarizationService-functional.ts:316-318 | Among words of one frequency, the selected ones are the first seen, in first-seen order. |
| FallbackSummarizer.TitleWords | chrome-extension/src/summarizationService.ts:75-78 | Every title word is longer than 3 characters. |
| FallbackSummarizer.LongerThan | chrome-extension/src/summarizationService.ts:78 | The filter keeps exactly the words longer than `n`. |
| FallbackSummarizer.SentenceScore | chrome-extension/src/summarizationService.ts:81-97 | The fallback score of fragment `i` of `n` in closed form: the position bonus, the length bonus, and 2 per title word the lowercased fragment contains. ScoreBounds and TitleWordAdds prove its range and weights. |
| FallbackSummarizer.ScoreSentence | chrome-extension/src/summarizationService.ts:81-97 | The accumulated score is the position bonus, plus the length bonus, plus 2 per title word the lowercased fragment contains. |
| FallbackSummarizer.ScoreEach | chrome-extension/src/summarizationService.ts:80-100 | The map produces one record per fragment, record `i` for fragment `i`. |
| FallbackSummarizer.ScoreAll | chrome-extension/src/summarizationService.ts:80-100 | The loop builds the list of records of every fragment, in order. |
| FallbackSummarizer.Texts | chrome-extension/src/summarizationService.ts:107 | The points are the records' texts, in order. |
| FallbackSummarizer.FallbackSummary | chrome-extension/src/summarizationService.ts:60-108 | `generateFallbackSummary` on values: the trimmed fragments when there are at most three, otherwise the three best-scored fragments in page order. FewSentences, SelectionShape, SelectionIsBest and ManySentences prove this. |
| FallbackSummarizer.GenerateFallbackSummary | chrome-extension/src/summarizationService.ts:60-108 | The method computes the specified fallback summary. |
| FallbackSummarizer.FewSentences | chrome-extension/src/summarizationService.ts:65-69 | With at most three fragments longer than 20 characters once trimmed, the summary is exactly those fragments, trimmed, in order. |
| FallbackSummarizer.SelectionShape | chrome-extension/src/summarizationService.ts:80-107 | With more than three fragments exactly three are chosen. Each is the trimmed fragment at its index with its score, in strictly ascending index. |
| FallbackSummarizer.SelectionIsBest | chrome-extension/src/summarizationService.ts:103-105 | A fragment left out scores below every chosen one, or equal to a chosen one with a lower index. |
| FallbackSummarizer.ManySentences | chrome-extension/src/summarizationService.ts:103-107 | With more than three fragments the summary has three points, the chosen records' texts. |
| FallbackSummarizer.ScoreBounds | chrome-extension/src/summarizationService.ts:84-97 | No score is negative, and none exceeds 8 plus 2 per title word. |
| FallbackSummarizer.PositionBonusCases | chrome-extension/src/summarizationService.ts:85-87 | The bonuses stack: a lone fragment gets 6, the first of several 4, and the last of several 2. |
| FallbackSummarizer.TitleWordAdds | chrome-extension/src/summarizationService.ts:95-97 | One more title word adds 2 exactly when the lowercased fragment contains it, so repeats count again. |
| Dom.MatchesAnyAppend | chrome-extension/src/contentExtractor.ts:289-294 | A node matches one of two selector lists joined exactly when it matches one of either. |
| Dom.Select | chrome-extension/src/contentExtractor.ts:231-233 | `querySelectorAll` keeps exactly the matching elements, in document order. |
| Dom.SelectFirst | chrome-extension/src/contentExtractor.ts:216 | `querySelector` finds an element exactly when some element matches, and what it finds matches. |
| Dom.SelectFirstIsFirst | chrome-extension/src/contentExtractor.ts:216 | The element found is at some position of the searched list, and no element before that position matches. |
| Dom.Prune | chrome-extension/src/contentExtractor.ts:286-294 | Removing matches from a clone keeps the root's tag and attributes. PruneKeepsChild, PruneNoMatch and PruneRemoves say what survives below it and what is gone. |
| Dom.PruneOf | chrome-extension/src/contentExtractor.ts:286-294 | Removal never adds children. |
| Dom.PruneKeepsMatch | chrome-extension/src/contentExtractor.ts:289-294 | Removal does not change which selectors the root matches. |
| Dom.PruneKeepsMatchAny | chrome-extension/src/contentExtractor.ts:289-294 | The same holds for any list of selectors. |
| Dom.PruneCompose | chrome-extension/src/contentExtractor.ts:289-294 | Two removal passes are one pass with both lists. |
| Dom.PruneOfCompose | chrome-extension/src/contentExtractor.ts:289-294 | The same holds for a list of children. |
| Dom.PruneNothing | chrome-extension/src/contentExtractor.ts:289-294 | Removing nothing changes nothing. |
| Dom.PruneOfNothing | chrome-extension/src/contentExtractor.ts:289-294 | The same holds for a list of children. |
| Dom.PruneSame | chrome-extension/src/contentExtractor.ts:289-294 | Two selector lists that match the same nodes remove the same nodes. |
| Dom.PruneOfSame | chrome-extension/src/contentExtractor.ts:289-294 | The same holds for a list of children. |
| Dom.PruneIdempotent | chrome-extension/src/contentExtractor.ts:292-294 | Removing the same selectors again changes nothing. |
| Dom.PruneCommutes | chrome-extension/src/contentExtractor.ts:289-294 | The order of two removal passes does not matter. |
| Dom.PruneRemoves | chrome-extension/src/contentExtractor.ts:289-294 | After removal no node below the root matches a removed selector. |
| Dom.PruneOfRemoves | chrome-extension/src/contentExtractor.ts:289-294 | The same holds for a list of children. |
| Dom.PruneNoMatch | chrome-extension/src/contentExtractor.ts:289-294 | A tree in which no element below the root matches comes through the removal unchanged. |
| Dom.PruneOfNoMatch | chrome-extension/src/contentExtractor.ts:289-294 | The same holds for a list of children. |
| Dom.PruneOfKeeps | chrome-extension/src/contentExtractor.ts:289-294 | Among siblings, a matching node goes with everything below it, and every other node stays in order with its own matches removed. |
| Dom.PruneKeepsChild | chrome-extension/src/contentExtractor.ts:289-294 | A child that matches no selector keeps its pruned copy among the root's children, and every remaining child is the pruned copy of such a child. |
| ContentExtractor.RemoveEach | chrome-extension/src/contentExtractor.ts:292-294 | The `forEach` over the selector list, removing each selector's matches in turn, leaves the clone pruned of the whole list. |
| ContentExtractor.CleanContent | chrome-extension/src/contentExtractor.ts:285-301 | `cleanContent` yields the normalised text of the element pruned of script, style, noscript and noise. |
| ContentExtractor.SecondReplaceFindsNothing | chrome-extension/src/contentExtractor.ts:298-299 | After the first replace there is no blank line for the second replace to find. |
| ContentExtractor.CleanedTextSpec | chrome-extension/src/contentExtractor.ts:285-301 | Cleaned text has no whitespace at the ends and only single spaces inside. It keeps every non-whitespace character of the pruned text in order, and no script, style, noscript or noise element is left below the element. |
| ContentExtractor.TrySemanticExtraction | chrome-extension/src/contentExtractor.ts:214-225 | `trySemanticExtraction` returns the specified semantic text. |
| ContentExtractor.FirstLongCandidate | chrome-extension/src/contentExtractor.ts:215-224 | The selector loop with its early `return` yields the first candidate longer than 100 characters, or empty. |
| ContentExtractor.FirstLongSpec | chrome-extension/src/contentExtractor.ts:214-225 | The result is empty exactly when no selector's first match cleans to more than 100 characters. Otherwise it is the cleaned text of the first selector, in list order, that does. |
| ContentExtractor.ElementScore | chrome-extension/src/contentExtractor.ts:251-266 | The score is at least 0 and at least the raw score, and it is one of the two. |
| ContentExtractor.ScoreElement | chrome-extension/src/contentExtractor.ts:251-266 | The score built up one indicator at a time is the specified score: 3 per `p` below, plus the text length over 100 capped at 10, minus 10 per sidebar, footer or header class, minus 15 for an id containing `ad`, floored at 0. |
| ContentExtractor.ElementScoreBounds | chrome-extension/src/contentExtractor.ts:251-266 | The score is at most 3 per paragraph plus 10, and an element without paragraphs whose id contains `ad` scores 0. |
| ContentExtractor.BestCandidate | chrome-extension/src/contentExtractor.ts:237-243 | The loop keeping `bestScore` and `bestCandidate` ends with the specified best candidate. |
| ContentExtractor.TryReadabilityExtraction | chrome-extension/src/contentExtractor.ts:230-246 | `tryReadabilityExtraction` is the cleaned best candidate, or empty when there is none. |
| ContentExtractor.BestStep | chrome-extension/src/contentExtractor.ts:239-242 | One more candidate is kept exactly when it beats the best score so far. |
| ContentExtractor.BestPositive | chrome-extension/src/contentExtractor.ts:235-242 | A kept candidate has a positive score. |
| ContentExtractor.BestNone | chrome-extension/src/contentExtractor.ts:235-245 | No candidate is kept exactly when no candidate scores above 0. |
| ContentExtractor.BestIsFirstMax | chrome-extension/src/contentExtractor.ts:237-243 | The kept candidate scores at least as much as every candidate and more than every candidate before it. |
| ContentExtractor.ReadabilitySpec | chrome-extension/src/contentExtractor.ts:230-246 | There is no best candidate exactly when every candidate scores 0. Otherwise the best has a positive score and is the first candidate with the highest score. |
| ContentExtractor.FallbackExtraction | chrome-extension/src/contentExtractor.ts:271-280 | `fallbackExtraction` is the cleaned text of the body pruned of noise. |
| ContentExtractor.FallbackIsCleanedBody | chrome-extension/src/contentExtractor.ts:271-280 | The fallback's own noise pass is subsumed by the one in `cleanContent`: the result is the cleaned body. |
| ContentExtractor.MainContent | chrome-extension/src/contentExtractor.ts:194-209 | `extractMainContent` on values: the semantic text if it is longer than 100 characters, else the density text if that is, else the fallback. MainContentSpec proves what it returns. |
| ContentExtractor.ExtractMainContent | chrome-extension/src/contentExtractor.ts:194-209 | The cascade returns the semantic text if it is longer than 100 characters, else the density text if that is, else the fallback. |
| ContentExtractor.MainContentSpec | chrome-extension/src/contentExtractor.ts:194-209 | The main content is longer than 100 characters or is the cleaned body, and it is always normalised. |
| ContentExtractor.CleanedNormalized | chrome-extension/src/contentExtractor.ts:297-300 | Cleaned text is normalised. |
| ContentExtractor.SemanticNormalized | chrome-extension/src/contentExtractor.ts:214-225 | The semantic text is normalised. |
| ContentExtractor.ReadabilityNormalized | chrome-extension/src/contentExtractor.ts:230-246 | The density text is normalised. |
| ContentExtractor.BeforeFirst | chrome-extension/src/contentExtractor.ts:173-175 | `split(sep)[0]` is a prefix of the title. |
| ContentExtractor.TitleSources | chrome-extension/src/contentExtractor.ts:139-179 | There are thirteen sources, in the source's order. |
| ContentExtractor.Title | chrome-extension/src/contentExtractor.ts:138-189 | `extractTitle` on values: the first non-blank title source, trimmed, or "Untitled Page". FirstTitleSpec and TitleNonEmpty prove this. |
| ContentExtractor.ExtractTitle | chrome-extension/src/contentExtractor.ts:181-188 | The loop with its early `return` yields the specified title. |
| ContentExtractor.FirstTitleSpec | chrome-extension/src/contentExtractor.ts:181-188 | No title is found exactly when no source is non-blank. Otherwise the title is the trimmed value of the first non-blank source. |
| ContentExtractor.TitleNonEmpty | chrome-extension/src/contentExtractor.ts:181-188 | The title is never empty and is already trimmed. |
| ContentExtractor.BlankPrefix | chrome-extension/src/contentExtractor.ts:170-177 | A prefix of a blank string is blank. |
| ContentExtractor.LastResortNeverUsed | chrome-extension/src/contentExtractor.ts:166-178 | The last-resort source never decides the title. It is consulted only when `document.title` is blank, and then every first segment is blank too. |
| ContentExtractor.TrimmedTexts | chrome-extension/src/contentExtractor.ts:311 | Each heading text is its element's trimmed `textContent`. |
| ContentExtractor.ExtractHeadings | chrome-extension/src/contentExtractor.ts:306-318 | `extractHeadings` yields the specified headings. |
| ContentExtractor.KeepHeadingTexts | chrome-extension/src/contentExtractor.ts:310-315 | The `forEach` pushing each short enough trimmed text yields exactly the kept texts, in order. |
| ContentExtractor.KeepHeadingsSpec | chrome-extension/src/contentExtractor.ts:310-315 | A text is kept exactly when it is one of the heading texts and is 1 to 199 characters long. |
| ContentExtractor.HeadingsSpec | chrome-extension/src/contentExtractor.ts:306-318 | Every heading is trimmed and 1 to 199 characters long, and every heading element whose trimmed text has such a length contributes it. |
| ContentExtractor.ExtractContent | chrome-extension/src/contentExtractor.ts:118-133 | `extractContent` builds the specified record. |
| ContentExtractor.ExtractionSpec | chrome-extension/src/contentExtractor.ts:118-133 | The word count is the number of non-whitespace runs of the content, the content is the main content, and the title is never empty. |
| ContentExtractor.HasSignificantContent | chrome-extension/src/contentExtractor.ts:330-333 | True exactly when the main content has at least 50 words. |
| ContentExtractor.IsLongFormContent | chrome-extension/src/contentExtractor.ts:338-341 | True exactly when the main content has at least 500 words. |
| ContentExtractor.LowerAppend | chrome-extension/src/contentExtractor.ts:350 | Lowercasing distributes over concatenation. |
| ContentExtractor.DownloadNotProcessed | chrome-extension/src/contentExtractor.ts:349-352 | A URL ending in a download extension, in any letter case, alone or before a query, is not processed. |
| ContentExtractor.PatternNotProcessed | chrome-extension/src/contentExtractor.ts:354-366 | A URL containing a search or admin pattern anywhere, in any letter case, is not processed. |
| ContentExtractor.IsDownloadUrl | chrome-extension/src/contentExtractor.ts:350 | The URL, in any letter case, has a dot and one of the 11 download extensions at the end or before a `?`. DownloadNotProcessed proves that such URLs are rejected. |
| ContentExtractor.IsSearchUrl | chrome-extension/src/contentExtractor.ts:355 | The URL, in any letter case, contains `/search`, `/results`, `?q=` or `?search=`. PatternNotProcessed proves that such URLs are rejected. |
| ContentExtractor.IsAdminUrl | chrome-extension/src/contentExtractor.ts:360-364 | The URL, in any letter case, contains one of the 8 section names between slashes. PatternNotProcessed proves that such URLs are rejected. |
| ContentExtractor.ShouldProcessPage | chrome-extension/src/contentExtractor.ts:346-375 | `shouldProcessPage`, with `window.location.href` passed in: the three URL tests, then the 200-character body test. ProcessedPages characterises it. |
| ContentExtractor.ProcessedPages | chrome-extension/src/contentExtractor.ts:346-375 | A body shorter than 200 characters is never processed. A page is processed exactly when its body text has at least 200 characters and its URL matches none of the download, search and admin patterns. |
| Storage.Merge | chrome-extension/src/storageManager.ts:117 | `{ ...current, ...updates }`: each field is the update's when given, and the current one otherwise. MergeLaws proves the spread laws. |
| Storage.MergeLaws | chrome-extension/src/storageManager.ts:88-122 | Spreading a whole record replaces everything, spreading an empty one changes nothing, two spreads are one spread of the overlay, and a field the update does not give is unchanged. |
| Storage.Prepended | chrome-extension/src/storageManager.ts:29-35 | `unshift` then `slice(0, 10)`: the length is `min(n + 1, 10)`, the new summary is first, and the rest is a prefix of the old list. |
| Storage.WithoutIdSpec | chrome-extension/src/storageManager.ts:61-68 | Deleting keeps exactly the summaries with another id, in their relative order, and a missing id leaves the list as it was. |
| Storage.WithoutHost | chrome-extension/src/storageManager.ts:170-172 | The host is gone, and every other host is present exactly when it was. |
| Storage.Toggled | chrome-extension/src/storageManager.ts:148-154 | The host is present afterwards exactly when it was absent before, and no other host changes. |
| Storage.Disabled | chrome-extension/src/storageManager.ts:188-190 | The host is present afterwards with no extra entry added when it was already there, and no other host changes. |
| Storage.SiteListLaws | chrome-extension/src/storageManager.ts:143-196 | Disabling twice is disabling once, and enabling twice is enabling once. Toggling an absent host twice restores the list; toggling a present host twice leaves one entry for it at the end. |
| Storage.Numbered | chrome-extension/src/storageManager.ts:206 | Point `k` becomes `k+1. point`. |
| Storage.Bulleted | chrome-extension/src/storageManager.ts:220 | Every point becomes `- point`. |
| Storage.ExportText | chrome-extension/src/storageManager.ts:201-208 | `exportSummaryAsText`: title, URL and date lines, a blank line, then the numbered points. ExportTextIsJoin and ExportTextLines prove its line structure. |
| Storage.ExportTextIsJoin | chrome-extension/src/storageManager.ts:201-208 | The text export is its lines joined by line feeds. |
| Storage.ExportTextLines | chrome-extension/src/storageManager.ts:201-208 | When no part holds a line feed of its own, the text export splits into the title, the URL, the date line, an empty line and then the points numbered `1.` to `n.` in order. |
| Storage.ExportMarkdown | chrome-extension/src/storageManager.ts:213-222 | `exportSummaryAsMarkdown`: the heading, URL, date and word-count lines, the Summary heading, then the bulleted points. ExportMarkdownIsJoin and ExportMarkdownLines prove its line structure. |
| Storage.ExportMarkdownIsJoin | chrome-extension/src/storageManager.ts:213-222 | The markdown export is its lines joined by line feeds. |
| Storage.ExportMarkdownLines | chrome-extension/src/storageManager.ts:213-222 | When no part holds a line feed of its own, the markdown export splits into the eight header lines and then one `- point` line per point in order. |
| Storage.StorageManager.constructor | chrome-extension/src/storageManager.ts:7-10 | The manager starts over the given storage contents. |
| Storage.StorageManager.GetSummaries | chrome-extension/src/storageManager.ts:48-56 | The stored list, or the empty list when the key is absent. |
| Storage.StorageManager.GetSettings | chrome-extension/src/storageManager.ts:88-96 | Each stored field overrides its default (enabled, autoDetect, no disabled sites, bullets), and each missing field takes the default. |
| Storage.StorageManager.SaveSummary | chrome-extension/src/storageManager.ts:27-43 | Only the summaries key changes. The new list has at most 10 entries, the new summary first and then a prefix of the old list. |
| Storage.StorageManager.DeleteSummary | chrome-extension/src/storageManager.ts:61-72 | Only the summaries key changes, and it keeps exactly the summaries with another id. |
| Storage.StorageManager.ClearSummaries | chrome-extension/src/storageManager.ts:77-83 | The summaries key is removed, so the list reads back empty, and the settings are unchanged. |
| Storage.StorageManager.SaveSettings | chrome-extension/src/storageManager.ts:101-109 | Only the settings key changes. The settings read back are the ones saved, and the summaries are unchanged. |
| Storage.StorageManager.UpdateSettings | chrome-extension/src/storageManager.ts:114-122 | The settings become the current ones with the given fields replaced. |
| Storage.StorageManager.IsEnabledForSite | chrome-extension/src/storageManager.ts:127-138 | False when the extension is disabled. Otherwise true exactly when the URL has no hostname or its hostname is not disabled. |
| Storage.StorageManager.ToggleSite | chrome-extension/src/storageManager.ts:143-160 | A URL without a hostname changes nothing. Otherwise only `disabledSites` changes, to the toggled list. |
| Storage.StorageManager.EnableSite | chrome-extension/src/storageManager.ts:165-178 | A URL without a hostname changes nothing. Otherwise only `disabledSites` changes, to the list without the host. |
| Storage.StorageManager.DisableSite | chrome-extension/src/storageManager.ts:183-196 | A URL without a hostname changes nothing. Otherwise only `disabledSites` changes, to the list with the host added once. |
| Validation.ValidateSummaryRequest | backend/src/services/ValidationService.ts:4-31 | The result is valid exactly when it carries no error. |
| Validation.ValidRequest | backend/src/services/ValidationService.ts:4-31 | A request is valid exactly when the content is a string with a non-whitespace character, at most 50000 characters long (50000 itself passes), and the title is a string or falsy. |
| Validation.RequestErrors | backend/src/services/ValidationService.ts:8-30 | Each error is reported exactly when its check is the first to fail. Empty content is reported as missing, not as blank, and over-long blank content as blank. |
| Validation.ValidateUrl | backend/src/services/ValidationService.ts:36-58 | The result is valid exactly when it carries no error. |
| Validation.UrlErrors | backend/src/services/ValidationService.ts:36-58 | A URL is valid exactly when it is a non-empty string that parses and starts with `http://` or `https://`. One that does not parse is malformed whatever its scheme, and one that parses with another scheme has the wrong scheme. |

## Left out

- The Gemini summarisation paths are not modelled: `generateSummary`, `generateAISummary` and
  all of `backend/src/services/SummarizationService.ts`. They are calls to a remote model plus
  parsing of its output. That file embeds a literal API key at line 5, a credential that should
  not be in source control; it is not reproduced here.
- Network and UI code are not modelled: `summarize` and `isServiceAvailable` (fetch and
  timeouts), the backend's JSDOM/Readability extraction, the popup, the content and background
  scripts, the controllers, the routes and the servers.
- The `TextUtils` helpers are parameters with nothing known about them: `cleanText`,
  `isStopWord`, and the `countWords` that `TextUtils` itself defines.
- These environment values are parameters too: `new URL(url).hostname` (`None` where it throws),
  `URL` parsing in `validateUrl`, `toLocaleDateString`, `window.location.href` and `Date.now()`.
- `generateSummaryId` is not modelled: it uses `Date.now` and `Math.random`.
- Text.Lower: `toLowerCase` is modelled for ASCII letters only, while JavaScript lowercases all
  of Unicode. The fixed word lists and URL patterns are ASCII, but title words and keywords are
  page text, so scores can differ when a title or a sentence holds a non-ASCII capital:
  - the local summary's keyword bonus (+3 per keyword): for the title "ÉTUDE" JavaScript finds
    the keyword "étude" in "une Étude", while the model keeps "ÉTUDE" and finds nothing;
  - the fallback summary's title-word bonus (+2 per title word), in the same way;
  - the stop-word test and the `length > 3` test on title words, which see the differently
    lowercased word (U+0130, capital I with a dot, lowercases to two code units);
  - the value-indicator, attribution, action-word and filler-phrase hits, and the frequency
    keywords, only for the few capitals that lowercase to ASCII letters (U+212A KELVIN SIGN
    becomes "k", U+0130 becomes "i" plus a combining dot). Other non-ASCII capitals lowercase
    to non-ASCII letters, which no ASCII pattern contains; before the frequency count
    `[^\w\s]` blanks them in both;
  - not `shouldProcessPage`: the `i` flag of its patterns (without `u`) never matches a non-ASCII
    character to an ASCII one.
- Strings are sequences of code points, while JavaScript lengths count UTF-16 units. The two
  differ only for characters outside the Basic Multilingual Plane.
- Regular expressions are written out as predicates (`NumericAt`, `HasQuote`, `ExtensionAt`,
  the search and admin patterns) and CSS selectors as a datatype. There is no general regex or
  selector engine.
- ContentExtractor.ElementScore: `text.length / 100` is an exact rational, not a double. The
  position thresholds `n * 0.15`, `n * 0.85` and `n * 0.3` are compared exactly as `100i < 15n`,
  `100i > 85n` and `10i < 3n`. The doubles give the same answers for every count below 2000.
- `Array.prototype.sort` is library code: it is modelled as a stable insertion sort on values.
  Every stable sort gives the same order, but not the same number of steps. The in-place
  reordering of `scoredSentences` is modelled on values.
- `cloneNode(true)` and `el.remove()` are modelled on tree values (`Prune`), so there is no
  aliasing and nothing is mutated. In the source, the clone is what keeps the page unchanged.
- The page is a `<head>` and a `<body>` element plus `document.title`. The `<html>` element's
  own attributes are not searched, the body is always present, and tag names are lower case.
- `chrome.storage.local` is a map. Its asynchronous API and the `catch` blocks that log and
  swallow storage errors are not modelled, so every storage operation succeeds. The one visible
  effect of a `catch` that is modelled is a URL without a hostname:
  - `isEnabledForSite` returns true for it;
  - `toggleSite`, `enableSite` and `disableSite` save nothing for it.
- `getSettings`' own `catch` (defaults on a storage error) is not modelled.
- A `Partial<ExtensionSettings>` field that is present but explicitly `undefined` is not
  distinguished from an absent one.
