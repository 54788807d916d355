/** The JavaScript string operations the pipeline is built from, stated on `seq<char>`:
    the `\s` class, `trim`, `split` on a regular expression that matches runs of characters,
    `toLowerCase` (on ASCII letters), `includes`, the whitespace normalisation of the content
    extractor, word counting, `join` and decimal formatting of numbers. */
module Text {

  /** `\s` in an ECMAScript regular expression; `String.prototype.trim` strips the same set
      (WhiteSpace and LineTerminator code points). */
  predicate IsSpace(c: char)
  {
    || c == ' ' || c == '\t' || c == '\n' || c == '\U{000B}' || c == '\U{000C}' || c == '\r'
    || c == '\U{00A0}' || c == '\U{1680}' || ('\U{2000}' <= c <= '\U{200A}')
    || c == '\U{2028}' || c == '\U{2029}' || c == '\U{202F}' || c == '\U{205F}'
    || c == '\U{3000}' || c == '\U{FEFF}'
  }

  /** The sentence terminators of the class `[.!?]`. */
  predicate IsTerminator(c: char)
  {
    c == '.' || c == '!' || c == '?'
  }

  ghost predicate AllSpace(s: string)
  {
    forall i :: 0 <= i < |s| ==> IsSpace(s[i])
  }

  // ---------------------------------------------------------------------------------------
  // trim

  /** How many whitespace characters `s` starts with. */
  function TrimFrom(s: string): (a: nat)
    ensures a <= |s|
    ensures forall i :: 0 <= i < a ==> IsSpace(s[i])
    ensures a == |s| || !IsSpace(s[a])
  {
    if s == [] || !IsSpace(s[0]) then 0 else 1 + TrimFrom(s[1..])
  }

  /** How many whitespace characters `s` ends with. */
  function EndSpaces(s: string): (e: nat)
    ensures e <= |s|
    ensures forall i :: |s| - e <= i < |s| ==> IsSpace(s[i])
    ensures e == |s| || !IsSpace(s[|s| - 1 - e])
  {
    if s == [] || !IsSpace(s[|s| - 1]) then 0
    else
      var init := s[..|s| - 1];
      assert forall i :: 0 <= i < |init| ==> init[i] == s[i];
      1 + EndSpaces(init)
  }

  /** Where the trailing run of whitespace starts; never before `TrimFrom(s)`. */
  function TrimTo(s: string): (b: nat)
    ensures TrimFrom(s) <= b <= |s|
    ensures forall i :: b <= i < |s| ==> IsSpace(s[i])
    ensures b == TrimFrom(s) || !IsSpace(s[b - 1])
  {
    var e := |s| - EndSpaces(s);
    if e < TrimFrom(s) then TrimFrom(s) else e
  }

  /** `trimStart`: drops the leading run of whitespace, and nothing else. */
  function TrimStart(s: string): (r: string)
    ensures |r| <= |s|
    ensures r == [] || !IsSpace(r[0])
  {
    s[TrimFrom(s)..]
  }

  /** `trim`: the slice between the leading and the trailing run of whitespace; empty exactly
      when the input is all whitespace. */
  function Trim(s: string): (r: string)
    ensures |r| <= |s| && r == s[TrimFrom(s)..TrimTo(s)]
    ensures r == [] || (!IsSpace(r[0]) && !IsSpace(r[|r| - 1]))
    ensures r == [] <==> AllSpace(s)
  {
    s[TrimFrom(s)..TrimTo(s)]
  }

  /** What `trim` drops on either side is whitespace. */
  lemma {:induction false} TrimIsSlice(s: string)
    ensures AllSpace(s[..TrimFrom(s)]) && AllSpace(s[TrimTo(s)..])
  {
  }

  /** Trimming an already trimmed string changes nothing. */
  lemma {:induction false} TrimIdempotent(s: string)
    ensures Trim(Trim(s)) == Trim(s)
  {
    var r := Trim(s);
    if r != [] {
      assert TrimFrom(r) == 0;
      assert TrimTo(r) == |r|;
    }
  }

  // ---------------------------------------------------------------------------------------
  // characters removed, concatenation

  /** `s` with every character satisfying `drop` taken out, order kept. */
  function RemoveAll(s: string, drop: char -> bool): (r: string)
    ensures |r| <= |s|
  {
    if s == [] then [] else (if drop(s[0]) then [] else [s[0]]) + RemoveAll(s[1..], drop)
  }

  lemma {:induction false} RemoveAllAppend(a: string, b: string, drop: char -> bool)
    ensures RemoveAll(a + b, drop) == RemoveAll(a, drop) + RemoveAll(b, drop)
  {
    if a != [] {
      assert (a + b)[0] == a[0];
      assert (a + b)[1..] == a[1..] + b;
      RemoveAllAppend(a[1..], b, drop);
    } else {
      assert a + b == b;
    }
  }

  lemma {:induction false} RemoveAllOfDropped(s: string, drop: char -> bool)
    requires forall i :: 0 <= i < |s| ==> drop(s[i])
    ensures RemoveAll(s, drop) == []
  {
    if s != [] {
      RemoveAllOfDropped(s[1..], drop);
      assert drop(s[0]);
    }
  }

  /** The pieces joined with nothing between them. */
  function Concat(pieces: seq<string>): string
  {
    if pieces == [] then [] else pieces[0] + Concat(pieces[1..])
  }

  // ---------------------------------------------------------------------------------------
  // split on runs

  /** `s.split(re)` where `re` matches maximal non-empty runs of characters satisfying `sep`
      (`/[.!?]+/`, `/\s+/`): the pieces between runs, with an empty piece before a leading run
      and after a trailing one, and `[""]` for the empty string. No piece holds a separator,
      and the pieces put together are the input with its separators taken out. */
  function SplitRuns(s: string, sep: char -> bool): (r: seq<string>)
    ensures |r| >= 1
    ensures r[0] == [] <==> (s == [] || sep(s[0]))
    ensures SepFree(r, sep)
    ensures Concat(r) == RemoveAll(s, sep)
  {
    if s == [] then [""]
    else if sep(s[0]) then
      var rest := SplitRuns(s[1..], sep);
      if |s| > 1 && sep(s[1]) then rest
      else
        PrependEmpty(rest, sep);
        [""] + rest
    else
      var rest := SplitRuns(s[1..], sep);
      ExtendFirst(s[0], rest, sep);
      [[s[0]] + rest[0]] + rest[1..]
  }

  /** No piece holds a separator. */
  predicate SepFree(pieces: seq<string>, sep: char -> bool)
  {
    forall k, i :: 0 <= k < |pieces| && 0 <= i < |pieces[k]| ==> !sep(pieces[k][i])
  }

  lemma {:induction false} PrependEmpty(rest: seq<string>, sep: char -> bool)
    requires SepFree(rest, sep)
    ensures SepFree([""] + rest, sep) && Concat([""] + rest) == Concat(rest)
  {
    assert ([""] + rest)[1..] == rest;
    forall k, i | 0 <= k < |[""] + rest| && 0 <= i < |([""] + rest)[k]|
      ensures !sep(([""] + rest)[k][i])
    {
      assert k > 0 && ([""] + rest)[k] == rest[k - 1];
    }
  }

  lemma {:induction false} ExtendFirst(c: char, rest: seq<string>, sep: char -> bool)
    requires |rest| >= 1 && !sep(c) && SepFree(rest, sep)
    ensures var r := [[c] + rest[0]] + rest[1..];
            SepFree(r, sep) && Concat(r) == [c] + Concat(rest)
  {
    ExtendFirstConcat(c, rest);
    ExtendFirstSepFree(c, rest, sep);
  }

  lemma {:induction false} ExtendFirstConcat(c: char, rest: seq<string>)
    requires |rest| >= 1
    ensures Concat([[c] + rest[0]] + rest[1..]) == [c] + Concat(rest)
  {
    var r := [[c] + rest[0]] + rest[1..];
    assert r[0] == [c] + rest[0];
    assert r[1..] == rest[1..];
    assert Concat(r) == r[0] + Concat(r[1..]);
    assert Concat(rest) == rest[0] + Concat(rest[1..]);
    var tail := Concat(rest[1..]);
    assert ([c] + rest[0]) + tail == [c] + (rest[0] + tail);
  }

  lemma {:induction false} ExtendFirstSepFree(c: char, rest: seq<string>, sep: char -> bool)
    requires |rest| >= 1 && !sep(c) && SepFree(rest, sep)
    ensures SepFree([[c] + rest[0]] + rest[1..], sep)
  {
    var r := [[c] + rest[0]] + rest[1..];
    forall k, i | 0 <= k < |r| && 0 <= i < |r[k]| ensures !sep(r[k][i]) {
      if k == 0 {
        assert r[0] == [c] + rest[0];
        if i > 0 {
          assert r[0][i] == rest[0][i - 1];
        }
      } else {
        assert r[k] == rest[k];
      }
    }
  }

  /** `s.split(/\s+/)`. */
  function SplitWhitespace(s: string): seq<string>
  {
    SplitRuns(s, IsSpace)
  }

  /** `s.split(/[.!?]+/)`. */
  function SplitSentences(s: string): seq<string>
  {
    SplitRuns(s, IsTerminator)
  }

  /** The pieces of any split are made of characters of the input, so a property every input
      character has holds of every character of every piece. */
  lemma {:induction false} SplitRunsKeeps(s: string, sep: char -> bool, p: char -> bool)
    requires forall i :: 0 <= i < |s| ==> p(s[i])
    ensures forall k, i :: 0 <= k < |SplitRuns(s, sep)| && 0 <= i < |SplitRuns(s, sep)[k]| ==>
              p(SplitRuns(s, sep)[k][i])
  {
    if s != [] {
      SplitRunsKeeps(s[1..], sep, p);
      var rest := SplitRuns(s[1..], sep);
      var r := SplitRuns(s, sep);
      if sep(s[0]) {
        if !(|s| > 1 && sep(s[1])) {
          assert r == [""] + rest;
          forall k, i | 0 <= k < |r| && 0 <= i < |r[k]| ensures p(r[k][i]) {
            assert k > 0 && r[k] == rest[k - 1];
            assert p(rest[k - 1][i]);
          }
        }
      } else {
        assert r == [[s[0]] + rest[0]] + rest[1..];
        forall k, i | 0 <= k < |r| && 0 <= i < |r[k]| ensures p(r[k][i]) {
          if k == 0 && i == 0 {
            assert r[0][0] == s[0] && p(s[0]);
          } else if k == 0 {
            assert r[0][i] == rest[0][i - 1];
          } else if k > 0 {
            assert r[k] == rest[k];
          }
        }
      }
    }
  }

  /** `s.filter(keep)`. */
  function Filter<T(!new)>(s: seq<T>, keep: T -> bool): (r: seq<T>)
    ensures |r| <= |s|
    ensures forall x :: x in r <==> x in s && keep(x)
  {
    if s == [] then []
    else (if keep(s[0]) then [s[0]] else []) + Filter(s[1..], keep)
  }

  /** `a` is `b` with some elements left out, the rest in their order. */
  ghost predicate IsSubsequence<T>(a: seq<T>, b: seq<T>)
    decreases |b|
  {
    a == [] || (b != [] && (if a[0] == b[0] then IsSubsequence(a[1..], b[1..]) else IsSubsequence(a, b[1..])))
  }

  /** Filtering keeps the relative order of what it keeps. */
  lemma {:induction false} FilterKeepsOrder<T(!new)>(s: seq<T>, keep: T -> bool)
    ensures IsSubsequence(Filter(s, keep), s)
  {
    if s != [] {
      FilterKeepsOrder(s[1..], keep);
      if keep(s[0]) {
        assert Filter(s, keep)[0] == s[0] && Filter(s, keep)[1..] == Filter(s[1..], keep);
      } else {
        var r := Filter(s, keep);
        assert r == Filter(s[1..], keep);
        if r != [] {
          assert keep(r[0]);
        }
      }
    }
  }

  /** A list whose every element is kept comes back unchanged. */
  lemma {:induction false} FilterKeepsAll<T(!new)>(s: seq<T>, keep: T -> bool)
    requires forall k :: 0 <= k < |s| ==> keep(s[k])
    ensures Filter(s, keep) == s
  {
    if s != [] {
      FilterKeepsAll(s[1..], keep);
      assert [s[0]] + s[1..] == s;
    }
  }

  lemma {:induction false} FilterAppendOne<T(!new)>(s: seq<T>, x: T, keep: T -> bool)
    requires !keep(x)
    ensures Filter(s + [x], keep) == Filter(s, keep)
  {
    if s == [] {
      assert [] + [x] == [x];
    } else {
      assert (s + [x])[1..] == s[1..] + [x];
      FilterAppendOne(s[1..], x, keep);
    }
  }

  /** `.filter((s) => s.trim().length > n)`: the pieces longer than `n` once trimmed, in order. */
  function KeepLonger(pieces: seq<string>, n: nat): (r: seq<string>)
    ensures |r| <= |pieces|
    ensures forall x :: x in r <==> x in pieces && |Trim(x)| > n
    ensures forall k :: 0 <= k < |r| ==> |Trim(r[k])| > n
  {
    Filter(pieces, (x: string) => |Trim(x)| > n)
  }

  /** `.map((s) => s.trim())`. */
  function TrimEach(pieces: seq<string>): (r: seq<string>)
    ensures |r| == |pieces| && forall k :: 0 <= k < |r| ==> r[k] == Trim(pieces[k])
  {
    seq(|pieces|, k requires 0 <= k < |pieces| => Trim(pieces[k]))
  }

  /** How many entries of `terms` occur in `s` (`terms.forEach((t) => { if (s.includes(t)) … })`);
      an entry listed twice counts twice. Counted over the prefix, as the loop goes. */
  function Hits(s: string, terms: seq<string>): (n: nat)
    ensures n <= |terms|
  {
    if terms == [] then 0
    else Hits(s, terms[..|terms| - 1]) + (if Contains(s, terms[|terms| - 1]) then 1 else 0)
  }

  /** Hits over two lists add up. */
  lemma {:induction false} HitsAppend(s: string, a: seq<string>, b: seq<string>)
    ensures Hits(s, a + b) == Hits(s, a) + Hits(s, b)
  {
    if b == [] {
      assert a + b == a;
    } else {
      HitsAppend(s, a, b[..|b| - 1]);
      assert (a + b)[..|a + b| - 1] == a + b[..|b| - 1];
    }
  }

  /** Every entry of `terms` occurs in `s` exactly when all of them are hits. */
  lemma {:induction false} HitsAll(s: string, terms: seq<string>)
    ensures Hits(s, terms) == |terms| <==> forall k :: 0 <= k < |terms| ==> Contains(s, terms[k])
  {
    if terms != [] {
      var init := terms[..|terms| - 1];
      HitsAll(s, init);
      assert forall k :: 0 <= k < |init| ==> init[k] == terms[k];
    }
  }

  // ---------------------------------------------------------------------------------------
  // toLowerCase, includes, startsWith

  /** `toLowerCase` on one character, for the ASCII letters. */
  function LowerChar(c: char): char
  {
    if 'A' <= c <= 'Z' then (c as int + 32) as char else c
  }

  function Lower(s: string): (r: string)
    ensures |r| == |s|
  {
    seq(|s|, i requires 0 <= i < |s| => LowerChar(s[i]))
  }

  predicate IsLowerCase(s: string)
  {
    forall i :: 0 <= i < |s| ==> !('A' <= s[i] <= 'Z')
  }

  lemma {:induction false} LowerIsLowerCase(s: string)
    ensures IsLowerCase(Lower(s))
  {
  }

  /** Splitting lowercase text on whitespace gives lowercase words. */
  lemma {:induction false} SplitWhitespaceLowerCase(s: string)
    requires IsLowerCase(s)
    ensures forall w :: w in SplitWhitespace(s) ==> IsLowerCase(w)
  {
    SplitRunsKeeps(s, IsSpace, (c: char) => !('A' <= c <= 'Z'));
  }

  /** `.map((w) => w.toLowerCase())`. */
  function LowerEach(words: seq<string>): (r: seq<string>)
    ensures |r| == |words| && forall k :: 0 <= k < |r| ==> r[k] == Lower(words[k])
  {
    seq(|words|, k requires 0 <= k < |words| => Lower(words[k]))
  }

  /** `s.startsWith(p)`. */
  predicate StartsWith(s: string, p: string)
  {
    |p| <= |s| && s[..|p|] == p
  }

  ghost predicate OccursAt(s: string, p: string, i: int)
  {
    0 <= i <= |s| - |p| && s[i..i + |p|] == p
  }

  /** `s.includes(p)`: `p` occurs somewhere in `s` as a contiguous piece. */
  function Contains(s: string, p: string): (b: bool)
    ensures b <==> exists i :: OccursAt(s, p, i)
  {
    if StartsWith(s, p) then
      assert OccursAt(s, p, 0);
      true
    else if |s| > |p| then
      var b := Contains(s[1..], p);
      assert b ==> exists i :: OccursAt(s, p, i) by {
        if b {
          var i :| OccursAt(s[1..], p, i);
          assert s[1..][i..i + |p|] == s[i + 1..i + 1 + |p|];
          assert OccursAt(s, p, i + 1);
        }
      }
      assert (exists i :: OccursAt(s, p, i)) ==> b by {
        if exists i :: OccursAt(s, p, i) {
          var i :| OccursAt(s, p, i);
          assert i != 0;
          assert s[1..][i - 1..i - 1 + |p|] == s[i..i + |p|];
          assert OccursAt(s[1..], p, i - 1);
        }
      }
      b
    else
      assert forall i :: OccursAt(s, p, i) ==> i == 0;
      false
  }

  /** A piece of a string is a piece of any longer string around it. */
  lemma {:induction false} ContainsInLonger(a: string, s: string, b: string, p: string)
    requires Contains(s, p)
    ensures Contains(a + s + b, p)
  {
    var i :| OccursAt(s, p, i);
    assert (a + s + b)[|a| + i..|a| + i + |p|] == s[i..i + |p|];
    assert OccursAt(a + s + b, p, |a| + i);
  }

  // ---------------------------------------------------------------------------------------
  // whitespace normalisation

  /** Whitespace in `s` is single plain spaces. */
  predicate SingleSpaced(s: string)
  {
    && (forall i :: 0 <= i < |s| && IsSpace(s[i]) ==> s[i] == ' ')
    && (forall i :: 0 <= i < |s| - 1 ==> !(IsSpace(s[i]) && IsSpace(s[i + 1])))
  }

  /** What the normalisation produces: single plain spaces between words, none at the ends. */
  predicate Normalized(s: string)
  {
    (s == [] || (!IsSpace(s[0]) && !IsSpace(s[|s| - 1]))) && SingleSpaced(s)
  }

  /** `s.replace(/\s+/g, " ")`: every maximal run of whitespace becomes one space. */
  function CollapseSpaces(s: string): (r: string)
    ensures |r| > 0 <==> |s| > 0
    ensures |s| > 0 ==> (IsSpace(r[0]) <==> IsSpace(s[0]))
    ensures forall i :: 0 <= i < |r| && IsSpace(r[i]) ==> r[i] == ' '
    ensures forall i :: 0 <= i < |r| - 1 ==> !(IsSpace(r[i]) && IsSpace(r[i + 1]))
  {
    if s == [] then []
    else if IsSpace(s[0]) then " " + CollapseSpaces(TrimStart(s))
    else [s[0]] + CollapseSpaces(s[1..])
  }

  /** Collapsing keeps every non-whitespace character, in order. */
  lemma {:induction false} CollapseKeepsText(s: string)
    ensures RemoveAll(CollapseSpaces(s), IsSpace) == RemoveAll(s, IsSpace)
    decreases |s|
  {
    if s == [] {
    } else if IsSpace(s[0]) {
      var t := TrimStart(s);
      var c := CollapseSpaces(t);
      CollapseKeepsText(t);
      var p := s[..|s| - |t|];
      assert s == p + t;
      RemoveAllOfDropped(p, IsSpace);
      RemoveAllAppend(p, t, IsSpace);
      assert (" " + c)[1..] == c;
    } else {
      var c := CollapseSpaces(s[1..]);
      CollapseKeepsText(s[1..]);
      assert ([s[0]] + c)[1..] == c;
    }
  }

  /** The normalisation at the end of the content extractor's `cleanContent`:
      `.replace(/\s+/g, " ").replace(/\n\s*\n/g, "\n").trim()`. After the first replacement no
      line feed is left, so the second replacement never matches and is not written out
      (`NormalizeLeavesNoLineFeed`); `NormalizeSpaceShape` says what the result looks like. */
  function NormalizeSpace(s: string): string
  {
    Trim(CollapseSpaces(s))
  }

  /** The result of the normalisation is normalised and has the same non-whitespace characters
      in the same order as the input. */
  lemma {:induction false} NormalizeSpaceShape(s: string)
    ensures Normalized(NormalizeSpace(s))
    ensures RemoveAll(NormalizeSpace(s), IsSpace) == RemoveAll(s, IsSpace)
  {
    var c := CollapseSpaces(s);
    assert SingleSpaced(c);
    TrimKeepsSpacing(c);
    CollapseKeepsText(s);
    NormalizeKeepsText(c);
  }

  lemma {:induction false} TrimKeepsSpacing(c: string)
    requires SingleSpaced(c)
    ensures SingleSpaced(Trim(c))
  {
    SliceKeepsSpacing(c, TrimFrom(c), TrimTo(c));
  }

  /** A slice of a single-spaced string is single-spaced. */
  lemma {:induction false} SliceKeepsSpacing(c: string, a: nat, b: nat)
    requires a <= b <= |c|
    requires SingleSpaced(c)
    ensures SingleSpaced(c[a..b])
  {
    var r := c[a..b];
    forall i | 0 <= i < |r| - 1 ensures !(IsSpace(r[i]) && IsSpace(r[i + 1])) {
      assert r[i] == c[a + i] && r[i + 1] == c[a + i + 1];
    }
  }

  lemma {:induction false} NormalizeKeepsText(c: string)
    ensures RemoveAll(Trim(c), IsSpace) == RemoveAll(c, IsSpace)
  {
    var r := Trim(c);
    TrimIsSlice(c);
    var pre, post := c[..TrimFrom(c)], c[TrimTo(c)..];
    assert c == pre + r + post;
    RemoveAllAppend(pre, r, IsSpace);
    RemoveAllAppend(pre + r, post, IsSpace);
    RemoveAllOfDropped(pre, IsSpace);
    RemoveAllOfDropped(post, IsSpace);
  }

  lemma {:induction false} NormalizeLeavesNoLineFeed(s: string)
    ensures forall i :: 0 <= i < |CollapseSpaces(s)| ==> CollapseSpaces(s)[i] != '\n'
  {
  }

  // ---------------------------------------------------------------------------------------
  // word counting

  /** The pieces that are not empty (`.filter((word) => word.length > 0)`). */
  function NonEmpty(pieces: seq<string>): (r: seq<string>)
    ensures |r| <= |pieces|
    ensures forall k :: 0 <= k < |r| ==> r[k] != []
  {
    if pieces == [] then []
    else (if pieces[0] == [] then [] else [pieces[0]]) + NonEmpty(pieces[1..])
  }

  /** Filtering out empty pieces from pieces none of which is empty changes nothing. */
  lemma {:induction false} NonEmptyKeepsAll(pieces: seq<string>)
    requires forall k :: 0 <= k < |pieces| ==> pieces[k] != []
    ensures NonEmpty(pieces) == pieces
  {
    if pieces != [] {
      NonEmptyKeepsAll(pieces[1..]);
      assert pieces == [pieces[0]] + pieces[1..];
    }
  }

  /** `countWords`: `text.split(/\s+/).filter((word) => word.length > 0).length`. */
  function CountWords(s: string): nat
  {
    |NonEmpty(SplitWhitespace(s))|
  }

  /** An independent count: the number of maximal runs of non-whitespace characters, counted
      at the character that ends each run. */
  function Runs(s: string): nat
  {
    if s == [] then 0
    else (if !IsSpace(s[0]) && (|s| == 1 || IsSpace(s[1])) then 1 else 0) + Runs(s[1..])
  }

  /** `countWords` counts exactly the maximal runs of non-whitespace characters, so it is 0 for
      the empty or all-whitespace string. */
  lemma {:induction false} CountWordsIsRuns(s: string)
    ensures CountWords(s) == Runs(s)
  {
    if s == [] {
    } else if IsSpace(s[0]) {
      CountWordsIsRuns(s[1..]);
      if |s| > 1 && IsSpace(s[1]) {
      } else {
        assert SplitWhitespace(s) == [""] + SplitWhitespace(s[1..]);
        assert NonEmpty([""] + SplitWhitespace(s[1..])) == NonEmpty(SplitWhitespace(s[1..]));
      }
    } else {
      CountWordsIsRuns(s[1..]);
      var rest := SplitWhitespace(s[1..]);
      var r := SplitWhitespace(s);
      assert r == [[s[0]] + rest[0]] + rest[1..];
      assert NonEmpty(r) == [r[0]] + NonEmpty(rest[1..]);
      assert NonEmpty(rest) == (if rest[0] == [] then [] else [rest[0]]) + NonEmpty(rest[1..]);
    }
  }

  lemma {:induction false} CountWordsEmpty()
    ensures CountWords("") == 0
  {
  }

  // ---------------------------------------------------------------------------------------
  // join, split on one character, decimals

  /** `parts.join(sep)`. */
  function Join(parts: seq<string>, sep: string): string
  {
    if parts == [] then []
    else if |parts| == 1 then parts[0]
    else parts[0] + sep + Join(parts[1..], sep)
  }

  /** `s.split(c)` for a one-character separator: the pieces between occurrences of `c`. */
  function SplitOn(s: string, c: char): (r: seq<string>)
    ensures |r| >= 1
  {
    if s == [] then [""]
    else
      var rest := SplitOn(s[1..], c);
      if s[0] == c then [""] + rest else [[s[0]] + rest[0]] + rest[1..]
  }

  lemma {:induction false} SplitOnNoSeparator(s: string, c: char)
    requires forall i :: 0 <= i < |s| ==> s[i] != c
    ensures SplitOn(s, c) == [s]
  {
    if s != [] {
      SplitOnNoSeparator(s[1..], c);
      assert [s[0]] + s[1..] == s;
    }
  }

  lemma {:induction false} SplitOnAppend(a: string, b: string, c: char)
    requires forall i :: 0 <= i < |a| ==> a[i] != c
    ensures SplitOn(a + [c] + b, c) == [a] + SplitOn(b, c)
  {
    if a == [] {
      assert ([] + [c] + b)[1..] == b;
    } else {
      assert (a + [c] + b)[1..] == a[1..] + [c] + b;
      SplitOnAppend(a[1..], b, c);
      assert [a[0]] + a[1..] == a;
    }
  }

  /** Lines joined with a line feed split back into the same lines, as long as no line holds a
      line feed of its own. */
  lemma {:induction false} SplitJoinRoundTrip(lines: seq<string>, c: char)
    requires |lines| >= 1
    requires forall k, i :: 0 <= k < |lines| && 0 <= i < |lines[k]| ==> lines[k][i] != c
    ensures SplitOn(Join(lines, [c]), c) == lines
  {
    if |lines| == 1 {
      SplitOnNoSeparator(lines[0], c);
    } else {
      SplitJoinRoundTrip(lines[1..], c);
      SplitOnAppend(lines[0], Join(lines[1..], [c]), c);
    }
  }

  function DigitChar(d: nat): char
    requires d < 10
  {
    ('0' as int + d) as char
  }

  /** `String(n)` for a non-negative integer: its decimal digits, without leading zeros. */
  function NatToString(n: nat): (r: string)
    ensures |r| >= 1
    ensures forall i :: 0 <= i < |r| ==> '0' <= r[i] <= '9'
  {
    if n < 10 then [DigitChar(n)] else NatToString(n / 10) + [DigitChar(n % 10)]
  }

  /** Reads a string of decimal digits back as a number. */
  function ParseDecimal(s: string): nat
    requires forall i :: 0 <= i < |s| ==> '0' <= s[i] <= '9'
  {
    if s == [] then 0 else 10 * ParseDecimal(s[..|s| - 1]) + (s[|s| - 1] as int - '0' as int)
  }

  lemma {:induction false} DecimalRoundTrip(n: nat)
    ensures ParseDecimal(NatToString(n)) == n
  {
    if n >= 10 {
      DecimalRoundTrip(n / 10);
      var r := NatToString(n);
      assert r[..|r| - 1] == NatToString(n / 10);
    }
  }
}
