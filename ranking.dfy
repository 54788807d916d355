/** Ranking the way both summarisers and the keyword extractor do it: a stable sort by
    descending key (`array.sort((a, b) => key(b) - key(a))`), a prefix of the sorted list
    (`.slice(0, k)`), and for the summarisers a second sort of that prefix by ascending
    original index (`.sort((a, b) => a.index - b.index)`).

    `Array.prototype.sort` is a library routine whose code is not part of the repository; it is
    stable, and every stable sort puts a given list in the same order, so it is modelled here by
    a stable insertion sort on values. */
module Ranking {

  function Min(a: int, b: int): int
  {
    if a <= b then a else b
  }

  /** Where `x` goes: in front of the first element whose key is at most its own. */
  function InsertPos<T>(x: T, s: seq<T>, key: T -> int): (p: nat)
    ensures p <= |s|
    ensures forall i :: 0 <= i < p ==> key(s[i]) > key(x)
    ensures p < |s| ==> key(x) >= key(s[p])
  {
    if s == [] || key(x) >= key(s[0]) then 0 else 1 + InsertPos(x, s[1..], key)
  }

  function Insert<T>(x: T, s: seq<T>, key: T -> int): (r: seq<T>)
    ensures |r| == |s| + 1
  {
    if s == [] || key(x) >= key(s[0]) then [x] + s
    else [s[0]] + Insert(x, s[1..], key)
  }

  /** A stable sort by descending key. */
  function SortDesc<T>(s: seq<T>, key: T -> int): (r: seq<T>)
    ensures |r| == |s|
  {
    if s == [] then [] else Insert(s[0], SortDesc(s[1..], key), key)
  }

  /** The key function `x => -f(x)`: sorting by it descending sorts by `f` ascending. */
  function NegKey<T>(f: T -> int): T -> int
  {
    (x: T) => -f(x)
  }

  /** The summarisers' selection: the `k` best by descending key, stable on ties, then put back
      in ascending order of `idx`. */
  function TopInOrder<T>(s: seq<T>, k: nat, key: T -> int, idx: T -> int): seq<T>
  {
    var ranked := SortDesc(s, key);
    SortDesc(ranked[..Min(k, |ranked|)], NegKey(idx))
  }

  // ---------------------------------------------------------------------------------------
  // what the sort promises

  ghost predicate NonIncreasing<T>(s: seq<T>, key: T -> int)
  {
    forall i, j :: 0 <= i < j < |s| ==> key(s[i]) >= key(s[j])
  }

  ghost predicate DistinctBy<T, U>(s: seq<T>, f: T -> U)
  {
    forall i, j :: 0 <= i < j < |s| ==> f(s[i]) != f(s[j])
  }

  ghost predicate AscendingBy<T>(s: seq<T>, idx: T -> int)
  {
    forall i, j :: 0 <= i < j < |s| ==> idx(s[i]) < idx(s[j])
  }

  /** `x` ranks before `y`: a higher key, or the same key and an earlier position. */
  ghost predicate RankedBefore<T>(x: T, y: T, key: T -> int, idx: T -> int)
  {
    key(x) > key(y) || (key(x) == key(y) && idx(x) < idx(y))
  }

  ghost predicate RankSorted<T>(s: seq<T>, key: T -> int, idx: T -> int)
  {
    forall i, j :: 0 <= i < j < |s| ==> RankedBefore(s[i], s[j], key, idx)
  }

  /** The elements of `s` whose key is `v`, in their order in `s`. */
  function WithKey<T>(s: seq<T>, key: T -> int, v: int): seq<T>
  {
    if s == [] then [] else (if key(s[0]) == v then [s[0]] else []) + WithKey(s[1..], key, v)
  }

  lemma {:induction false} InsertPermutes<T>(x: T, s: seq<T>, key: T -> int)
    ensures multiset(Insert(x, s, key)) == multiset(s) + multiset{x}
  {
    if s != [] && key(x) < key(s[0]) {
      InsertPermutes(x, s[1..], key);
      assert s == [s[0]] + s[1..];
    }
  }

  /** The sort only reorders. */
  lemma {:induction false} SortPermutes<T>(s: seq<T>, key: T -> int)
    ensures multiset(SortDesc(s, key)) == multiset(s)
  {
    if s != [] {
      SortPermutes(s[1..], key);
      InsertPermutes(s[0], SortDesc(s[1..], key), key);
      assert s == [s[0]] + s[1..];
    }
  }

  lemma {:induction false} InsertAt<T>(x: T, s: seq<T>, key: T -> int)
    ensures var p := InsertPos(x, s, key);
            Insert(x, s, key) == s[..p] + [x] + s[p..]
  {
    if s == [] || key(x) >= key(s[0]) {
      assert s[..0] == [] && s[0..] == s;
    } else {
      var t := s[1..];
      var q := InsertPos(x, t, key);
      InsertAt(x, t, key);
      assert InsertPos(x, s, key) == q + 1;
      assert Insert(x, s, key) == [s[0]] + (t[..q] + [x] + t[q..]);
      assert s[..q + 1] == [s[0]] + t[..q];
      assert s[q + 1..] == t[q..];
    }
  }

  lemma {:induction false} InsertIndex<T>(x: T, s: seq<T>, key: T -> int)
    ensures var p := InsertPos(x, s, key);
            var r := Insert(x, s, key);
            forall i :: 0 <= i < |r| ==> r[i] == if i < p then s[i] else if i == p then x else s[i - 1]
  {
    InsertAt(x, s, key);
  }

  lemma InsertNonIncreasing<T>(x: T, s: seq<T>, key: T -> int)
    requires NonIncreasing(s, key)
    ensures NonIncreasing(Insert(x, s, key), key)
  {
    InsertIndex(x, s, key);
  }

  lemma {:induction false} InsertDistinctBy<T, U>(x: T, s: seq<T>, key: T -> int, f: T -> U)
    requires DistinctBy(s, f)
    requires forall i :: 0 <= i < |s| ==> f(s[i]) != f(x)
    ensures DistinctBy(Insert(x, s, key), f)
  {
    if s == [] || key(x) >= key(s[0]) {
      var r := [x] + s;
      forall i, j | 0 <= i < j < |r| ensures f(r[i]) != f(r[j]) {
        if i > 0 {
          assert r[i] == s[i - 1] && r[j] == s[j - 1];
        }
      }
    } else {
      var rest := Insert(x, s[1..], key);
      InsertDistinctBy(x, s[1..], key, f);
      InsertPermutes(x, s[1..], key);
      var r := [s[0]] + rest;
      forall i, j | 0 <= i < j < |r| ensures f(r[i]) != f(r[j]) {
        if i == 0 {
          assert r[j] in multiset(s[1..]) + multiset{x};
          if r[j] != x {
            var m :| 0 <= m < |s[1..]| && s[1..][m] == r[j];
            assert s[m + 1] == r[j];
          }
        } else {
          assert r[i] == rest[i - 1] && r[j] == rest[j - 1];
        }
      }
    }
  }

  lemma {:induction false} InsertElem<T>(x: T, s: seq<T>, key: T -> int, i: nat)
    requires i <= |s|
    ensures var p := InsertPos(x, s, key);
            Insert(x, s, key)[i] == if i < p then s[i] else if i == p then x else s[i - 1]
  {
    InsertAt(x, s, key);
  }

  lemma {:induction false} InsertRankSorted<T>(x: T, s: seq<T>, key: T -> int, idx: T -> int)
    requires RankSorted(s, key, idx)
    requires forall i :: 0 <= i < |s| ==> idx(x) < idx(s[i])
    ensures RankSorted(Insert(x, s, key), key, idx)
  {
    var p := InsertPos(x, s, key);
    var r := Insert(x, s, key);
    forall i, j | 0 <= i < j < |r| ensures RankedBefore(r[i], r[j], key, idx) {
      InsertElem(x, s, key, i);
      InsertElem(x, s, key, j);
      if j < p {
        assert RankedBefore(s[i], s[j], key, idx);
      } else if j == p {
        assert key(s[i]) > key(x);
      } else if i < p {
        assert RankedBefore(s[i], s[j - 1], key, idx);
      } else if i == p {
        assert key(x) >= key(s[p]) && idx(x) < idx(s[j - 1]);
        assert p == j - 1 || RankedBefore(s[p], s[j - 1], key, idx);
      } else {
        assert RankedBefore(s[i - 1], s[j - 1], key, idx);
      }
    }
  }

  lemma {:induction false} WithKeyAppend<T>(a: seq<T>, b: seq<T>, key: T -> int, v: int)
    ensures WithKey(a + b, key, v) == WithKey(a, key, v) + WithKey(b, key, v)
  {
    if a == [] {
      assert a + b == b;
    } else {
      var h := if key(a[0]) == v then [a[0]] else [];
      var ab := a + b;
      assert ab[0] == a[0];
      assert ab[1..] == a[1..] + b;
      assert WithKey(ab, key, v) == h + WithKey(a[1..] + b, key, v);
      assert WithKey(a, key, v) == h + WithKey(a[1..], key, v);
      WithKeyAppend(a[1..], b, key, v);
    }
  }

  lemma {:induction false} WithKeySingle<T>(x: T, key: T -> int, v: int)
    ensures WithKey([x], key, v) == if key(x) == v then [x] else []
  {
    assert [x][1..] == [];
  }

  lemma {:induction false} WithKeyAbsent<T>(s: seq<T>, key: T -> int, v: int)
    requires forall i :: 0 <= i < |s| ==> key(s[i]) != v
    ensures WithKey(s, key, v) == []
  {
    if s != [] {
      WithKeyAbsent(s[1..], key, v);
    }
  }

  lemma {:induction false} InsertWithKey<T>(x: T, s: seq<T>, key: T -> int, v: int)
    ensures WithKey(Insert(x, s, key), key, v) == WithKey([x], key, v) + WithKey(s, key, v)
  {
    if s == [] || key(x) >= key(s[0]) {
      WithKeyAppend([x], s, key, v);
    } else {
      var rest := Insert(x, s[1..], key);
      InsertWithKey(x, s[1..], key, v);
      WithKeyAppend([s[0]], rest, key, v);
      WithKeyAppend([s[0]], s[1..], key, v);
      assert s == [s[0]] + s[1..];
      WithKeySingle(x, key, v);
      WithKeySingle(s[0], key, v);
    }
  }

  /** The sort puts keys in non-increasing order. */
  lemma {:induction false} SortNonIncreasing<T>(s: seq<T>, key: T -> int)
    ensures NonIncreasing(SortDesc(s, key), key)
  {
    if s != [] {
      SortNonIncreasing(s[1..], key);
      InsertNonIncreasing(s[0], SortDesc(s[1..], key), key);
    }
  }

  /** The sort is stable: the elements sharing any one key keep their relative order. */
  lemma {:induction false} SortStable<T>(s: seq<T>, key: T -> int, v: int)
    ensures WithKey(SortDesc(s, key), key, v) == WithKey(s, key, v)
  {
    if s != [] {
      var rest := SortDesc(s[1..], key);
      SortStable(s[1..], key, v);
      InsertWithKey(s[0], rest, key, v);
      assert SortDesc(s, key) == Insert(s[0], rest, key);
      WithKeyAppend([s[0]], s[1..], key, v);
      assert s == [s[0]] + s[1..];
    }
  }

  /** Sorting only reorders: a list whose elements differ under `f` still does afterwards. */
  lemma {:induction false} SortDistinctBy<T, U>(s: seq<T>, key: T -> int, f: T -> U)
    requires DistinctBy(s, f)
    ensures DistinctBy(SortDesc(s, key), f)
  {
    if s != [] {
      var rest := SortDesc(s[1..], key);
      SortDistinctBy(s[1..], key, f);
      SortPermutes(s[1..], key);
      forall i | 0 <= i < |rest| ensures f(rest[i]) != f(s[0]) {
        assert rest[i] in multiset(s[1..]);
        var j :| 0 <= j < |s[1..]| && s[1..][j] == rest[i];
        assert s[j + 1] == rest[i];
      }
      InsertDistinctBy(s[0], rest, key, f);
    }
  }

  /** On a list in ascending `idx` order, the stable sort orders by descending key and, among
      equal keys, by ascending `idx`. */
  lemma {:induction false} SortRanks<T>(s: seq<T>, key: T -> int, idx: T -> int)
    requires AscendingBy(s, idx)
    ensures RankSorted(SortDesc(s, key), key, idx)
  {
    if s != [] {
      var rest := SortDesc(s[1..], key);
      SortRanks(s[1..], key, idx);
      SortPermutes(s[1..], key);
      forall i | 0 <= i < |rest| ensures idx(s[0]) < idx(rest[i]) {
        assert rest[i] in multiset(s[1..]);
        var j :| 0 <= j < |s[1..]| && s[1..][j] == rest[i];
        assert s[j + 1] == rest[i];
      }
      InsertRankSorted(s[0], rest, key, idx);
    }
  }

  // ---------------------------------------------------------------------------------------
  // what the selection promises

  /** Everything a prefix of the sorted list leaves out has a key no larger than anything it
      keeps. */
  lemma {:induction false} TopDominates<T>(s: seq<T>, m: nat, key: T -> int)
    requires m <= |s|
    ensures var top := SortDesc(s, key)[..m];
            forall x, y :: x in top && y in s && y !in top ==> key(x) >= key(y)
  {
    var ranked := SortDesc(s, key);
    var top := ranked[..m];
    SortNonIncreasing(s, key);
    SortPermutes(s, key);
    forall x, y | x in top && y in s && y !in top ensures key(x) >= key(y) {
      var a :| 0 <= a < m && top[a] == x;
      assert y in multiset(ranked);
      var b :| 0 <= b < |ranked| && ranked[b] == y;
      assert ranked[a] == x;
    }
  }

  /** Among the elements of one key, a prefix of the sorted list keeps the first ones of the
      input, in input order. */
  lemma {:induction false} TopKeepsTieOrder<T>(s: seq<T>, m: nat, key: T -> int, v: int)
    requires m <= |s|
    ensures WithKey(SortDesc(s, key)[..m], key, v) <= WithKey(s, key, v)
  {
    var ranked := SortDesc(s, key);
    assert ranked == ranked[..m] + ranked[m..];
    WithKeyAppend(ranked[..m], ranked[m..], key, v);
    SortStable(s, key, v);
  }

  lemma {:induction false} TopInOrderLength<T>(s: seq<T>, k: nat, key: T -> int, idx: T -> int)
    ensures |TopInOrder(s, k, key, idx)| == Min(k, |s|)
  {
  }

  /** The selection comes out in ascending `idx` order. */
  lemma {:induction false} TopInOrderAscending<T>(s: seq<T>, k: nat, key: T -> int, idx: T -> int)
    requires AscendingBy(s, idx)
    ensures AscendingBy(TopInOrder(s, k, key, idx), idx)
  {
    var ranked := SortDesc(s, key);
    var top := ranked[..Min(k, |ranked|)];
    var r := SortDesc(top, NegKey(idx));
    assert DistinctBy(s, idx);
    SortDistinctBy(s, key, idx);
    assert DistinctBy(top, idx);
    SortDistinctBy(top, NegKey(idx), idx);
    SortNonIncreasing(top, NegKey(idx));
    forall i, j | 0 <= i < j < |r| ensures idx(r[i]) < idx(r[j]) {
      assert NegKey(idx)(r[i]) >= NegKey(idx)(r[j]);
    }
  }

  /** Membership in the selection is membership in the prefix of the ranked list. */
  lemma {:induction false} TopInOrderMembers<T>(s: seq<T>, k: nat, key: T -> int, idx: T -> int, x: T)
    ensures var ranked := SortDesc(s, key);
            x in TopInOrder(s, k, key, idx) <==> x in ranked[..Min(k, |ranked|)]
  {
    var ranked := SortDesc(s, key);
    var top := ranked[..Min(k, |ranked|)];
    SortPermutes(top, NegKey(idx));
    assert x in TopInOrder(s, k, key, idx) <==> x in multiset(top);
  }

  /** Everything the selection keeps comes from `s`. */
  lemma {:induction false} TopInOrderFrom<T>(s: seq<T>, k: nat, key: T -> int, idx: T -> int)
    ensures forall x :: x in TopInOrder(s, k, key, idx) ==> x in s
  {
    var ranked := SortDesc(s, key);
    SortPermutes(s, key);
    forall x | x in TopInOrder(s, k, key, idx) ensures x in s {
      TopInOrderMembers(s, k, key, idx, x);
      assert x in multiset(ranked);
    }
  }

  /** The summarisers' selection, for a list in ascending `idx` order: every element of `s` it
      leaves out ranks after every element it keeps (a lower key, or an equal key and a later
      position in `s`). */
  lemma {:induction false} TopInOrderBest<T>(s: seq<T>, k: nat, key: T -> int, idx: T -> int)
    requires AscendingBy(s, idx)
    ensures var r := TopInOrder(s, k, key, idx);
            forall x, y :: x in r && y in s && y !in r ==> RankedBefore(x, y, key, idx)
  {
    var ranked := SortDesc(s, key);
    var m := Min(k, |ranked|);
    var top := ranked[..m];
    var r := TopInOrder(s, k, key, idx);
    SortRanks(s, key, idx);
    SortPermutes(s, key);
    forall x, y | x in r && y in s && y !in r ensures RankedBefore(x, y, key, idx) {
      TopInOrderMembers(s, k, key, idx, x);
      TopInOrderMembers(s, k, key, idx, y);
      var a :| 0 <= a < m && top[a] == x;
      assert y in multiset(ranked);
      var b :| 0 <= b < |ranked| && ranked[b] == y;
      assert ranked[a] == x;
    }
  }
}
