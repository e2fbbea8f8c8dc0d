/**
 * The JavaScript built-ins the core is written with, over Dafny sequences:
 * `Array.prototype.slice`, `filter`, `find`, `findIndex`, `sort` with a
 * numeric comparator (stable, as ECMAScript 2019 requires), `reduce` for a
 * sum, and `String.prototype.toLowerCase` / `includes`.
 */
module JsSemantics {
  import opened Wrappers

  function Min(a: int, b: int): int { if a < b then a else b }

  function Max(a: int, b: int): int { if a < b then b else a }

  // ---------------------------------------------------------------------
  // slice
  // ---------------------------------------------------------------------

  /** How `slice` resolves an integer argument against the length: a
      negative index counts back from the end; the result is clamped. */
  function ResolveIndex(k: int, len: nat): (r: nat)
    ensures r <= len
    ensures 0 <= k ==> r == Min(k, len)
    ensures k < 0 ==> r == Max(len + k, 0)
  {
    if k < 0 then (if len + k < 0 then 0 else len + k)
    else if k < len then k else len
  }

  /** `s.slice(start, end)` for integer arguments. */
  function Slice<T>(s: seq<T>, start: int, end: int): (r: seq<T>)
    ensures |r| <= |s|
    ensures multiset(r) <= multiset(s)
    ensures start <= end ==> |r| <= end - start
    ensures 0 <= start <= end ==> r == s[Min(start, |s|)..Min(end, |s|)]
  {
    var from, to := ResolveIndex(start, |s|), ResolveIndex(end, |s|);
    if from < to then
      assert s == s[..from] + s[from..to] + s[to..];
      s[from..to]
    else []
  }

  /** `s.slice(0, n)` keeps a prefix of `s`: the first min(n, |s|) elements
      when n is not negative, all but the last -n when it is. */
  lemma {:induction false} SlicePrefix<T>(s: seq<T>, n: int)
    ensures Slice(s, 0, n) <= s
    ensures 0 <= n ==> |Slice(s, 0, n)| == Min(n, |s|)
    ensures n < 0 ==> |Slice(s, 0, n)| == Max(|s| + n, 0)
  {
    var to := ResolveIndex(n, |s|);
    if 0 < to {
      assert Slice(s, 0, n) == s[..to];
    }
  }

  // ---------------------------------------------------------------------
  // filter, find, findIndex, counting
  // ---------------------------------------------------------------------

  /** `r` can be obtained from `s` by deleting elements: the order is kept. */
  predicate IsSubsequence<T(==)>(r: seq<T>, s: seq<T>)
  {
    r == [] ||
    (s != [] && ((r[0] == s[0] && IsSubsequence(r[1..], s[1..])) || IsSubsequence(r, s[1..])))
  }

  /** A subsequence holds no element more often than the sequence does. */
  lemma {:induction false} SubsequenceMultiset<T>(r: seq<T>, s: seq<T>)
    requires IsSubsequence(r, s)
    ensures multiset(r) <= multiset(s)
  {
    if r != [] {
      assert s == [s[0]] + s[1..];
      if r[0] == s[0] && IsSubsequence(r[1..], s[1..]) {
        SubsequenceMultiset(r[1..], s[1..]);
        assert r == [r[0]] + r[1..];
      } else {
        SubsequenceMultiset(r, s[1..]);
      }
    }
  }

  lemma {:induction false} SubsequenceTrans<T>(a: seq<T>, b: seq<T>, c: seq<T>)
    requires IsSubsequence(a, b) && IsSubsequence(b, c)
    ensures IsSubsequence(a, c)
    decreases |c|
  {
    if a != [] {
      if b[0] == c[0] && IsSubsequence(b[1..], c[1..]) {
        if a[0] == b[0] && IsSubsequence(a[1..], b[1..]) {
          SubsequenceTrans(a[1..], b[1..], c[1..]);
        } else {
          SubsequenceTrans(a, b[1..], c[1..]);
        }
      } else {
        SubsequenceTrans(a, b, c[1..]);
      }
    }
  }

  lemma {:induction false} PrefixSubsequence<T>(s: seq<T>, j: nat)
    requires j <= |s|
    ensures IsSubsequence(s[..j], s)
  {
    if j > 0 {
      assert s[..j][1..] == s[1..][..j - 1];
      PrefixSubsequence(s[1..], j - 1);
    }
  }

  lemma {:induction false} SuffixSubsequence<T>(r: seq<T>, s: seq<T>, i: nat)
    requires i <= |s| && IsSubsequence(r, s[i..])
    ensures IsSubsequence(r, s)
  {
    if i > 0 {
      assert s[1..][i - 1..] == s[i..];
      SuffixSubsequence(r, s[1..], i - 1);
    }
  }

  /** A slice keeps the order of what it takes. */
  lemma SliceSubsequence<T>(s: seq<T>, start: int, end: int)
    ensures IsSubsequence(Slice(s, start, end), s)
  {
    var i, j := ResolveIndex(start, |s|), ResolveIndex(end, |s|);
    if i < j {
      assert Slice(s, start, end) == s[i..][..j - i];
      PrefixSubsequence(s[i..], j - i);
      SuffixSubsequence(Slice(s, start, end), s, i);
    }
  }

  /** `s.filter(p)`. */
  function Filter<T>(s: seq<T>, p: T -> bool): (r: seq<T>)
    ensures |r| <= |s|
    ensures forall i :: 0 <= i < |r| ==> r[i] in s && p(r[i])
    ensures forall i :: 0 <= i < |s| && p(s[i]) ==> s[i] in r
    ensures IsSubsequence(r, s)
  {
    if s == [] then []
    else
      var rest := Filter(s[1..], p);
      if p(s[0]) then [s[0]] + rest else rest
  }

  /** `s.findIndex(p)`, with -1 written as None. */
  function FindIndex<T>(s: seq<T>, p: T -> bool): (r: Option<nat>)
    ensures r.Some? ==> r.value < |s| && p(s[r.value])
    ensures r.Some? ==> forall j :: 0 <= j < r.value ==> !p(s[j])
    ensures r.None? ==> forall j :: 0 <= j < |s| ==> !p(s[j])
  {
    if s == [] then None
    else if p(s[0]) then Some(0)
    else
      match FindIndex(s[1..], p)
      case None => None
      case Some(i) => Some(i + 1)
  }

  /** `s.find(p)`, with `undefined` written as None. */
  function Find<T>(s: seq<T>, p: T -> bool): (r: Option<T>)
    ensures r.Some? ==> r.value in s && p(r.value)
    ensures r.Some? ==> exists k :: 0 <= k < |s| && s[k] == r.value && forall j :: 0 <= j < k ==> !p(s[j])
    ensures r.None? <==> forall i :: 0 <= i < |s| ==> !p(s[i])
  {
    match FindIndex(s, p)
    case None => None
    case Some(i) => Some(s[i])
  }

  /** The number of elements of `s` that satisfy `p`. */
  function Count<T>(s: seq<T>, p: T -> bool): (n: nat)
    ensures n <= |s|
  {
    if s == [] then 0 else (if p(s[0]) then 1 else 0) + Count(s[1..], p)
  }

  /** Counting distributes over concatenation. */
  lemma {:induction false} CountAppend<T>(a: seq<T>, b: seq<T>, p: T -> bool)
    ensures Count(a + b, p) == Count(a, p) + Count(b, p)
  {
    if a == [] {
      assert a + b == b;
    } else {
      assert (a + b)[1..] == a[1..] + b;
      CountAppend(a[1..], b, p);
    }
  }

  /** The length of `s.filter(p)` is the number of elements satisfying `p`. */
  lemma {:induction false} FilterLength<T>(s: seq<T>, p: T -> bool)
    ensures |Filter(s, p)| == Count(s, p)
  {
    if s != [] {
      FilterLength(s[1..], p);
    }
  }

  lemma {:induction false} CountSnoc<T>(s: seq<T>, x: T, p: T -> bool)
    ensures Count(s + [x], p) == Count(s, p) + (if p(x) then 1 else 0)
  {
    CountAppend(s, [x], p);
    assert [x][1..] == [];
  }

  /** Sequences whose elements agree on `p` position by position have the same count. */
  lemma {:induction false} CountPointwise<T>(a: seq<T>, b: seq<T>, p: T -> bool)
    requires |a| == |b|
    requires forall i :: 0 <= i < |a| ==> p(a[i]) == p(b[i])
    ensures Count(a, p) == Count(b, p)
  {
    if a != [] {
      CountPointwise(a[1..], b[1..], p);
    }
  }

  lemma {:induction false} CountNone<T>(s: seq<T>, p: T -> bool)
    requires forall i :: 0 <= i < |s| ==> !p(s[i])
    ensures Count(s, p) == 0
  {
    if s != [] {
      CountNone(s[1..], p);
    }
  }

  lemma {:induction false} CountPositive<T>(s: seq<T>, p: T -> bool, j: nat)
    requires j < |s| && p(s[j])
    ensures 1 <= Count(s, p)
  {
    if j > 0 {
      CountPositive(s[1..], p, j - 1);
    }
  }

  /** Two positions satisfying `p` make the count at least two. */
  lemma {:induction false} CountTwo<T>(s: seq<T>, p: T -> bool, i: nat, j: nat)
    requires i < j < |s| && p(s[i]) && p(s[j])
    ensures 2 <= Count(s, p)
  {
    if i == 0 {
      CountPositive(s[1..], p, j - 1);
    } else {
      CountTwo(s[1..], p, i - 1, j - 1);
    }
  }

  /** With at most one element satisfying `p`, no other position satisfies it. */
  lemma CountUnique<T>(s: seq<T>, p: T -> bool, i: nat, j: nat)
    requires Count(s, p) <= 1
    requires i < |s| && j < |s| && i != j && p(s[i])
    ensures !p(s[j])
  {
    if p(s[j]) {
      if i < j {
        CountTwo(s, p, i, j);
      } else {
        CountTwo(s, p, j, i);
      }
    }
  }

  /** A filter every element passes changes nothing. */
  lemma {:induction false} FilterAll<T>(s: seq<T>, p: T -> bool)
    requires forall i :: 0 <= i < |s| ==> p(s[i])
    ensures Filter(s, p) == s
  {
    if s != [] {
      FilterAll(s[1..], p);
    }
  }

  /** `arr.reduce((sum, x) => sum + f(x), 0)`. */
  function SumOf<T>(s: seq<T>, f: T -> int): int
  {
    if s == [] then 0 else f(s[0]) + SumOf(s[1..], f)
  }

  /** A sum of values each within [lo, hi] lies within [|s|*lo, |s|*hi]. */
  lemma {:induction false} SumOfBounds<T>(s: seq<T>, f: T -> int, lo: int, hi: int)
    requires forall i :: 0 <= i < |s| ==> lo <= f(s[i]) <= hi
    ensures |s| * lo <= SumOf(s, f) <= |s| * hi
  {
    if s != [] {
      SumOfBounds(s[1..], f, lo, hi);
    }
  }

  lemma {:induction false} SumOfNonNegative<T>(s: seq<T>, f: T -> int)
    requires forall i :: 0 <= i < |s| ==> 0 <= f(s[i])
    ensures 0 <= SumOf(s, f)
  {
    if s != [] {
      SumOfNonNegative(s[1..], f);
    }
  }

  /** With no negative values, each value is at most the sum. */
  lemma {:induction false} SumOfElement<T>(s: seq<T>, f: T -> int, k: nat)
    requires forall i :: 0 <= i < |s| ==> 0 <= f(s[i])
    requires k < |s|
    ensures f(s[k]) <= SumOf(s, f)
  {
    SumOfNonNegative(s[1..], f);
    if k > 0 {
      SumOfElement(s[1..], f, k - 1);
    }
  }

  // ---------------------------------------------------------------------
  // sort((a, b) => key(b) - key(a)): a stable sort into non-increasing key
  // ---------------------------------------------------------------------

  predicate SortedDesc<T>(s: seq<T>, key: T -> int)
  {
    forall i, j :: 0 <= i < j < |s| ==> key(s[i]) >= key(s[j])
  }

  /** Insert `x` before the first element whose key is not larger than its own. */
  function InsertDesc<T>(x: T, s: seq<T>, key: T -> int): (r: seq<T>)
    ensures |r| == |s| + 1
    ensures multiset(r) == multiset(s) + multiset{x}
  {
    if s == [] || key(x) >= key(s[0]) then [x] + s
    else
      assert s == [s[0]] + s[1..];
      [s[0]] + InsertDesc(x, s[1..], key)
  }

  lemma {:induction false} InsertDescSorted<T>(x: T, s: seq<T>, key: T -> int)
    requires SortedDesc(s, key)
    ensures SortedDesc(InsertDesc(x, s, key), key)
  {
    if s == [] || key(x) >= key(s[0]) {
      SortedCons(x, s, key);
    } else {
      var rest := InsertDesc(x, s[1..], key);
      InsertDescSorted(x, s[1..], key);
      forall y | y in rest ensures key(y) <= key(s[0]) {
        InsertDescFrom(x, s[1..], key, y);
        if y != x {
          var k :| 0 <= k < |s[1..]| && s[1..][k] == y;
          assert s[k + 1] == y;
        }
      }
      SortedCons(s[0], rest, key);
    }
  }

  /** Prepending an element whose key bounds the rest keeps the order. */
  lemma SortedCons<T>(h: T, t: seq<T>, key: T -> int)
    requires SortedDesc(t, key)
    requires forall y :: y in t ==> key(y) <= key(h)
    ensures SortedDesc([h] + t, key)
  {
    var r := [h] + t;
    forall i, j | 0 <= i < j < |r| ensures key(r[i]) >= key(r[j]) {
      assert r[j] == t[j - 1];
      if i > 0 {
        assert r[i] == t[i - 1];
      }
    }
  }

  lemma InsertDescFrom<T>(x: T, s: seq<T>, key: T -> int, y: T)
    requires y in InsertDesc(x, s, key)
    ensures y == x || y in s
  {
    assert y in multiset(InsertDesc(x, s, key));
  }

  /** The comparator sort the source calls: a permutation, in non-increasing key order. */
  function SortDesc<T>(s: seq<T>, key: T -> int): (r: seq<T>)
    ensures |r| == |s|
    ensures multiset(r) == multiset(s)
    ensures SortedDesc(r, key)
  {
    if s == [] then []
    else
      assert s == [s[0]] + s[1..];
      var rest := SortDesc(s[1..], key);
      InsertDescSorted(s[0], rest, key);
      InsertDesc(s[0], rest, key)
  }

  /** The elements of `s` whose key is `k`, in their order in `s`. */
  function WithKey<T>(s: seq<T>, key: T -> int, k: int): seq<T>
  {
    if s == [] then [] else KeyIs(s[0], key, k) + WithKey(s[1..], key, k)
  }

  function KeyIs<T>(x: T, key: T -> int, k: int): seq<T>
  {
    if key(x) == k then [x] else []
  }

  lemma WithKeyCons<T>(y: T, t: seq<T>, key: T -> int, k: int)
    ensures WithKey([y] + t, key, k) == KeyIs(y, key, k) + WithKey(t, key, k)
  {
    assert ([y] + t)[1..] == t;
  }

  lemma SwapHeads<T>(a: seq<T>, b: seq<T>, w: seq<T>)
    requires a == [] || b == []
    ensures a + (b + w) == b + (a + w)
  {
  }

  lemma {:induction false} InsertDescWithKey<T>(x: T, s: seq<T>, key: T -> int, k: int)
    ensures WithKey(InsertDesc(x, s, key), key, k) == KeyIs(x, key, k) + WithKey(s, key, k)
  {
    if s == [] || key(x) >= key(s[0]) {
      WithKeyCons(x, s, key, k);
    } else {
      var rest := InsertDesc(x, s[1..], key);
      InsertDescWithKey(x, s[1..], key, k);
      WithKeyCons(s[0], rest, key, k);
      // key(x) < key(s[0]): at most one of the two can carry key k
      SwapHeads(KeyIs(s[0], key, k), KeyIs(x, key, k), WithKey(s[1..], key, k));
    }
  }

  /** Stability: elements with equal keys keep their relative order. */
  lemma {:induction false} SortDescStable<T>(s: seq<T>, key: T -> int, k: int)
    ensures WithKey(SortDesc(s, key), key, k) == WithKey(s, key, k)
  {
    if s != [] {
      SortDescStable(s[1..], key, k);
      InsertDescWithKey(s[0], SortDesc(s[1..], key), key, k);
    }
  }

  lemma {:induction false} InsertDescCount<T>(x: T, s: seq<T>, key: T -> int, p: T -> bool)
    ensures Count(InsertDesc(x, s, key), p) == (if p(x) then 1 else 0) + Count(s, p)
  {
    if s == [] || key(x) >= key(s[0]) {
      assert ([x] + s)[1..] == s;
    } else {
      var r := InsertDesc(x, s, key);
      assert r[1..] == InsertDesc(x, s[1..], key);
      InsertDescCount(x, s[1..], key, p);
    }
  }

  /** Every element of the input is in the sorted output. */
  lemma SortDescKeeps<T>(s: seq<T>, key: T -> int, k: nat)
    requires k < |s|
    ensures s[k] in SortDesc(s, key)
  {
    assert s[k] in multiset(SortDesc(s, key));
  }

  /** Every element of the sorted output comes from the input. */
  lemma SortDescFrom<T>(s: seq<T>, key: T -> int, x: T)
    requires x in SortDesc(s, key)
    ensures x in s
  {
    assert x in multiset(SortDesc(s, key));
  }

  /** Sorting does not change how many elements satisfy any predicate. */
  lemma {:induction false} SortDescCount<T>(s: seq<T>, key: T -> int, p: T -> bool)
    ensures Count(SortDesc(s, key), p) == Count(s, p)
  {
    if s != [] {
      SortDescCount(s[1..], key, p);
      InsertDescCount(s[0], SortDesc(s[1..], key), key, p);
    }
  }

  /** `[...s].sort((a, b) => key(b) - key(a)).slice(0, n)`: a prefix of the
      stable sort, in non-increasing key order, drawn from `s`. */
  function Top<T>(s: seq<T>, key: T -> int, n: int): (r: seq<T>)
    ensures r <= SortDesc(s, key)
    ensures SortedDesc(r, key)
    ensures multiset(r) <= multiset(s)
    ensures 0 <= n ==> |r| == Min(n, |s|)
  {
    SlicePrefix(SortDesc(s, key), n);
    Slice(SortDesc(s, key), 0, n)
  }

  /** Every element `Top` leaves out has a key no larger than any element it keeps. */
  lemma TopKeysDominate<T>(s: seq<T>, key: T -> int, n: int)
    ensures forall x, y ::
              (x in multiset(s) - multiset(Top(s, key, n)) && y in Top(s, key, n)) ==> key(x) <= key(y)
  {
    var t := SortDesc(s, key);
    var r := Top(s, key, n);
    assert r == t[..|r|];
    MultisetCut(t, |r|);
    forall x, y | x in multiset(s) - multiset(r) && y in r
      ensures key(x) <= key(y)
    {
      assert x in multiset(t[|r|..]);
      SortedDescSplit(t, key, |r|, x, y);
    }
  }

  /** An element of `s` that `Top` leaves out scores no higher than any it keeps. */
  lemma TopDominatesMissing<T>(s: seq<T>, key: T -> int, n: int, x: T, k: nat)
    requires x in s && x !in Top(s, key, n)
    requires k < |Top(s, key, n)|
    ensures key(x) <= key(Top(s, key, n)[k])
  {
    var r := Top(s, key, n);
    TopKeysDominate(s, key, n);
    assert x in multiset(s) - multiset(r);
    assert r[k] in r;
  }

  /** When `Top` falls short of a non-negative `n` it keeps every element. */
  lemma TopShortKeeps<T>(s: seq<T>, key: T -> int, n: int, x: T)
    requires 0 <= n && |Top(s, key, n)| < n
    requires x in s
    ensures x in Top(s, key, n)
  {
    assert Top(s, key, n) == SortDesc(s, key);
    assert x in multiset(SortDesc(s, key));
  }

  /** Removing a prefix's elements from a sequence's multiset leaves the rest's. */
  lemma MultisetCut<T>(t: seq<T>, m: nat)
    requires m <= |t|
    ensures multiset(t) - multiset(t[..m]) == multiset(t[m..])
  {
    assert t == t[..m] + t[m..];
  }

  lemma MultisetRemove<T>(s: seq<T>, i: nat)
    requires i < |s|
    ensures multiset(s) == multiset(s[..i] + s[i + 1..]) + multiset{s[i]}
  {
    assert s == s[..i] + [s[i]] + s[i + 1..];
  }

  lemma MultisetCancel<T>(a: multiset<T>, b: multiset<T>, x: T)
    requires a + multiset{x} <= b + multiset{x}
    ensures a <= b
  {
    forall y ensures a[y] <= b[y] {
      assert (a + multiset{x})[y] <= (b + multiset{x})[y];
    }
  }

  /** In a sequence sorted by non-increasing key, everything after a cut
      has a key no larger than anything before it. */
  lemma SortedDescSplit<T>(t: seq<T>, key: T -> int, m: nat, x: T, y: T)
    requires SortedDesc(t, key) && m <= |t|
    requires x in t[m..] && y in t[..m]
    ensures key(x) <= key(y)
  {
    var j :| 0 <= j < |t[m..]| && t[m..][j] == x;
    var i :| 0 <= i < m && t[..m][i] == y;
    assert t[i] == y && t[m + j] == x;
  }

  /** Every element `Top` keeps comes from `s`. */
  lemma TopFrom<T>(s: seq<T>, key: T -> int, n: int, k: nat)
    requires k < |Top(s, key, n)|
    ensures Top(s, key, n)[k] in s
  {
    assert Top(s, key, n)[k] in multiset(s);
  }

  lemma TopMembers<T>(s: seq<T>, key: T -> int, n: int)
    ensures forall k :: 0 <= k < |Top(s, key, n)| ==> Top(s, key, n)[k] in s
  {
    forall k | 0 <= k < |Top(s, key, n)| ensures Top(s, key, n)[k] in s {
      TopFrom(s, key, n, k);
    }
  }

  /** `Top` keeps no more elements satisfying `p` than `s` has, and all of
      them when it falls short of a non-negative `n`. */
  lemma TopCount<T>(s: seq<T>, key: T -> int, n: int, p: T -> bool)
    ensures Count(Top(s, key, n), p) <= Count(s, p)
    ensures 0 <= n && |Top(s, key, n)| < n ==> Count(Top(s, key, n), p) == Count(s, p)
  {
    var sorted := SortDesc(s, key);
    var r := Top(s, key, n);
    assert sorted == r + sorted[|r|..];
    SortDescCount(s, key, p);
    CountAppend(r, sorted[|r|..], p);
  }

  /** With `n` at least the length, `Top` keeps every element. */
  lemma TopAll<T>(s: seq<T>, key: T -> int, n: int)
    requires |s| <= n
    ensures multiset(Top(s, key, n)) == multiset(s)
  {
    assert Top(s, key, n) == SortDesc(s, key);
  }

  // ---------------------------------------------------------------------
  // strings
  // ---------------------------------------------------------------------

  /** `toLowerCase` on one character; only the ASCII letters are mapped. */
  function ToLowerChar(c: char): char
  {
    if 'A' <= c <= 'Z' then (c as int + 32) as char else c
  }

  function ToLower(s: string): (r: string)
    ensures |r| == |s|
    ensures forall i :: 0 <= i < |s| ==> r[i] == ToLowerChar(s[i])
  {
    seq(|s|, i requires 0 <= i < |s| => ToLowerChar(s[i]))
  }

  /** After lowering, no ASCII capital letter is left, and nothing else changes. */
  lemma ToLowerNoCapitals(s: string)
    ensures forall i :: 0 <= i < |s| ==> !('A' <= ToLower(s)[i] <= 'Z')
    ensures forall i :: 0 <= i < |s| && !('A' <= s[i] <= 'Z') ==> ToLower(s)[i] == s[i]
  {
  }

  lemma ToLowerTail(s: string)
    requires s != []
    ensures ToLower(s)[1..] == ToLower(s[1..])
  {
  }

  /** `h.includes(n)`: `n` occurs in `h` at some position. */
  predicate Includes(h: string, n: string)
  {
    n <= h || (h != [] && Includes(h[1..], n))
  }

  /** `includes` agrees with the positional definition of an occurrence. */
  lemma {:induction false} IncludesAt(h: string, n: string)
    ensures Includes(h, n) <==> exists i :: 0 <= i <= |h| && n <= h[i..]
  {
    if n <= h {
      assert h[0..] == h;
    } else if h == [] {
      forall i | 0 <= i <= |h| ensures !(n <= h[i..]) {
        assert h[i..] == h;
      }
    } else {
      IncludesAt(h[1..], n);
      if exists i :: 0 <= i <= |h| && n <= h[i..] {
        var i :| 0 <= i <= |h| && n <= h[i..];
        assert i != 0;
        assert h[1..][i - 1..] == h[i..];
      }
      if exists i :: 0 <= i <= |h[1..]| && n <= h[1..][i..] {
        var i :| 0 <= i <= |h[1..]| && n <= h[1..][i..];
        assert h[1..][i..] == h[i + 1..];
      }
    }
  }

  /** `s.replace(pat, rep)` with a string pattern: only the first occurrence
      is replaced (the replacement strings used hold no `$` patterns). */
  function ReplaceFirst(s: string, pat: string, rep: string): (r: string)
    ensures !Includes(s, pat) ==> r == s
    ensures pat <= s ==> r == rep + s[|pat|..]
  {
    if pat <= s then rep + s[|pat|..]
    else if s == [] then s
    else [s[0]] + ReplaceFirst(s[1..], pat, rep)
  }

  /** The index of the first occurrence of `pat` in `s`. */
  function Occurrence(s: string, pat: string): (i: nat)
    requires Includes(s, pat)
    ensures i <= |s|
  {
    if pat <= s then 0 else 1 + Occurrence(s[1..], pat)
  }

  lemma {:induction false} OccurrenceAt(s: string, pat: string)
    requires Includes(s, pat)
    ensures Occurrence(s, pat) + |pat| <= |s|
    ensures s[Occurrence(s, pat)..Occurrence(s, pat) + |pat|] == pat
  {
    if !(pat <= s) {
      var k := Occurrence(s[1..], pat);
      OccurrenceAt(s[1..], pat);
      assert s[1..][k..k + |pat|] == s[k + 1..k + 1 + |pat|];
    }
  }

  lemma {:induction false} OccurrenceFirst(s: string, pat: string, j: nat)
    requires Includes(s, pat) && j < Occurrence(s, pat)
    ensures !(pat <= s[j..])
  {
    if j > 0 {
      OccurrenceFirst(s[1..], pat, j - 1);
      assert s[j..] == s[1..][j - 1..];
    }
  }

  lemma {:induction false} ReplaceAtOccurrence(s: string, pat: string, rep: string)
    requires Includes(s, pat)
    ensures Occurrence(s, pat) + |pat| <= |s|
    ensures ReplaceFirst(s, pat, rep) == s[..Occurrence(s, pat)] + rep + s[Occurrence(s, pat) + |pat|..]
  {
    OccurrenceAt(s, pat);
    if pat <= s {
      assert s[..0] + rep + s[|pat|..] == rep + s[|pat|..];
    } else {
      var k := Occurrence(s[1..], pat);
      ReplaceAtOccurrence(s[1..], pat, rep);
      assert ReplaceFirst(s, pat, rep) == [s[0]] + ReplaceFirst(s[1..], pat, rep);
      SpliceCons(s, k, |pat|, rep);
    }
  }

  lemma SpliceCons(s: string, k: nat, m: nat, rep: string)
    requires s != [] && k + m <= |s| - 1
    ensures [s[0]] + (s[1..][..k] + rep + s[1..][k + m..]) == s[..k + 1] + rep + s[k + 1 + m..]
  {
    assert [s[0]] + s[1..][..k] == s[..k + 1];
    assert s[1..][k + m..] == s[k + 1 + m..];
  }

  /** `s.replace(pat, rep)` replaces the first occurrence of `pat`, wherever
      it lies, and keeps everything before and after it. */
  lemma ReplaceFirstSpec(s: string, pat: string, rep: string)
    ensures !Includes(s, pat) ==> ReplaceFirst(s, pat, rep) == s
    ensures Includes(s, pat) ==>
              exists i :: 0 <= i && i + |pat| <= |s| && s[i..i + |pat|] == pat &&
                (forall j :: 0 <= j < i ==> !(pat <= s[j..])) &&
                ReplaceFirst(s, pat, rep) == s[..i] + rep + s[i + |pat|..]
  {
    if Includes(s, pat) {
      var i := Occurrence(s, pat);
      OccurrenceAt(s, pat);
      ReplaceAtOccurrence(s, pat, rep);
      forall j | 0 <= j < i ensures !(pat <= s[j..]) {
        OccurrenceFirst(s, pat, j);
      }
    }
  }

  /** A pattern at the very start is replaced there. */
  lemma ReplaceFirstHead(pat: string, b: string, rep: string)
    ensures ReplaceFirst(pat + b, pat, rep) == rep + b
  {
    assert (pat + b)[|pat|..] == b;
  }

  /** A prefix that lacks the pattern's first character is passed over unchanged. */
  lemma {:induction false} ReplaceFirstSkip(a: string, b: string, pat: string, rep: string)
    requires pat != [] && pat[0] !in a
    ensures ReplaceFirst(a + b, pat, rep) == a + ReplaceFirst(b, pat, rep)
  {
    if a != [] {
      var s := a + b;
      assert s[0] == a[0] && s[1..] == a[1..] + b;
      assert !(pat <= s);
      ReplaceFirstSkip(a[1..], b, pat, rep);
      assert [a[0]] + a[1..] == a;
    } else {
      assert a + b == b;
    }
  }

  /** The empty string occurs in every string. */
  lemma IncludesEmpty(h: string)
    ensures Includes(h, "")
  {
  }
}
