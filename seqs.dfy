/** Sequence operations the source takes from JavaScript's `Array` and `Set`:
    `filter`, `slice`, `sort` and de-duplication through a `Set`. */
module Seqs {

  /** `Array.prototype.filter`: the elements satisfying `p`, in their order. */
  function Filter<T>(s: seq<T>, p: T -> bool): (r: seq<T>)
    ensures |r| <= |s|
    ensures forall i :: 0 <= i < |r| ==> r[i] in s && p(r[i])
    ensures forall i :: 0 <= i < |s| && p(s[i]) ==> s[i] in r
    ensures multiset(r) <= multiset(s)
  {
    if s == [] then []
    else
      var r := Filter(s[1..], p);
      FilterStep(s, s[1..], r, p);
      (if p(s[0]) then [s[0]] else []) + r
  }

  /** Filtering one more element at the front keeps the properties `Filter` promises. */
  lemma {:induction false} FilterStep<T>(s: seq<T>, tail: seq<T>, r: seq<T>, p: T -> bool)
    requires s != [] && tail == s[1..]
    requires |r| <= |tail| && multiset(r) <= multiset(tail)
    requires forall i :: 0 <= i < |r| ==> r[i] in tail && p(r[i])
    requires forall i :: 0 <= i < |tail| && p(tail[i]) ==> tail[i] in r
    ensures var t := (if p(s[0]) then [s[0]] else []) + r;
      && |t| <= |s| && multiset(t) <= multiset(s)
      && (forall i :: 0 <= i < |t| ==> t[i] in s && p(t[i]))
      && (forall i :: 0 <= i < |s| && p(s[i]) ==> s[i] in t)
  {
    var t := (if p(s[0]) then [s[0]] else []) + r;
    assert s == [s[0]] + tail;
    forall i | 0 <= i < |t|
      ensures t[i] in s && p(t[i])
    {
      if !p(s[0]) || i > 0 {
        var k := if p(s[0]) then i - 1 else i;
        assert t[i] == r[k];
      }
    }
    forall i | 0 <= i < |s| && p(s[i])
      ensures s[i] in t
    {
      if i > 0 {
        assert s[i] == tail[i - 1];
      }
    }
  }

  /** The elements of a filtered sequence are exactly those of the original that pass. */
  lemma {:induction false} FilterMembers<T>(s: seq<T>, p: T -> bool)
    ensures forall x :: x in Filter(s, p) <==> x in s && p(x)
  {
    var r := Filter(s, p);
    forall x | x in r ensures x in s && p(x) {
      var i :| 0 <= i < |r| && r[i] == x;
    }
    forall x | x in s && p(x) ensures x in r {
      var i :| 0 <= i < |s| && s[i] == x;
    }
  }

  /** Filtering a sequence that starts with `x` decides `x` first. */
  lemma {:induction false} FilterCons<T>(x: T, s: seq<T>, p: T -> bool)
    ensures Filter([x] + s, p) == (if p(x) then [x] else []) + Filter(s, p)
  {
    assert ([x] + s)[0] == x && ([x] + s)[1..] == s;
  }

  /** `a` is obtained from `b` by deleting elements, keeping the order of the rest. */
  ghost predicate IsSubsequence<T>(a: seq<T>, b: seq<T>)
    decreases |b|
  {
    a == [] || (b != [] && ((a[0] == b[0] && IsSubsequence(a[1..], b[1..])) || IsSubsequence(a, b[1..])))
  }

  lemma {:induction false} FilterIsSubsequence<T>(s: seq<T>, p: T -> bool)
    ensures IsSubsequence(Filter(s, p), s)
  {
    if s != [] {
      FilterIsSubsequence(s[1..], p);
      var a := Filter(s, p);
      if p(s[0]) {
        assert a[0] == s[0] && a[1..] == Filter(s[1..], p);
      } else {
        assert a == Filter(s[1..], p);
      }
      assert a == [] || (a[0] == s[0] && IsSubsequence(a[1..], s[1..])) || IsSubsequence(a, s[1..]);
    }
  }

  /** Deleting elements twice is deleting elements once. */
  lemma {:induction false} SubsequenceTrans<T>(a: seq<T>, b: seq<T>, c: seq<T>)
    requires IsSubsequence(a, b) && IsSubsequence(b, c)
    ensures IsSubsequence(a, c)
    decreases |c|
  {
    if a != [] {
      if b[0] == c[0] && IsSubsequence(b[1..], c[1..]) {
        if a[0] == b[0] && IsSubsequence(a[1..], b[1..]) {
          SubsequenceTrans(a[1..], b[1..], c[1..]);
        } else {
          SubsequenceTrans(a, b[1..], c[1..]);
        }
      } else {
        SubsequenceTrans(a, b, c[1..]);
      }
    }
  }

  /** Filtering keeps everything exactly when every element passes. */
  lemma {:induction false} FilterKeepsAll<T>(s: seq<T>, p: T -> bool)
    ensures Filter(s, p) == s <==> forall i :: 0 <= i < |s| ==> p(s[i])
  {
    if s != [] {
      FilterKeepsAll(s[1..], p);
      if !p(s[0]) {
        assert |Filter(s, p)| < |s|;
      } else if Filter(s, p) == s {
        assert Filter(s[1..], p) == s[1..];
      }
    }
  }

  /** A weaker test keeps more: filtering by `p` selects a subsequence of filtering by `q`
      when `p` implies `q`. */
  lemma {:induction false} FilterMonotone<T>(s: seq<T>, p: T -> bool, q: T -> bool)
    requires forall i :: 0 <= i < |s| && p(s[i]) ==> q(s[i])
    ensures IsSubsequence(Filter(s, p), Filter(s, q))
  {
    if s != [] {
      FilterMonotone(s[1..], p, q);
      var a := Filter(s[1..], p);
      var b := Filter(s[1..], q);
      assert s == [s[0]] + s[1..];
      FilterCons(s[0], s[1..], p);
      FilterCons(s[0], s[1..], q);
      var fp := Filter(s, p);
      var fq := Filter(s, q);
      if p(s[0]) {
        assert fp[0] == fq[0] && fp[1..] == a && fq[1..] == b;
      } else if q(s[0]) {
        assert fp == a && fq[1..] == b;
      } else {
        assert fp == a && fq == b;
      }
    }
  }

  /** `Array.prototype.map`. */
  function Map<T, U>(s: seq<T>, f: T -> U): (r: seq<U>)
    ensures |r| == |s| && forall i :: 0 <= i < |s| ==> r[i] == f(s[i])
  {
    seq(|s|, i requires 0 <= i < |s| => f(s[i]))
  }

  /** The number of elements of `s` satisfying `p`. */
  function Count<T>(s: seq<T>, p: T -> bool): nat
  {
    if s == [] then 0 else (if p(s[0]) then 1 else 0) + Count(s[1..], p)
  }

  /** Filtering keeps as many elements as satisfy the predicate. */
  lemma {:induction false} FilterLength<T>(s: seq<T>, p: T -> bool)
    ensures |Filter(s, p)| == Count(s, p)
  {
    if s != [] {
      FilterLength(s[1..], p);
    }
  }

  /** `s.slice(-n)` for a positive `n`: the last `n` elements, or all of them when there are fewer. */
  function SliceLast<T>(s: seq<T>, n: nat): (r: seq<T>)
    requires n > 0
    ensures |r| == (if |s| < n then |s| else n)
    ensures s == s[..|s| - |r|] + r
  {
    if |s| < n then s else s[|s| - n..]
  }

  /** `s.slice(0, n)`: the first `n` elements, or all of them when there are fewer. */
  function Take<T>(s: seq<T>, n: nat): (r: seq<T>)
    ensures |r| == (if |s| < n then |s| else n)
    ensures s == r + s[|r|..]
  {
    if |s| < n then s else s[..n]
  }

  /** Elements in non-increasing order of `key`. */
  ghost predicate SortedDesc<T>(s: seq<T>, key: T -> real)
  {
    forall i, j :: 0 <= i < j < |s| ==> key(s[i]) >= key(s[j])
  }

  /** Inserts `x` before the first element whose key is not above its own. */
  function InsertDesc<T>(x: T, s: seq<T>, key: T -> real): (r: seq<T>)
    requires SortedDesc(s, key)
    ensures SortedDesc(r, key)
    ensures multiset(r) == multiset(s) + multiset{x}
    ensures |r| == |s| + 1
    ensures forall i :: 0 <= i < |r| ==> r[i] == x || r[i] in s
  {
    if s == [] || key(s[0]) <= key(x) then [x] + s
    else
      assert s == [s[0]] + s[1..];
      var t := InsertDesc(x, s[1..], key);
      InsertDescHead(x, s, t, key);
      [s[0]] + t
  }

  /** The element kept in front of an insertion stays above every element after it. */
  lemma {:induction false} InsertDescHead<T>(x: T, s: seq<T>, t: seq<T>, key: T -> real)
    requires SortedDesc(s, key) && s != [] && key(s[0]) > key(x)
    requires forall i :: 0 <= i < |t| ==> t[i] == x || t[i] in s[1..]
    ensures SortedDesc(t, key) ==> SortedDesc([s[0]] + t, key)
  {
    forall i | 0 <= i < |t|
      ensures key(s[0]) >= key(t[i])
    {
      if t[i] != x {
        var k :| 0 <= k < |s[1..]| && s[1..][k] == t[i];
        assert s[k + 1] == t[i];
      }
    }
    if SortedDesc(t, key) {
      var r := [s[0]] + t;
      forall i, j | 0 <= i < j < |r|
        ensures key(r[i]) >= key(r[j])
      {
        assert r[j] == t[j - 1];
        if i > 0 {
          assert r[i] == t[i - 1];
        }
      }
    }
  }

  /** The comparator sort `(a, b) => key(b) - key(a)` of the source: an insertion sort that
      yields a non-increasing permutation of `s`. */
  function SortDesc<T>(s: seq<T>, key: T -> real): (r: seq<T>)
    ensures SortedDesc(r, key)
    ensures multiset(r) == multiset(s)
    ensures |r| == |s|
  {
    if s == [] then []
    else
      assert s == [s[0]] + s[1..];
      InsertDesc(s[0], SortDesc(s[1..], key), key)
  }
  /** The test "has key `k`". */
  function KeyIs<T>(key: T -> real, k: real): T -> bool
  {
    (x: T) => key(x) == k
  }

  /** The sort is stable: the elements sharing any one key keep their relative order. */
  lemma {:induction false} SortDescStable<T>(s: seq<T>, key: T -> real, k: real)
    ensures Filter(SortDesc(s, key), KeyIs(key, k)) == Filter(s, KeyIs(key, k))
    decreases |s|
  {
    if s != [] {
      var p := KeyIs(key, k);
      var tail := s[1..];
      var sorted := SortDesc(tail, key);
      var fx := if p(s[0]) then [s[0]] else [];
      assert Filter(SortDesc(s, key), p) == Filter([s[0]] + sorted, p) by {
        assert SortDesc(s, key) == InsertDesc(s[0], sorted, key);
        InsertDescStable(s[0], sorted, key, k);
      }
      assert Filter([s[0]] + sorted, p) == fx + Filter(tail, p) by {
        FilterCons(s[0], sorted, p);
        SortDescStable(tail, key, k);
      }
    }
  }

  /** Inserting `x` puts it after every element with a larger key, so among the elements with
      any one key it comes first, as in `[x] + t`. */
  lemma {:induction false} InsertDescStable<T>(x: T, t: seq<T>, key: T -> real, k: real)
    requires SortedDesc(t, key)
    ensures Filter(InsertDesc(x, t, key), KeyIs(key, k)) == Filter([x] + t, KeyIs(key, k))
    decreases |t|
  {
    var p := KeyIs(key, k);
    if t != [] && key(t[0]) > key(x) {
      var rest := t[1..];
      forall i, j | 0 <= i < j < |rest|
        ensures key(rest[i]) >= key(rest[j])
      {
        assert rest[i] == t[i + 1] && rest[j] == t[j + 1];
      }
      var ins := InsertDesc(x, rest, key);
      var fx := if p(x) then [x] else [];
      var f0 := if p(t[0]) then [t[0]] else [];
      var r := Filter(rest, p);
      assert Filter(InsertDesc(x, t, key), p) == f0 + Filter(ins, p) by {
        assert InsertDesc(x, t, key) == [t[0]] + ins;
        FilterCons(t[0], ins, p);
      }
      assert Filter(ins, p) == fx + r by {
        InsertDescStable(x, rest, key, k);
        FilterCons(x, rest, p);
      }
      assert Filter([x] + t, p) == fx + (f0 + r) by {
        FilterCons(x, t, p);
      }
      SwapFront(f0, fx, r);
    } else {
      assert InsertDesc(x, t, key) == [x] + t;
    }
  }

  /** Two fronts of which one is empty can be swapped. */
  lemma {:induction false} SwapFront<T>(a: seq<T>, b: seq<T>, r: seq<T>)
    requires a == [] || b == []
    ensures a + (b + r) == b + (a + r)
  {
    if a == [] {
      assert a + (b + r) == b + r == b + (a + r);
    } else {
      assert a + (b + r) == a + r == b + (a + r);
    }
  }

  /** When every key is the same the sort leaves the sequence as it is. */
  lemma {:induction false} SortDescTies<T>(s: seq<T>, key: T -> real, k: real)
    requires forall i :: 0 <= i < |s| ==> key(s[i]) == k
    ensures SortDesc(s, key) == s
    decreases |s|
  {
    if s != [] {
      var tail := s[1..];
      TiesTail(s, tail, key, k);
      SortDescTies(tail, key, k);
      SortDescStep(s, tail, key);
    }
  }

  lemma {:induction false} TiesTail<T>(s: seq<T>, tail: seq<T>, key: T -> real, k: real)
    requires s != [] && tail == s[1..]
    requires forall i :: 0 <= i < |s| ==> key(s[i]) == k
    ensures forall i :: 0 <= i < |tail| ==> key(tail[i]) == k
    ensures tail != [] ==> key(tail[0]) == key(s[0])
  {
    forall i | 0 <= i < |tail|
      ensures key(tail[i]) == k
    {
      assert tail[i] == s[i + 1];
    }
  }

  /** The step of `SortDescTies`: a tail that sorts to itself, with no key above the head's,
      leaves the head in front. */
  lemma {:induction false} SortDescStep<T>(s: seq<T>, tail: seq<T>, key: T -> real)
    requires s != [] && tail == s[1..] && SortDesc(tail, key) == tail
    requires tail != [] ==> key(tail[0]) <= key(s[0])
    ensures SortDesc(s, key) == s
  {
    assert SortDesc(s, key) == InsertDesc(s[0], tail, key);
    assert s == [s[0]] + tail;
  }



  ghost predicate NoDuplicates<T>(s: seq<T>)
  {
    forall i, j :: 0 <= i < j < |s| ==> s[i] != s[j]
  }

  /** Without duplicates, every element occurs once. */
  lemma {:induction false} NoDuplicatesOnce<T>(s: seq<T>)
    requires NoDuplicates(s)
    ensures forall x :: multiset(s)[x] <= 1
  {
    if s != [] {
      assert s == [s[0]] + s[1..];
      NoDuplicatesOnce(s[1..]);
      assert s[0] !in s[1..];
    }
  }

  /** Elements that occur at most once are pairwise distinct. */
  lemma {:induction false} OnceNoDuplicates<T>(s: seq<T>)
    requires forall x :: multiset(s)[x] <= 1
    ensures NoDuplicates(s)
  {
    forall i, j | 0 <= i < j < |s|
      ensures s[i] != s[j]
    {
      assert s == s[..i] + [s[i]] + s[i + 1..j] + [s[j]] + s[j + 1..];
      assert multiset(s)[s[i]] >= 1 + multiset([s[j]])[s[i]];
    }
  }

  /** The position of the first occurrence of `x` in `s`. */
  function FirstIndex<T(==)>(s: seq<T>, x: T): (k: nat)
    requires x in s
    ensures k < |s| && s[k] == x && x !in s[..k]
  {
    if s[0] == x then 0 else 1 + FirstIndex(s[1..], x)
  }

  lemma {:induction false} FirstIndexInPrefix<T>(s: seq<T>, n: nat, x: T)
    requires n <= |s| && x in s[..n]
    ensures FirstIndex(s, x) == FirstIndex(s[..n], x)
  {
    if s[0] != x {
      assert s[..n][1..] == s[1..][..n - 1];
      FirstIndexInPrefix(s[1..], n - 1, x);
    }
  }

  /** `Array.from(new Set(s))`: every element once; its order is stated by `DistinctOrder`. */
  function Distinct<T(==)>(s: seq<T>): (r: seq<T>)
    ensures forall i :: 0 <= i < |r| ==> r[i] in s
    ensures forall i :: 0 <= i < |s| ==> s[i] in r
    ensures NoDuplicates(r)
  {
    if s == [] then []
    else
      var r := Distinct(s[..|s| - 1]);
      assert s == s[..|s| - 1] + [s[|s| - 1]];
      if s[|s| - 1] in r then r else r + [s[|s| - 1]]
  }

  /** Appending an element extends `Distinct` by it exactly when it is new. */
  lemma {:induction false} DistinctSnoc<T>(s: seq<T>, x: T)
    ensures Distinct(s + [x]) == if x in s then Distinct(s) else Distinct(s) + [x]
  {
    assert (s + [x])[..|s|] == s;
    var r := Distinct(s);
    assert x in r <==> x in s;
  }

  /** The elements of `Distinct(s)` come in the order of their first occurrence in `s`. */
  lemma {:induction false} DistinctOrder<T>(s: seq<T>)
    ensures forall i, j :: 0 <= i < j < |Distinct(s)| ==>
      FirstIndex(s, Distinct(s)[i]) < FirstIndex(s, Distinct(s)[j])
  {
    if s != [] {
      var init := s[..|s| - 1];
      var last := s[|s| - 1];
      assert s == init + [last];
      var r := Distinct(init);
      DistinctOrder(init);
      forall i | 0 <= i < |r|
        ensures FirstIndex(s, r[i]) == FirstIndex(init, r[i]) < |init|
      {
        FirstIndexInPrefix(s, |init|, r[i]);
      }
      if last !in r {
        assert last !in init;
        assert FirstIndex(s, last) == |init|;
      }
    }
  }
}
