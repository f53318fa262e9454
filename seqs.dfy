/** Sequence operations the source performs through `Array.prototype` methods:
    `filter`, `findIndex`, `find`, `splice` and `slice`, with the facts about
    them that the page- and server-level proofs rely on. */
module Seqs {
  import opened Maybe

  /** `a` is `b` with some elements left out and the rest in their order. */
  predicate IsSubsequence<T(==)>(a: seq<T>, b: seq<T>)
    decreases |b|
  {
    if a == [] then true
    else if b == [] then false
    else if a[0] == b[0] then IsSubsequence(a[1..], b[1..])
    else IsSubsequence(a, b[1..])
  }

  /** `Array.prototype.filter`. */
  function Filter<T>(s: seq<T>, p: T -> bool): (r: seq<T>)
    ensures |r| <= |s|
    ensures forall i :: 0 <= i < |r| ==> p(r[i])
  {
    if s == [] then [] else (if p(s[0]) then [s[0]] else []) + Filter(s[1..], p)
  }

  /** What `Filter` keeps comes from the input, and it keeps every element
      that passes. */
  lemma {:induction false} FilterMembers<T>(s: seq<T>, p: T -> bool)
    ensures forall i :: 0 <= i < |Filter(s, p)| ==> Filter(s, p)[i] in s
    ensures forall i :: 0 <= i < |s| && p(s[i]) ==> s[i] in Filter(s, p)
  {
    if s != [] {
      FilterMembers(s[1..], p);
      var r, rest := Filter(s, p), Filter(s[1..], p);
      forall i | 0 <= i < |r|
        ensures r[i] in s
      {
        if !(p(s[0]) && i == 0) {
          var k := if p(s[0]) then i - 1 else i;
          assert r[i] == rest[k];
          assert rest[k] in s[1..];
        }
      }
      forall i | 0 <= i < |s| && p(s[i])
        ensures s[i] in r
      {
        if i > 0 {
          assert s[i] == s[1..][i - 1];
        }
      }
    }
  }

  /** `Filter` keeps every copy of an element that passes and no copy of one
      that fails, so with duplicates in the input it is still pinned down. */
  lemma {:induction false} FilterCounts<T>(s: seq<T>, p: T -> bool)
    ensures forall x :: multiset(Filter(s, p))[x] == if p(x) then multiset(s)[x] else 0
  {
    if s != [] {
      FilterCounts(s[1..], p);
      assert s == [s[0]] + s[1..];
      assert multiset(s) == multiset{s[0]} + multiset(s[1..]);
      assert Filter(s, p) == (if p(s[0]) then [s[0]] else []) + Filter(s[1..], p);
    }
  }

  lemma {:induction false} FilterIsSubsequence<T>(s: seq<T>, p: T -> bool)
    ensures IsSubsequence(Filter(s, p), s)
  {
    if s != [] {
      FilterIsSubsequence(s[1..], p);
      var r := Filter(s, p);
      if p(s[0]) {
        assert r[0] == s[0] && r[1..] == Filter(s[1..], p);
      } else {
        assert r == Filter(s[1..], p);
        SubsequenceOfTail(r, s);
      }
    }
  }

  lemma {:induction false} SubsequenceOfTail<T>(a: seq<T>, b: seq<T>)
    requires b != [] && IsSubsequence(a, b[1..])
    ensures IsSubsequence(a, b)
    decreases |b|, |a|
  {
    if a != [] && a[0] == b[0] {
      // a[1..] is a subsequence of b[1..] because a is
      SubsequenceDropHead(a, b[1..]);
    }
  }

  lemma {:induction false} SubsequenceDropHead<T>(a: seq<T>, b: seq<T>)
    requires a != [] && IsSubsequence(a, b)
    ensures IsSubsequence(a[1..], b)
    decreases |b|, |a|
  {
    if a[0] == b[0] {
      SubsequenceOfTail(a[1..], b);
    } else {
      SubsequenceDropHead(a, b[1..]);
      SubsequenceOfTail(a[1..], b);
    }
  }

  lemma {:induction false} SubsequenceRefl<T>(s: seq<T>)
    ensures IsSubsequence(s, s)
  {
    if s != [] {
      SubsequenceRefl(s[1..]);
    }
  }

  /** A prefix of a subsequence is a subsequence. */
  lemma {:induction false} SubsequencePrefix<T>(a: seq<T>, b: seq<T>, k: nat)
    requires k <= |a| && IsSubsequence(a, b)
    ensures IsSubsequence(a[..k], b)
    decreases |b|
  {
    if k > 0 && b != [] {
      if a[0] == b[0] {
        SubsequencePrefix(a[1..], b[1..], k - 1);
        assert a[..k][1..] == a[1..][..k - 1];
      } else {
        SubsequencePrefix(a, b[1..], k);
      }
    }
  }

  /** Two tests that agree on every element keep the same elements. */
  lemma {:induction false} FilterSameOn<T>(s: seq<T>, p: T -> bool, q: T -> bool)
    requires forall i :: 0 <= i < |s| ==> p(s[i]) == q(s[i])
    ensures Filter(s, p) == Filter(s, q)
  {
    if s != [] {
      FilterSameOn(s[1..], p, q);
    }
  }

  /** Splitting by a test and by its negation loses and adds nothing. */
  lemma {:induction false} FilterPartition<T>(s: seq<T>, p: T -> bool, q: T -> bool)
    requires forall i :: 0 <= i < |s| ==> q(s[i]) == !p(s[i])
    ensures multiset(Filter(s, p)) + multiset(Filter(s, q)) == multiset(s)
  {
    if s != [] {
      FilterPartition(s[1..], p, q);
      assert s == [s[0]] + s[1..];
    }
  }

  /** Keeping everything keeps the sequence as it is. */
  lemma {:induction false} FilterKeepsAll<T>(s: seq<T>, p: T -> bool)
    requires forall i :: 0 <= i < |s| ==> p(s[i])
    ensures Filter(s, p) == s
  {
    if s != [] {
      FilterKeepsAll(s[1..], p);
    }
  }

  /** Filtering twice by the same test is filtering once. */
  lemma FilterIdempotent<T>(s: seq<T>, p: T -> bool)
    ensures Filter(Filter(s, p), p) == Filter(s, p)
  {
    FilterKeepsAll(Filter(s, p), p);
  }

  lemma {:induction false} FilterAppend<T>(a: seq<T>, b: seq<T>, p: T -> bool)
    ensures Filter(a + b, p) == Filter(a, p) + Filter(b, p)
  {
    if a == [] {
      assert a + b == b;
    } else {
      assert (a + b)[1..] == a[1..] + b;
      FilterAppend(a[1..], b, p);
    }
  }

  /** `Array.prototype.some`. */
  function Any<T>(s: seq<T>, p: T -> bool): (r: bool)
    ensures r <==> exists i :: 0 <= i < |s| && p(s[i])
  {
    if s == [] then false
    else if p(s[0]) then true
    else
      assert forall i :: 1 <= i < |s| ==> s[i] == s[1..][i - 1];
      Any(s[1..], p)
  }

  /** `Array.prototype.map`. */
  function Map<T, U>(s: seq<T>, f: T -> U): (r: seq<U>)
    ensures |r| == |s|
    ensures forall i :: 0 <= i < |s| ==> r[i] == f(s[i])
  {
    if s == [] then [] else [f(s[0])] + Map(s[1..], f)
  }

  /** `Array.prototype.findIndex`, with -1 as None. */
  function FindIndex<T>(s: seq<T>, p: T -> bool): (r: Option<nat>)
    ensures r.Some? ==> r.value < |s| && p(s[r.value])
    ensures r.Some? ==> forall j :: 0 <= j < r.value ==> !p(s[j])
    ensures r.None? ==> forall j :: 0 <= j < |s| ==> !p(s[j])
  {
    if s == [] then None
    else if p(s[0]) then Some(0)
    else match FindIndex(s[1..], p)
      case None => None
      case Some(i) => Some(i + 1)
  }

  /** `Array.prototype.splice(i, 0, x)`: a start beyond the end is clamped to the
      length (section 23.1.3.31 of ECMA-262, 2023 edition). */
  function InsertAt<T>(s: seq<T>, i: nat, x: T): (r: seq<T>)
    ensures |r| == |s| + 1
    ensures i <= |s| ==> r == s[..i] + [x] + s[i..]
    ensures i > |s| ==> r == s + [x]
  {
    var k := if i <= |s| then i else |s|;
    s[..k] + [x] + s[k..]
  }

  /** `Array.prototype.splice(i, 1)`: the array without its element at `i`. */
  function RemoveAt<T>(s: seq<T>, i: nat): (r: seq<T>)
    requires i < |s|
    ensures |r| == |s| - 1
    ensures forall j :: 0 <= j < i ==> r[j] == s[j]
    ensures forall j :: i <= j < |r| ==> r[j] == s[j + 1]
  {
    s[..i] + s[i + 1..]
  }

  /** `arrayMove` of dnd-kit: take the element at `from` out and put it back at
      `to`, clamped to the end as `splice` does. */
  function ArrayMove<T>(s: seq<T>, from: nat, to: nat): (r: seq<T>)
    requires from < |s|
    ensures |r| == |s|
    ensures multiset(r) == multiset(s)
    ensures to < |s| ==> r[to] == s[from]
    ensures to >= |s| ==> r[|s| - 1] == s[from]
  {
    var rest := RemoveAt(s, from);
    assert s == s[..from] + [s[from]] + s[from + 1..];
    assert rest == s[..from] + s[from + 1..];
    assert multiset(s) == multiset(rest) + multiset{s[from]};
    var k := if to <= |rest| then to else |rest|;
    var r := InsertAt(rest, to, s[from]);
    assert r == rest[..k] + [s[from]] + rest[k..];
    assert rest == rest[..k] + rest[k..];
    assert multiset(r) == multiset(rest) + multiset{s[from]};
    r
  }

  /** Moving an element onto its own position changes nothing. */
  lemma ArrayMoveSame<T>(s: seq<T>, i: nat)
    requires i < |s|
    ensures ArrayMove(s, i, i) == s
  {
    assert s[..i] + s[i + 1..] == RemoveAt(s, i);
    assert RemoveAt(s, i)[..i] == s[..i];
    assert RemoveAt(s, i)[i..] == s[i + 1..];
    assert s == s[..i] + [s[i]] + s[i + 1..];
  }

  /** The first `n` elements, `Array.prototype.slice(0, n)`. */
  function Take<T>(s: seq<T>, n: nat): (r: seq<T>)
    ensures |r| == if n <= |s| then n else |s|
    ensures r == s[..|r|]
  {
    if n <= |s| then s[..n] else s
  }

  /** The scan behind a `SELECT ... WHERE` that reads the first matching row:
      the first index whose element passes `p`. */
  method FirstWhere<T>(s: seq<T>, p: T -> bool) returns (r: Option<nat>)
    ensures r == FindIndex(s, p)
  {
    var i := 0;
    while i < |s|
      invariant 0 <= i <= |s|
      invariant forall j :: 0 <= j < i ==> !p(s[j])
    {
      if p(s[i]) {
        FirstIndexIs(s, p, i);
        return Some(i);
      }
      i := i + 1;
    }
    return None;
  }

  /** An index whose element passes `p` and follows only failing ones is the
      one `FindIndex` gives. */
  lemma FirstIndexIs<T>(s: seq<T>, p: T -> bool, k: nat)
    requires k < |s| && p(s[k])
    requires forall j :: 0 <= j < k ==> !p(s[j])
    ensures FindIndex(s, p) == Some(k)
  {
    var r := FindIndex(s, p);
    assert r.Some? ==> r.value <= k;
  }

  /** The scan behind a `DELETE ... WHERE`: the elements that pass `p`, built
      one element at a time. */
  method KeepWhere<T>(s: seq<T>, p: T -> bool) returns (r: seq<T>)
    ensures r == Filter(s, p)
  {
    r := [];
    var i := 0;
    while i < |s|
      invariant 0 <= i <= |s|
      invariant r == Filter(s[..i], p)
    {
      FilterAppend(s[..i], [s[i]], p);
      assert s[..i + 1] == s[..i] + [s[i]];
      if p(s[i]) {
        r := r + [s[i]];
      }
      i := i + 1;
    }
    assert s[..i] == s;
  }

  /** The scan behind an `UPDATE ... WHERE`: every element passed through
      `f`, built one element at a time. */
  method MapEach<T, U>(s: seq<T>, f: T -> U) returns (r: seq<U>)
    ensures r == Map(s, f)
  {
    r := [];
    var i := 0;
    while i < |s|
      invariant 0 <= i <= |s|
      invariant |r| == i
      invariant forall j :: 0 <= j < i ==> r[j] == f(s[j])
    {
      r := r + [f(s[i])];
      i := i + 1;
    }
  }
}
