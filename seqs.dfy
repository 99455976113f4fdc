/** Generic sequence operations standing for JavaScript's `Array.prototype`
    methods `filter`, `map`, `find`, `reduce` (summing) and `slice`. */
module Seqs {
  import opened Wrappers

  /** `s.filter(p)`: the elements of `s` that satisfy `p`, in their original order. */
  function Filter<T(!new)>(s: seq<T>, p: T -> bool): (r: seq<T>)
    ensures |r| <= |s|
    ensures forall x :: x in r <==> x in s && p(x)
    ensures (forall x :: x in s ==> p(x)) ==> r == s
    ensures (forall x :: x in s ==> !p(x)) ==> r == []
  {
    if s == [] then []
    else if p(s[0]) then [s[0]] + Filter(s[1..], p)
    else Filter(s[1..], p)
  }

  /** Filtering twice keeps what both predicates keep: the composition of the
      successive `filter` reassignments is one `filter` by the conjunction. */
  lemma {:induction false} FilterFilter<T(!new)>(s: seq<T>, p: T -> bool, q: T -> bool, pq: T -> bool)
    requires forall x :: pq(x) == (p(x) && q(x))
    ensures Filter(Filter(s, p), q) == Filter(s, pq)
  {
    if s != [] {
      FilterFilter(s[1..], p, q, pq);
    }
  }

  /** Two predicates that agree on every element give the same filter. */
  lemma {:induction false} FilterCongruent<T(!new)>(s: seq<T>, p: T -> bool, q: T -> bool)
    requires forall x :: x in s ==> p(x) == q(x)
    ensures Filter(s, p) == Filter(s, q)
  {
    if s != [] {
      FilterCongruent(s[1..], p, q);
    }
  }

  /** When exactly the element at `j` fails `p`, filtering drops just that element. */
  lemma FilterDropOne<T(!new)>(s: seq<T>, p: T -> bool, j: nat)
    requires j < |s| && !p(s[j])
    requires forall k :: 0 <= k < |s| && k != j ==> p(s[k])
    ensures Filter(s, p) == s[..j] + s[j + 1..]
  {
    var a, b := s[..j], s[j + 1..];
    forall k | 0 <= k < |a| ensures p(a[k]) {
      assert a[k] == s[k];
    }
    forall k | 0 <= k < |b| ensures p(b[k]) {
      assert b[k] == s[j + 1 + k];
    }
    PickApart(s, j);
    FilterSkip(a, s[j], b, p);
    assert Filter(s, p) == Filter(a + [s[j]] + b, p);
  }

  /** A sequence is its part before `j`, its element at `j` and its part after. */
  lemma PickApart<T>(s: seq<T>, j: nat)
    requires j < |s|
    ensures s == s[..j] + [s[j]] + s[j + 1..]
  {
  }

  /** Filtering drops a failing element between two passing runs. */
  lemma FilterSkip<T(!new)>(a: seq<T>, x: T, b: seq<T>, p: T -> bool)
    requires forall k :: 0 <= k < |a| ==> p(a[k])
    requires forall k :: 0 <= k < |b| ==> p(b[k])
    requires !p(x)
    ensures Filter(a + [x] + b, p) == a + b
  {
    FilterKeepsAll(a, p);
    FilterKeepsAll(b, p);
    assert Filter([x], p) == [];
    FilterConcat(a, [x], p);
    assert a + [] == a;
    assert Filter(a + [x], p) == a;
    FilterConcat(a + [x], b, p);
  }

  /** Filtering a concatenation filters each part. */
  lemma {:induction false} FilterConcat<T(!new)>(a: seq<T>, b: seq<T>, p: T -> bool)
    ensures Filter(a + b, p) == Filter(a, p) + Filter(b, p)
  {
    if a == [] {
      assert a + b == b;
    } else {
      assert (a + b)[1..] == a[1..] + b;
      FilterConcat(a[1..], b, p);
      if p(a[0]) {
        AppendAssociative([a[0]], Filter(a[1..], p), Filter(b, p));
      }
    }
  }

  /** When exactly the element at `j` satisfies `p`, filtering keeps just it. */
  lemma {:induction false} FilterKeepOne<T(!new)>(s: seq<T>, p: T -> bool, j: nat)
    requires j < |s| && p(s[j])
    requires forall k :: 0 <= k < |s| && k != j ==> !p(s[k])
    ensures Filter(s, p) == [s[j]]
  {
    var t := s[1..];
    if j == 0 {
      forall k | 0 <= k < |t| ensures !p(t[k]) {
        assert t[k] == s[k + 1];
      }
      FilterKeepsNone(t, p);
    } else {
      assert !p(s[0]);
      forall k | 0 <= k < |t| && k != j - 1 ensures !p(t[k]) {
        assert t[k] == s[k + 1];
      }
      FilterKeepOne(t, p, j - 1);
    }
  }

  lemma AppendAssociative<T>(a: seq<T>, b: seq<T>, c: seq<T>)
    ensures (a + b) + c == a + (b + c)
  {
  }

  lemma {:induction false} FilterKeepsAll<T(!new)>(s: seq<T>, p: T -> bool)
    requires forall k :: 0 <= k < |s| ==> p(s[k])
    ensures Filter(s, p) == s
  {
    if s != [] {
      assert p(s[0]);
      FilterKeepsAll(s[1..], p);
    }
  }

  lemma {:induction false} FilterKeepsNone<T(!new)>(s: seq<T>, p: T -> bool)
    requires forall k :: 0 <= k < |s| ==> !p(s[k])
    ensures Filter(s, p) == []
  {
    if s != [] {
      assert !p(s[0]);
      FilterKeepsNone(s[1..], p);
    }
  }

  /** `s.map(f)`: `f` applied to every element, in order. */
  function Map<T, U>(s: seq<T>, f: T -> U): (r: seq<U>)
    ensures |r| == |s|
    ensures forall k :: 0 <= k < |s| ==> r[k] == f(s[k])
  {
    if s == [] then [] else [f(s[0])] + Map(s[1..], f)
  }

  /** `s.find(p)`: the first element that satisfies `p`, if there is one. */
  function Find<T(!new)>(s: seq<T>, p: T -> bool): (r: Option<T>)
    ensures r.None? <==> forall x :: x in s ==> !p(x)
    ensures r.Some? ==> exists k :: 0 <= k < |s| && s[k] == r.value && p(s[k]) &&
                                    forall j :: 0 <= j < k ==> !p(s[j])
  {
    if s == [] then None
    else if p(s[0]) then Some(s[0])
    else
      var r := Find(s[1..], p);
      assert r.Some? ==> exists k :: 1 <= k < |s| && s[k] == r.value && p(s[k]) &&
                                     forall j :: 0 <= j < k ==> !p(s[j]) by {
        if r.Some? {
          var k :| 0 <= k < |s[1..]| && s[1..][k] == r.value && p(s[1..][k]) &&
                   forall j :: 0 <= j < k ==> !p(s[1..][j]);
          assert s[k + 1] == r.value;
          assert forall j :: 0 <= j < k + 1 ==> !p(s[j]) by {
            forall j | 0 <= j < k + 1 ensures !p(s[j]) {
              if j > 0 { assert s[j] == s[1..][j - 1]; }
            }
          }
        }
      }
      r
  }

  /** `s.reduce((sum, x) => sum + f(x), 0)`. Integer addition is associative,
      so summing from the front gives the same value as the left fold. */
  function SumOf<T>(s: seq<T>, f: T -> int): int
  {
    if s == [] then 0 else f(s[0]) + SumOf(s[1..], f)
  }

  lemma {:induction false} SumOfConcat<T>(a: seq<T>, b: seq<T>, f: T -> int)
    ensures SumOf(a + b, f) == SumOf(a, f) + SumOf(b, f)
  {
    if a != [] {
      assert (a + b)[1..] == a[1..] + b;
      SumOfConcat(a[1..], b, f);
    } else {
      assert a + b == b;
    }
  }

  /** Replacing one element changes the sum by the difference of the two terms. */
  lemma {:induction false} SumOfUpdate<T>(s: seq<T>, j: nat, x: T, f: T -> int)
    requires j < |s|
    ensures SumOf(s[j := x], f) == SumOf(s, f) - f(s[j]) + f(x)
  {
    if j > 0 {
      assert s[j := x][1..] == s[1..][j - 1 := x];
      SumOfUpdate(s[1..], j - 1, x, f);
    }
  }

  /** Removing one element takes its term off the sum. */
  lemma {:induction false} SumOfRemove<T>(s: seq<T>, j: nat, f: T -> int)
    requires j < |s|
    ensures SumOf(s[..j] + s[j + 1..], f) == SumOf(s, f) - f(s[j])
  {
    if j > 0 {
      assert (s[..j] + s[j + 1..])[0] == s[0];
      assert (s[..j] + s[j + 1..])[1..] == s[1..][..j - 1] + s[1..][j..];
      SumOfRemove(s[1..], j - 1, f);
    } else {
      assert s[..j] + s[j + 1..] == s[1..];
    }
  }

  /** `s.slice(start, end)` for non-negative bounds: both bounds are clamped to
      the length, and an empty slice results when `end <= start`. */
  function Slice<T>(s: seq<T>, start: nat, end: nat): (r: seq<T>)
    ensures |r| == if start < end && start < |s| then Min(end, |s|) - start else 0
    ensures forall i :: 0 <= i < |r| ==> r[i] == s[start + i]
  {
    var lo := Min(start, |s|);
    var hi := Min(end, |s|);
    if lo < hi then s[lo..hi] else []
  }

  /** `s.slice(0, n)`: the first at most `n` elements. */
  function Take<T>(s: seq<T>, n: nat): (r: seq<T>)
    ensures |r| == Min(n, |s|)
    ensures r == s[..|r|]
  {
    Slice(s, 0, n)
  }

  function Min(a: int, b: int): int
  {
    if a <= b then a else b
  }
}
