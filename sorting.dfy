/** The four orderings of the shop page and the stable sort that applies them.
    The page hands a comparator to `Array.prototype.sort`, which is stable
    since ECMAScript 2019; the sort here stands for that library routine and
    is specified by what a stable sort must deliver: a permutation, ordered by
    the comparator, with tied products in their original order. */
module Sorting {
  import opened Types
  import opened Strings

  /** The `sortBy` keys that sort; any other key keeps the order. */
  datatype Order = PriceLow | PriceHigh | ByRating | ByName

  /** `cmp(a, b) <= 0` for the comparator of `o`: `a` may come before `b`.
      Names compare by ordinal string order (`localeCompare` is locale
      dependent and is not modelled). */
  predicate Precedes(o: Order, a: Product, b: Product)
  {
    match o
    case PriceLow => a.price50 <= b.price50
    case PriceHigh => b.price50 <= a.price50
    case ByRating => b.rating <= a.rating
    case ByName => StrLe(a.name, b.name)
  }

  /** `cmp(a, b) == 0`: the comparator does not separate `a` and `b`. */
  predicate Tied(o: Order, a: Product, b: Product)
  {
    Precedes(o, a, b) && Precedes(o, b, a)
  }

  lemma PrecedesTotal(o: Order, a: Product, b: Product)
    ensures Precedes(o, a, b) || Precedes(o, b, a)
  {
    if o == ByName {
      StrLeTotal(a.name, b.name);
    }
  }

  lemma PrecedesTransitive(o: Order, a: Product, b: Product, c: Product)
    requires Precedes(o, a, b) && Precedes(o, b, c)
    ensures Precedes(o, a, c)
  {
    if o == ByName {
      StrLeTrans(a.name, b.name, c.name);
    }
  }

  /** Every pair, not just neighbours, is in comparator order. */
  predicate Sorted(o: Order, s: seq<Product>)
  {
    forall i, j :: 0 <= i < j < |s| ==> Precedes(o, s[i], s[j])
  }

  /** Insert `x` before the first element it may precede. */
  function Insert(o: Order, x: Product, r: seq<Product>): seq<Product>
  {
    if r == [] then [x]
    else if Precedes(o, x, r[0]) then [x] + r
    else [r[0]] + Insert(o, x, r[1..])
  }

  /** A stable sort by the comparator of `o`. */
  function StableSort(o: Order, s: seq<Product>): seq<Product>
  {
    if s == [] then [] else Insert(o, s[0], StableSort(o, s[1..]))
  }

  lemma {:induction false} InsertPermutes(o: Order, x: Product, r: seq<Product>)
    ensures multiset(Insert(o, x, r)) == multiset(r) + multiset{x}
  {
    if r != [] && !Precedes(o, x, r[0]) {
      InsertPermutes(o, x, r[1..]);
      assert r == [r[0]] + r[1..];
    }
  }

  /** The sort rearranges the list: same elements, same multiplicities. */
  lemma {:induction false} SortPermutes(o: Order, s: seq<Product>)
    ensures multiset(StableSort(o, s)) == multiset(s)
    ensures |StableSort(o, s)| == |s|
  {
    if s != [] {
      SortPermutes(o, s[1..]);
      InsertPermutes(o, s[0], StableSort(o, s[1..]));
      assert s == [s[0]] + s[1..];
    }
    assert |multiset(StableSort(o, s))| == |StableSort(o, s)|;
  }

  lemma {:induction false} InsertSorted(o: Order, x: Product, r: seq<Product>)
    requires Sorted(o, r)
    ensures Sorted(o, Insert(o, x, r))
  {
    if r == [] {
    } else if Precedes(o, x, r[0]) {
      forall j | 0 < j < |r| ensures Precedes(o, x, r[j]) {
        PrecedesTransitive(o, x, r[0], r[j]);
      }
      ConsSorted(o, x, r);
    } else {
      PrecedesTotal(o, x, r[0]);
      InsertSorted(o, x, r[1..]);
      InsertBelow(o, r[0], x, r[1..]);
      ConsSorted(o, r[0], Insert(o, x, r[1..]));
    }
  }

  /** A product that precedes every element of a sorted list can go in front. */
  lemma ConsSorted(o: Order, x: Product, r: seq<Product>)
    requires Sorted(o, r)
    requires forall k :: 0 <= k < |r| ==> Precedes(o, x, r[k])
    ensures Sorted(o, [x] + r)
  {
    var t := [x] + r;
    forall i, j | 0 <= i < j < |t| ensures Precedes(o, t[i], t[j]) {
      if i > 0 {
        assert t[i] == r[i - 1] && t[j] == r[j - 1];
      }
    }
  }

  /** What precedes `x` and every element of a sorted list precedes every
      element after `x` is inserted. */
  lemma InsertBelow(o: Order, y: Product, x: Product, r: seq<Product>)
    requires Precedes(o, y, x)
    requires forall k :: 0 <= k < |r| ==> Precedes(o, y, r[k])
    ensures forall k :: 0 <= k < |Insert(o, x, r)| ==> Precedes(o, y, Insert(o, x, r)[k])
  {
    var rest := Insert(o, x, r);
    InsertPermutes(o, x, r);
    forall k | 0 <= k < |rest| ensures Precedes(o, y, rest[k]) {
      assert rest[k] in multiset(rest);
      if rest[k] != x {
        assert rest[k] in multiset(r);
        var m :| 0 <= m < |r| && r[m] == rest[k];
      }
    }
  }

  /** The sort's result is in comparator order: nondecreasing `price50` for
      `PriceLow`, nonincreasing `price50` for `PriceHigh`, nonincreasing rating
      for `ByRating`, nondecreasing name for `ByName`. */
  lemma {:induction false} SortSorted(o: Order, s: seq<Product>)
    ensures Sorted(o, StableSort(o, s))
  {
    if s != [] {
      SortSorted(o, s[1..]);
      InsertSorted(o, s[0], StableSort(o, s[1..]));
    }
  }

  /** The products of `s` tied with `y`, in the order of `s`. */
  function Ties(o: Order, s: seq<Product>, y: Product): (r: seq<Product>)
    ensures forall k :: 0 <= k < |r| ==> Tied(o, r[k], y)
  {
    if s == [] then []
    else (if Tied(o, s[0], y) then [s[0]] else []) + Ties(o, s[1..], y)
  }

  lemma {:induction false} InsertTies(o: Order, x: Product, r: seq<Product>, y: Product)
    ensures Ties(o, Insert(o, x, r), y) ==
            (if Tied(o, x, y) then [x] else []) + Ties(o, r, y)
  {
    if r == [] {
    } else if Precedes(o, x, r[0]) {
      assert ([x] + r)[1..] == r;
    } else {
      InsertTies(o, x, r[1..], y);
      var t := [r[0]] + Insert(o, x, r[1..]);
      assert t[1..] == Insert(o, x, r[1..]);
      if Tied(o, x, y) && Tied(o, r[0], y) {
        PrecedesTransitive(o, x, y, r[0]);
        assert false;
      }
    }
  }

  /** Stability: for every product `y`, the products tied with `y` keep their
      original relative order. */
  lemma {:induction false} SortStable(o: Order, s: seq<Product>, y: Product)
    ensures Ties(o, StableSort(o, s), y) == Ties(o, s, y)
  {
    if s != [] {
      SortStable(o, s[1..], y);
      InsertTies(o, s[0], StableSort(o, s[1..]), y);
    }
  }

  /** A list already in comparator order comes back unchanged; in particular
      a list whose products are all tied is not reordered. */
  lemma {:induction false} SortedUnchanged(o: Order, s: seq<Product>)
    requires Sorted(o, s)
    ensures StableSort(o, s) == s
  {
    if s != [] {
      assert Sorted(o, s[1..]) by {
        forall i, j | 0 <= i < j < |s[1..]| ensures Precedes(o, s[1..][i], s[1..][j]) {
          assert s[1..][i] == s[i + 1] && s[1..][j] == s[j + 1];
        }
      }
      SortedUnchanged(o, s[1..]);
      if |s| > 1 {
        assert Precedes(o, s[0], s[1]);
        assert s[1..][0] == s[1];
      }
      assert [s[0]] + s[1..] == s;
    }
  }
}
