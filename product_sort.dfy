/** The `sortBy` step of the catalog query (src/services/api.ts, `getAll`): five comparators
    handed to JavaScript's `Array.prototype.sort`, which is stable. The sort is modelled as a
    stable insertion sort, once as a function on sequences and once in place on an array;
    the function is proved to be the unique stable ordering by the comparator's key. */
module ProductSort {
  import opened Types

  /** The sort keys `getAll` recognises: 'price-asc', 'price-desc', 'rating', 'newest',
      'bestseller'. */
  datatype SortOrder = PriceAsc | PriceDesc | RatingDesc | Newest | Bestseller

  /** The comparator `(a, b) => …` each case passes to `sort`: negative means a goes first. */
  function Compare(order: SortOrder, a: Product, b: Product): real {
    match order
    case PriceAsc => a.price - b.price
    case PriceDesc => b.price - a.price
    case RatingDesc => b.rating - a.rating
    case Newest => (b.createdAt - a.createdAt) as real
    case Bestseller => (if b.isBestseller then 1.0 else 0.0) - (if a.isBestseller then 1.0 else 0.0)
  }

  /** The number each comparator orders by, ascending. */
  function Key(order: SortOrder, p: Product): real {
    match order
    case PriceAsc => p.price
    case PriceDesc => -p.price
    case RatingDesc => -p.rating
    case Newest => -(p.createdAt as real)
    case Bestseller => if p.isBestseller then -1.0 else 0.0
  }

  /** Every comparator is a difference of keys, hence a consistent total preorder. */
  lemma CompareIsKeyDifference(order: SortOrder, a: Product, b: Product)
    ensures Compare(order, a, b) == Key(order, a) - Key(order, b)
    ensures Compare(order, a, b) <= 0.0 <==> Key(order, a) <= Key(order, b)
  {
  }

  predicate Sorted(s: seq<Product>, order: SortOrder) {
    forall i, j :: 0 <= i < j < |s| ==> Key(order, s[i]) <= Key(order, s[j])
  }

  /** Put `x` after every element that does not compare greater than it. */
  function Insert(s: seq<Product>, x: Product, order: SortOrder): (r: seq<Product>)
    ensures |r| == |s| + 1
    decreases |s|
  {
    if s == [] then [x]
    else if Compare(order, s[|s| - 1], x) <= 0.0 then s + [x]
    else Insert(s[..|s| - 1], x, order) + [s[|s| - 1]]
  }

  /** The stable sort of `s` by `order`. */
  function SortSeq(s: seq<Product>, order: SortOrder): (r: seq<Product>)
    ensures |r| == |s|
    decreases |s|
  {
    if s == [] then [] else Insert(SortSeq(s[..|s| - 1], order), s[|s| - 1], order)
  }

  /** The elements of `s` whose key is `k`, in their order in `s`. */
  function Keyed(s: seq<Product>, order: SortOrder, k: real): seq<Product>
    decreases |s|
  {
    if s == [] then []
    else if Key(order, s[|s| - 1]) == k then Keyed(s[..|s| - 1], order, k) + [s[|s| - 1]]
    else Keyed(s[..|s| - 1], order, k)
  }

  // ---------------------------------------------------------------- permutation

  lemma {:induction false} InsertPermutes(s: seq<Product>, x: Product, order: SortOrder)
    ensures multiset(Insert(s, x, order)) == multiset(s) + multiset{x}
    decreases |s|
  {
    if s != [] && Compare(order, s[|s| - 1], x) > 0.0 {
      var init := s[..|s| - 1];
      InsertPermutes(init, x, order);
      assert s == init + [s[|s| - 1]];
    }
  }

  lemma MultisetSnoc(s: seq<Product>)
    requires s != []
    ensures multiset(s) == multiset(s[..|s| - 1]) + multiset{s[|s| - 1]}
  {
    assert s == s[..|s| - 1] + [s[|s| - 1]];
  }

  /** Sorting only permutes its input. */
  lemma {:induction false} SortPermutes(s: seq<Product>, order: SortOrder)
    ensures multiset(SortSeq(s, order)) == multiset(s)
    decreases |s|
  {
    if s != [] {
      var init := s[..|s| - 1];
      var last := s[|s| - 1];
      var sortedInit := SortSeq(init, order);
      SortPermutes(init, order);
      InsertPermutes(sortedInit, last, order);
      assert SortSeq(s, order) == Insert(sortedInit, last, order);
      MultisetSnoc(s);
    }
  }

  // ---------------------------------------------------------------- sortedness

  lemma SortedPrefix(t: seq<Product>, order: SortOrder)
    requires Sorted(t, order) && t != []
    ensures Sorted(t[..|t| - 1], order)
    ensures forall i :: 0 <= i < |t| ==> Key(order, t[i]) <= Key(order, t[|t| - 1])
  {
    var t' := t[..|t| - 1];
    forall i, j | 0 <= i < j < |t'| ensures Key(order, t'[i]) <= Key(order, t'[j]) {
      assert t'[i] == t[i] && t'[j] == t[j];
    }
  }

  lemma {:induction false} InsertBound(s: seq<Product>, x: Product, order: SortOrder, b: real)
    requires forall i :: 0 <= i < |s| ==> Key(order, s[i]) <= b
    requires Key(order, x) <= b
    ensures forall i :: 0 <= i < |s| + 1 ==> Key(order, Insert(s, x, order)[i]) <= b
    decreases |s|
  {
    if s != [] && Compare(order, s[|s| - 1], x) > 0.0 {
      var init := s[..|s| - 1];
      assert forall i :: 0 <= i < |init| ==> init[i] == s[i];
      InsertBound(init, x, order, b);
    }
  }

  lemma {:induction false} InsertSorted(s: seq<Product>, x: Product, order: SortOrder)
    requires Sorted(s, order)
    ensures Sorted(Insert(s, x, order), order)
    decreases |s|
  {
    if s != [] {
      var last := s[|s| - 1];
      CompareIsKeyDifference(order, last, x);
      if Compare(order, last, x) > 0.0 {
        var init := s[..|s| - 1];
        SortedPrefix(s, order);
        InsertSorted(init, x, order);
        InsertBound(init, x, order, Key(order, last));
        var r := Insert(init, x, order);
        assert forall i :: 0 <= i < |r| ==> (r + [last])[i] == r[i];
      }
    }
  }

  /** The result is ordered by the comparator's key. */
  lemma {:induction false} SortSorted(s: seq<Product>, order: SortOrder)
    ensures Sorted(SortSeq(s, order), order)
    decreases |s|
  {
    if s != [] {
      SortSorted(s[..|s| - 1], order);
      InsertSorted(SortSeq(s[..|s| - 1], order), s[|s| - 1], order);
    }
  }

  /** What each `sortBy` value promises of the result. */
  lemma SortOrderMeaning(s: seq<Product>, order: SortOrder)
    ensures var t := SortSeq(s, order);
      && (order == PriceAsc ==> forall i, j :: 0 <= i < j < |t| ==> t[i].price <= t[j].price)
      && (order == PriceDesc ==> forall i, j :: 0 <= i < j < |t| ==> t[i].price >= t[j].price)
      && (order == RatingDesc ==> forall i, j :: 0 <= i < j < |t| ==> t[i].rating >= t[j].rating)
      && (order == Newest ==> forall i, j :: 0 <= i < j < |t| ==> t[i].createdAt >= t[j].createdAt)
      && (order == Bestseller ==> forall i, j :: 0 <= i < j < |t| && !t[i].isBestseller ==> !t[j].isBestseller)
  {
    SortSorted(s, order);
  }

  // ---------------------------------------------------------------- stability

  lemma {:induction false} InsertKeyed(s: seq<Product>, x: Product, order: SortOrder, k: real)
    ensures Keyed(Insert(s, x, order), order, k)
         == if Key(order, x) == k then Keyed(s, order, k) + [x] else Keyed(s, order, k)
    decreases |s|
  {
    if s != [] {
      var last := s[|s| - 1];
      var init := s[..|s| - 1];
      CompareIsKeyDifference(order, last, x);
      if Compare(order, last, x) <= 0.0 {
        assert (s + [x])[..|s|] == s;
      } else {
        InsertKeyed(init, x, order, k);
        var r := Insert(init, x, order);
        assert (r + [last])[..|r|] == r;
      }
    }
  }

  /** Elements with equal keys keep their original relative order (`sort` is stable). */
  lemma {:induction false} SortStable(s: seq<Product>, order: SortOrder, k: real)
    ensures Keyed(SortSeq(s, order), order, k) == Keyed(s, order, k)
    decreases |s|
  {
    if s != [] {
      SortStable(s[..|s| - 1], order, k);
      InsertKeyed(SortSeq(s[..|s| - 1], order), s[|s| - 1], order, k);
    }
  }

  lemma {:induction false} KeyedMembers(s: seq<Product>, order: SortOrder, k: real)
    ensures forall v :: v in Keyed(s, order, k) ==> v in s && Key(order, v) == k
    ensures forall i :: 0 <= i < |s| && Key(order, s[i]) == k ==> s[i] in Keyed(s, order, k)
    decreases |s|
  {
    if s != [] {
      KeyedMembers(s[..|s| - 1], order, k);
      forall i | 0 <= i < |s| - 1 ensures s[i] == s[..|s| - 1][i] { }
    }
  }

  /** Sequences sorted by one key and agreeing on every key's subsequence end alike. */
  lemma LastAgree(t: seq<Product>, u: seq<Product>, order: SortOrder)
    requires Sorted(t, order) && Sorted(u, order) && t != [] && u != []
    requires forall k :: Keyed(t, order, k) == Keyed(u, order, k)
    ensures t[|t| - 1] == u[|u| - 1]
  {
    var y, z := t[|t| - 1], u[|u| - 1];
    var ky, kz := Key(order, y), Key(order, z);
    SortedPrefix(t, order);
    SortedPrefix(u, order);
    KeyedMembers(t, order, ky);
    KeyedMembers(u, order, ky);
    assert y in Keyed(u, order, ky);
    KeyedMembers(t, order, kz);
    KeyedMembers(u, order, kz);
    assert z in Keyed(t, order, kz);
    assert ky == kz;
    assert Keyed(t, order, ky) == Keyed(t[..|t| - 1], order, ky) + [y];
    assert Keyed(u, order, ky) == Keyed(u[..|u| - 1], order, ky) + [z];
  }

  lemma KeyedDropLast(t: seq<Product>, u: seq<Product>, order: SortOrder, k: real)
    requires t != [] && u != [] && t[|t| - 1] == u[|u| - 1]
    requires Keyed(t, order, k) == Keyed(u, order, k)
    ensures Keyed(t[..|t| - 1], order, k) == Keyed(u[..|u| - 1], order, k)
  {
    var y := t[|t| - 1];
    if Key(order, y) == k {
      var kt := Keyed(t, order, k);
      assert kt == Keyed(t[..|t| - 1], order, k) + [y];
      assert kt == Keyed(u[..|u| - 1], order, k) + [y];
      assert kt[..|kt| - 1] == Keyed(t[..|t| - 1], order, k);
    }
  }

  lemma BothEmptyOrNot(t: seq<Product>, u: seq<Product>, order: SortOrder)
    requires forall k :: Keyed(t, order, k) == Keyed(u, order, k)
    ensures t == [] <==> u == []
  {
    if t != [] {
      var k := Key(order, t[|t| - 1]);
      assert Keyed(t, order, k) != [];
      assert Keyed(u, order, k) != [];
    }
    if u != [] {
      var k := Key(order, u[|u| - 1]);
      assert Keyed(u, order, k) != [];
      assert Keyed(t, order, k) != [];
    }
  }

  /** Two sequences sorted by the same key that agree on every key's subsequence are equal:
      a stable sort has exactly one possible outcome, whatever algorithm `sort` uses. */
  lemma {:induction false} StableOutcomeUnique(t: seq<Product>, u: seq<Product>, order: SortOrder)
    requires Sorted(t, order) && Sorted(u, order)
    requires forall k :: Keyed(t, order, k) == Keyed(u, order, k)
    ensures t == u
    decreases |t| + |u|
  {
    BothEmptyOrNot(t, u, order);
    if t != [] {
      LastAgree(t, u, order);
      var t', u' := t[..|t| - 1], u[..|u| - 1];
      forall k ensures Keyed(t', order, k) == Keyed(u', order, k) {
        KeyedDropLast(t, u, order, k);
      }
      SortedPrefix(t, order);
      SortedPrefix(u, order);
      StableOutcomeUnique(t', u', order);
      assert t == t' + [t[|t| - 1]];
      assert u == u' + [u[|u| - 1]];
    }
  }

  /** Whatever stable algorithm sorts `s`, its result is `SortSeq(s, order)`. */
  lemma SortIsTheStableSort(s: seq<Product>, t: seq<Product>, order: SortOrder)
    requires Sorted(t, order)
    requires forall k :: Keyed(t, order, k) == Keyed(s, order, k)
    ensures t == SortSeq(s, order)
  {
    SortSorted(s, order);
    forall k ensures Keyed(t, order, k) == Keyed(SortSeq(s, order), order, k) {
      SortStable(s, order, k);
    }
    StableOutcomeUnique(t, SortSeq(s, order), order);
  }

  /** With the 'bestseller' key the result is the bestsellers followed by the others, each
      group in its original order. */
  lemma BestsellersFirst(s: seq<Product>)
    ensures SortSeq(s, Bestseller) == Keyed(s, Bestseller, -1.0) + Keyed(s, Bestseller, 0.0)
  {
    var t := SortSeq(s, Bestseller);
    SortSorted(s, Bestseller);
    SortStable(s, Bestseller, -1.0);
    SortStable(s, Bestseller, 0.0);
    TwoGroups(t);
  }

  lemma {:induction false} TwoGroups(t: seq<Product>)
    requires Sorted(t, Bestseller)
    ensures t == Keyed(t, Bestseller, -1.0) + Keyed(t, Bestseller, 0.0)
    decreases |t|
  {
    if t != [] {
      var init, y := t[..|t| - 1], t[|t| - 1];
      SortedPrefix(t, Bestseller);
      if y.isBestseller {
        AllBestsellers(t);
      } else {
        TwoGroups(init);
        assert Keyed(t, Bestseller, 0.0) == Keyed(init, Bestseller, 0.0) + [y];
        assert Keyed(t, Bestseller, -1.0) == Keyed(init, Bestseller, -1.0);
        assert t == init + [y];
      }
    }
  }

  lemma {:induction false} AllBestsellers(t: seq<Product>)
    requires forall i :: 0 <= i < |t| ==> t[i].isBestseller
    ensures Keyed(t, Bestseller, -1.0) == t && Keyed(t, Bestseller, 0.0) == []
    decreases |t|
  {
    if t != [] {
      var init := t[..|t| - 1];
      assert forall i :: 0 <= i < |init| ==> init[i] == t[i];
      AllBestsellers(init);
      assert t == init + [t[|t| - 1]];
    }
  }

  // ---------------------------------------------------------------- in place

  /** Where `Insert` puts `x`: after the prefix that does not compare greater than it. */
  lemma {:induction false} InsertAt(s: seq<Product>, x: Product, j: nat, order: SortOrder)
    requires j <= |s|
    requires j == 0 || Compare(order, s[j - 1], x) <= 0.0
    requires forall k :: j <= k < |s| ==> Compare(order, s[k], x) > 0.0
    ensures Insert(s, x, order) == s[..j] + [x] + s[j..]
    decreases |s|
  {
    if j < |s| {
      var init := s[..|s| - 1];
      assert forall k :: 0 <= k < |init| ==> init[k] == s[k];
      InsertAt(init, x, j, order);
      assert s[j..] == init[j..] + [s[|s| - 1]];
      assert s[..j] == init[..j];
    } else {
      assert s[..j] == s;
    }
  }

  /** The shifting loop of one pass: every element of `a[..i]` after the last one that does
      not compare greater than `a[i]` moves one place right, opening a gap at `j`. */
  method ShiftGreater(a: array<Product>, i: nat, order: SortOrder) returns (j: nat)
    requires i < a.Length
    modifies a
    ensures j <= i
    ensures forall k :: 0 <= k < j ==> a[k] == old(a[k])
    ensures forall k :: j < k <= i ==> a[k] == old(a[k - 1])
    ensures forall k :: i < k < a.Length ==> a[k] == old(a[k])
    ensures forall k :: j <= k < i ==> Compare(order, old(a[k]), old(a[i])) > 0.0
    ensures j == 0 || Compare(order, old(a[j - 1]), old(a[i])) <= 0.0
  {
    var x := a[i];
    j := i;
    while j > 0 && Compare(order, a[j - 1], x) > 0.0
      invariant 0 <= j <= i
      invariant forall k :: 0 <= k < j ==> a[k] == old(a[k])
      invariant forall k :: j < k <= i ==> a[k] == old(a[k - 1])
      invariant forall k :: i < k < a.Length ==> a[k] == old(a[k])
      invariant forall k :: j <= k < i ==> Compare(order, old(a[k]), x) > 0.0
    {
      a[j] := a[j - 1];
      j := j - 1;
    }
  }

  /** One pass of the insertion sort: `a[..i]` is sorted and `a[i]` moves into place. */
  method InsertInPlace(a: array<Product>, i: nat, order: SortOrder)
    requires i < a.Length
    modifies a
    ensures a[..i + 1] == Insert(old(a[..i]), old(a[i]), order)
    ensures forall k :: i < k < a.Length ==> a[k] == old(a[k])
  {
    var x := a[i];
    ghost var sorted := a[..i];
    var j := ShiftGreater(a, i, order);
    a[j] := x;
    InsertAt(sorted, x, j, order);
    Spliced(a[..i + 1], sorted, x, j);
  }

  /** A sequence one longer than `s` that holds `s[..j]`, then `x`, then the rest of `s`. */
  lemma Spliced(r: seq<Product>, s: seq<Product>, x: Product, j: nat)
    requires |r| == |s| + 1 && j <= |s| && r[j] == x
    requires forall k :: 0 <= k < j ==> r[k] == s[k]
    requires forall k :: j < k < |r| ==> r[k] == s[k - 1]
    ensures r == s[..j] + [x] + s[j..]
  {
    var placed := s[..j] + [x] + s[j..];
    forall k | 0 <= k < |r| ensures r[k] == placed[k] {
      if k < j {
        assert placed[k] == s[k];
      } else if j < k {
        assert placed[k] == s[k - 1];
      }
    }
  }

  /** `filteredProducts.sort(cmp)` on the array: insertion sort, shifting every element that
      compares greater than the one being placed. */
  method SortInPlace(a: array<Product>, order: SortOrder)
    modifies a
    ensures a[..] == SortSeq(old(a[..]), order)
  {
    ghost var orig := a[..];
    var i := 0;
    while i < a.Length
      invariant 0 <= i <= a.Length
      invariant a[..i] == SortSeq(orig[..i], order)
      invariant forall k :: i <= k < a.Length ==> a[k] == orig[k]
    {
      assert a[i] == orig[i];
      InsertInPlace(a, i, order);
      SortSeqExtend(orig, i, order);
      i := i + 1;
    }
    assert orig[..a.Length] == orig;
  }

  /** Sorting one more element inserts it into the sorted prefix. */
  lemma SortSeqExtend(s: seq<Product>, i: nat, order: SortOrder)
    requires i < |s|
    ensures SortSeq(s[..i + 1], order) == Insert(SortSeq(s[..i], order), s[i], order)
  {
    var p := s[..i + 1];
    assert p[..|p| - 1] == s[..i];
  }
}
