/**
 The sequential merge sort, in place on an array as it is written, and what it computes: the one stable
 arrangement of the input by key. The code compares integers; `origin` is never read and only tells equal keys apart.
 */
module MergeSorting {

  datatype Item = Item(key: int, origin: int)

  ghost predicate SortedByKey(s: seq<Item>) {
    forall i, j :: 0 <= i < j < |s| ==> s[i].key <= s[j].key
  }

  /** The elements with key `k`, in order. */
  ghost function WithKey(s: seq<Item>, k: int): seq<Item> {
    if s == [] then [] else (if s[0].key == k then [s[0]] else []) + WithKey(s[1..], k)
  }

  /** `r` arranges `s` by key and keeps the order of equal keys. */
  ghost predicate StableSortOf(s: seq<Item>, r: seq<Item>) {
    SortedByKey(r) && forall k :: WithKey(r, k) == WithKey(s, k)
  }

  function Merge(xs: seq<Item>, ys: seq<Item>): (r: seq<Item>)
    ensures |r| == |xs| + |ys|
  {
    if xs == [] then ys
    else if ys == [] then xs
    else if xs[0].key <= ys[0].key then [xs[0]] + Merge(xs[1..], ys)
    else [ys[0]] + Merge(xs, ys[1..])
  }

  /** The length of the left half of `n` elements, from `middle = left + (right - left) / 2`. */
  function Half(n: nat): (h: nat)
    requires n >= 1
    ensures h <= n && (n >= 2 ==> 1 <= h < n)
  {
    (n - 1) / 2 + 1
  }

  function MergeSort(s: seq<Item>): (r: seq<Item>)
    ensures |r| == |s|
    decreases |s|
  {
    if |s| <= 1 then s else Merge(MergeSort(s[..Half(|s|)]), MergeSort(s[Half(|s|)..]))
  }

  // ---------------------------------------------------------------- what it computes

  lemma {:induction false} WithKeyConcat(s: seq<Item>, t: seq<Item>, k: int)
    ensures WithKey(s + t, k) == WithKey(s, k) + WithKey(t, k)
  {
    if s == [] {
      assert s + t == t;
    } else {
      WithKeyConcat(s[1..], t, k);
      var h := if s[0].key == k then [s[0]] else [];
      assert (s + t)[0] == s[0] && (s + t)[1..] == s[1..] + t;
      assert WithKey(s + t, k) == h + WithKey(s[1..] + t, k);
      assert h + (WithKey(s[1..], k) + WithKey(t, k)) == h + WithKey(s[1..], k) + WithKey(t, k);
    }
  }

  lemma {:induction false} NoneWithKey(s: seq<Item>, k: int)
    requires forall i :: 0 <= i < |s| ==> s[i].key != k
    ensures WithKey(s, k) == []
  {
    if s != [] {
      NoneWithKey(s[1..], k);
    }
  }

  lemma {:induction false} MergeKeepsKeys(xs: seq<Item>, ys: seq<Item>, k: int)
    requires SortedByKey(xs)
    ensures WithKey(Merge(xs, ys), k) == WithKey(xs, k) + WithKey(ys, k)
    decreases |xs| + |ys|
  {
    if xs == [] || ys == [] {
    } else if xs[0].key <= ys[0].key {
      MergeKeepsKeys(xs[1..], ys, k);
      assert Merge(xs, ys)[1..] == Merge(xs[1..], ys);
    } else {
      MergeKeepsKeys(xs, ys[1..], k);
      assert Merge(xs, ys)[1..] == Merge(xs, ys[1..]);
      if ys[0].key == k {
        NoneWithKey(xs, k);
      }
    }
  }

  lemma {:induction false} MergeAtLeast(xs: seq<Item>, ys: seq<Item>, bound: int)
    requires forall i :: 0 <= i < |xs| ==> bound <= xs[i].key
    requires forall i :: 0 <= i < |ys| ==> bound <= ys[i].key
    ensures forall i :: 0 <= i < |xs| + |ys| ==> bound <= Merge(xs, ys)[i].key
    decreases |xs| + |ys|
  {
    if xs == [] || ys == [] {
    } else if xs[0].key <= ys[0].key {
      MergeAtLeast(xs[1..], ys, bound);
    } else {
      MergeAtLeast(xs, ys[1..], bound);
    }
  }

  lemma {:induction false} MergeSorted(xs: seq<Item>, ys: seq<Item>)
    requires SortedByKey(xs) && SortedByKey(ys)
    ensures SortedByKey(Merge(xs, ys))
    decreases |xs| + |ys|
  {
    if xs == [] || ys == [] {
    } else if xs[0].key <= ys[0].key {
      MergeSorted(xs[1..], ys);
      MergeAtLeast(xs[1..], ys, xs[0].key);
    } else {
      MergeSorted(xs, ys[1..]);
      MergeAtLeast(xs, ys[1..], ys[0].key);
    }
  }

  lemma {:induction false} MergeSortIsStable(s: seq<Item>)
    ensures StableSortOf(s, MergeSort(s))
    decreases |s|
  {
    if |s| >= 2 {
      var xs, ys := s[..Half(|s|)], s[Half(|s|)..];
      assert s == xs + ys;
      MergeSortIsStable(xs);
      MergeSortIsStable(ys);
      MergeSorted(MergeSort(xs), MergeSort(ys));
      forall k ensures WithKey(MergeSort(s), k) == WithKey(s, k) {
        MergeKeepsKeys(MergeSort(xs), MergeSort(ys), k);
        WithKeyConcat(xs, ys, k);
      }
    }
  }

  lemma {:induction false} WithKeyNonempty(s: seq<Item>, i: nat)
    requires i < |s|
    ensures WithKey(s, s[i].key) != []
  {
    if i > 0 {
      WithKeyNonempty(s[1..], i - 1);
    }
  }

  lemma {:induction false} WithKeyFound(s: seq<Item>, k: int) returns (i: nat)
    requires WithKey(s, k) != []
    ensures i < |s| && s[i].key == k
  {
    if s[0].key == k {
      i := 0;
    } else {
      i := WithKeyFound(s[1..], k);
      i := i + 1;
    }
  }

  lemma FirstKeyAtMost(s: seq<Item>, r: seq<Item>)
    requires SortedByKey(s) && r != [] && forall k :: WithKey(r, k) == WithKey(s, k)
    ensures s != [] && s[0].key <= r[0].key
  {
    WithKeyNonempty(r, 0);
    var i := WithKeyFound(s, r[0].key);
  }

  /** There is only one stable arrangement, so StableSortOf pins the result down completely. */
  lemma {:induction false} StableSortIsUnique(s: seq<Item>, r: seq<Item>)
    requires SortedByKey(s) && SortedByKey(r) && forall k :: WithKey(s, k) == WithKey(r, k)
    ensures s == r
    decreases |s|
  {
    if s == [] {
      if r != [] { FirstKeyAtMost(s, r); }
    } else {
      FirstKeyAtMost(r, s);
      FirstKeyAtMost(s, r);
      var k0 := s[0].key;
      assert WithKey(s, k0)[0] == s[0] && WithKey(r, k0)[0] == r[0];
      forall k ensures WithKey(s[1..], k) == WithKey(r[1..], k) {
        if k == k0 {
          assert WithKey(s, k)[1..] == WithKey(s[1..], k) && WithKey(r, k)[1..] == WithKey(r[1..], k);
        } else {
          assert WithKey(s, k) == WithKey(s[1..], k) && WithKey(r, k) == WithKey(r[1..], k);
        }
      }
      StableSortIsUnique(s[1..], r[1..]);
      assert s == [s[0]] + s[1..] && r == [r[0]] + r[1..];
    }
  }

  lemma {:induction false} SameKeysSamePermutation(s: seq<Item>, x: Item)
    ensures multiset(WithKey(s, x.key))[x] == multiset(s)[x]
  {
    if s != [] {
      SameKeysSamePermutation(s[1..], x);
      assert s == [s[0]] + s[1..];
    }
  }

  lemma StableSortPermutes(s: seq<Item>, r: seq<Item>)
    requires StableSortOf(s, r)
    ensures multiset(s) == multiset(r)
  {
    forall x: Item ensures multiset(s)[x] == multiset(r)[x] {
      SameKeysSamePermutation(s, x);
      SameKeysSamePermutation(r, x);
    }
  }

  // ---------------------------------------------------------------- the loops

  lemma Associate(a: seq<Item>, b: seq<Item>, c: seq<Item>)
    ensures a + b + c == a + (b + c)
  {}

  lemma MergeTakesLeft(xs: seq<Item>, ys: seq<Item>, i: nat, j: nat)
    requires i < |xs| && j <= |ys| && (j == |ys| || xs[i].key <= ys[j].key)
    ensures Merge(xs[i..], ys[j..]) == [xs[i]] + Merge(xs[i + 1..], ys[j..])
  {
    assert xs[i..][1..] == xs[i + 1..];
    if j == |ys| {
      assert ys[j..] == [] && xs[i..] == [xs[i]] + xs[i + 1..];
      assert Merge(xs[i + 1..], []) == xs[i + 1..];
    }
  }

  lemma MergeTakesRight(xs: seq<Item>, ys: seq<Item>, i: nat, j: nat)
    requires i <= |xs| && j < |ys| && (i == |xs| || xs[i].key > ys[j].key)
    ensures Merge(xs[i..], ys[j..]) == [ys[j]] + Merge(xs[i..], ys[j + 1..])
  {
    assert ys[j..][1..] == ys[j + 1..];
    if i == |xs| {
      assert xs[i..] == [] && ys[j..] == [ys[j]] + ys[j + 1..];
    }
  }

  /** One turn of the merge loop, seen from the remaining parts. */
  lemma MergeTakes(done: seq<Item>, xs: seq<Item>, ys: seq<Item>, i: nat, j: nat)
    requires i <= |xs| && j <= |ys| && done + Merge(xs[i..], ys[j..]) == Merge(xs, ys)
    ensures i < |xs| && (j == |ys| || xs[i].key <= ys[j].key) ==>
              done + [xs[i]] + Merge(xs[i + 1..], ys[j..]) == Merge(xs, ys)
    ensures j < |ys| && (i == |xs| || xs[i].key > ys[j].key) ==>
              done + [ys[j]] + Merge(xs[i..], ys[j + 1..]) == Merge(xs, ys)
  {
    hide Merge;
    if i < |xs| && (j == |ys| || xs[i].key <= ys[j].key) {
      MergeTakesLeft(xs, ys, i, j);
      Associate(done, [xs[i]], Merge(xs[i + 1..], ys[j..]));
    }
    if j < |ys| && (i == |xs| || xs[i].key > ys[j].key) {
      MergeTakesRight(xs, ys, i, j);
      Associate(done, [ys[j]], Merge(xs[i..], ys[j + 1..]));
    }
  }

  method CopyOut(vet: array<Item>, from: nat, n: nat) returns (copy: array<Item>)
    requires from + n <= vet.Length
    ensures fresh(copy) && copy[..] == vet[..][from..from + n]
  {
    copy := new Item[n];
    var i := 0;
    while i < n
      invariant i <= n && copy[..i] == vet[from..from + i]
    {
      copy[i] := vet[from + i];
      i := i + 1;
    }
  }

  /** How far the merge has come: `k` items written, `i` and `j` consumed, and the rest still to merge. */
  ghost predicate MergedUpTo(a: seq<Item>, v: seq<Item>, left: nat, right: nat, x: seq<Item>, y: seq<Item>, i: nat,
      j: nat) {
    && |v| == |a| && right < |a| && left + |x| + |y| == right + 1 && i <= |x| && j <= |y|
    && v[..left] == a[..left] && v[right + 1..] == a[right + 1..]
    && v[left..left + i + j] + Merge(x[i..], y[j..]) == Merge(x, y)
  }

  lemma TakeLeft(a: seq<Item>, v: seq<Item>, left: nat, right: nat, x: seq<Item>, y: seq<Item>, i: nat, j: nat)
    requires MergedUpTo(a, v, left, right, x, y, i, j) && i < |x| && (j == |y| || x[i].key <= y[j].key)
    ensures MergedUpTo(a, v[left + i + j := x[i]], left, right, x, y, i + 1, j)
  {
    MergeTakes(v[left..left + i + j], x, y, i, j);
    var w := v[left + i + j := x[i]];
    assert w[left..left + i + j + 1] == v[left..left + i + j] + [x[i]];
  }

  lemma TakeRight(a: seq<Item>, v: seq<Item>, left: nat, right: nat, x: seq<Item>, y: seq<Item>, i: nat, j: nat)
    requires MergedUpTo(a, v, left, right, x, y, i, j) && j < |y| && (i == |x| || x[i].key > y[j].key)
    ensures MergedUpTo(a, v[left + i + j := y[j]], left, right, x, y, i, j + 1)
  {
    MergeTakes(v[left..left + i + j], x, y, i, j);
    var w := v[left + i + j := y[j]];
    assert w[left..left + i + j + 1] == v[left..left + i + j] + [y[j]];
  }

  lemma MergeStarts(a: seq<Item>, left: nat, right: nat, x: seq<Item>, y: seq<Item>)
    requires right < |a| && left + |x| + |y| == right + 1
    ensures MergedUpTo(a, a, left, right, x, y, 0, 0)
  {
    assert x[0..] == x && y[0..] == y;
    assert a[left..left] + Merge(x, y) == Merge(x, y);
  }

  /** `v` is `a` with the two neighbouring ranges merged and everything else as it was. */
  ghost predicate MergedRange(a: seq<Item>, v: seq<Item>, left: nat, middle: nat, right: nat) {
    && left <= middle < right < |a| && |v| == |a|
    && v[left..right + 1] == Merge(a[left..middle + 1], a[middle + 1..right + 1])
    && v[..left] == a[..left] && v[right + 1..] == a[right + 1..]
  }

  method Put(vet: array<Item>, k: nat, item: Item)
    requires k < vet.Length
    modifies vet
    ensures vet[..] == old(vet[..])[k := item]
  {
    vet[k] := item;
  }

  /** One turn: the smaller head, the first copy's when they are equal. */
  method TakeSmaller(vet: array<Item>, xs: array<Item>, ys: array<Item>, left: nat, ghost right: nat, i: nat, j: nat,
                     ghost a: seq<Item>, ghost x: seq<Item>, ghost y: seq<Item>)
    returns (i': nat, j': nat)
    requires vet != xs && vet != ys && xs[..] == x && ys[..] == y && i < |x| && j < |y|
    requires MergedUpTo(a, vet[..], left, right, x, y, i, j)
    modifies vet
    ensures MergedUpTo(a, vet[..], left, right, x, y, i', j') && i' + j' == i + j + 1
  {
    ghost var v := vet[..];
    if xs[i].key <= ys[j].key {
      Put(vet, left + i + j, xs[i]);
      TakeLeft(a, v, left, right, x, y, i, j);
      i', j' := i + 1, j;
    } else {
      Put(vet, left + i + j, ys[j]);
      TakeRight(a, v, left, right, x, y, i, j);
      i', j' := i, j + 1;
    }
  }

  /** The loop that compares the heads of the two copies until one of them is used up. */
  method MergeHeads(vet: array<Item>, xs: array<Item>, ys: array<Item>, left: nat, ghost right: nat,
                    ghost a: seq<Item>, ghost x: seq<Item>, ghost y: seq<Item>)
    returns (i: nat, j: nat)
    requires vet != xs && vet != ys && vet[..] == a && xs[..] == x && ys[..] == y
    requires right < |a| && left + |x| + |y| == right + 1
    modifies vet
    ensures MergedUpTo(a, vet[..], left, right, x, y, i, j) && (i == |x| || j == |y|)
  {
    MergeStarts(a, left, right, x, y);
    i, j := 0, 0;
    while i < xs.Length && j < ys.Length
      invariant xs[..] == x && ys[..] == y && MergedUpTo(a, vet[..], left, right, x, y, i, j)
      decreases |x| + |y| - i - j
    {
      i, j := TakeSmaller(vet, xs, ys, left, right, i, j, a, x, y);
    }
  }

  /** The loop that copies what is left of the first copy. */
  method DrainLeft(vet: array<Item>, xs: array<Item>, left: nat, ghost right: nat, from: nat, j: nat,
                   ghost a: seq<Item>, ghost x: seq<Item>, ghost y: seq<Item>)
    requires vet != xs && xs[..] == x && from <= |x| && (from == |x| || j == |y|)
    requires MergedUpTo(a, vet[..], left, right, x, y, from, j)
    modifies vet
    ensures MergedUpTo(a, vet[..], left, right, x, y, |x|, j)
  {
    var i := from;
    while i < xs.Length
      invariant from <= i <= |x| && MergedUpTo(a, vet[..], left, right, x, y, i, j)
    {
      ghost var v := vet[..];
      Put(vet, left + i + j, xs[i]);
      TakeLeft(a, v, left, right, x, y, i, j);
      i := i + 1;
    }
  }

  /** The loop that copies what is left of the second copy. */
  method DrainRight(vet: array<Item>, ys: array<Item>, left: nat, ghost right: nat, i: nat, from: nat,
                    ghost a: seq<Item>, ghost x: seq<Item>, ghost y: seq<Item>)
    requires vet != ys && ys[..] == y && from <= |y| && i == |x|
    requires MergedUpTo(a, vet[..], left, right, x, y, i, from)
    modifies vet
    ensures MergedUpTo(a, vet[..], left, right, x, y, i, |y|)
  {
    var j := from;
    while j < ys.Length
      invariant from <= j <= |y| && MergedUpTo(a, vet[..], left, right, x, y, i, j)
    {
      ghost var v := vet[..];
      Put(vet, left + i + j, ys[j]);
      TakeRight(a, v, left, right, x, y, i, j);
      j := j + 1;
    }
  }

  lemma MergeEnds(a: seq<Item>, w: seq<Item>, left: nat, middle: nat, right: nat, x: seq<Item>, y: seq<Item>)
    requires left <= middle < right < |a| && x == a[left..middle + 1] && y == a[middle + 1..right + 1]
    requires MergedUpTo(a, w, left, right, x, y, |x|, |y|)
    ensures MergedRange(a, w, left, middle, right)
  {}

  method MergeInPlace(vet: array<Item>, left: nat, middle: nat, right: nat)
    requires left <= middle < right < vet.Length
    modifies vet
    ensures MergedRange(old(vet[..]), vet[..], left, middle, right)
  {
    var n1, n2 := middle - left + 1, right - middle;
    var xs := CopyOut(vet, left, n1);
    var ys := CopyOut(vet, middle + 1, n2);
    ghost var a, x, y := vet[..], xs[..], ys[..];
    var i, j := MergeHeads(vet, xs, ys, left, right, a, x, y);
    DrainLeft(vet, xs, left, right, i, j, a, x, y);
    DrainRight(vet, ys, left, right, n1, j, a, x, y);
    MergeEnds(a, vet[..], left, middle, right, x, y);
  }

  /** `v` is `a` with one range sorted and everything else as it was. */
  ghost predicate SortedSlice(a: seq<Item>, v: seq<Item>, left: nat, right: int) {
    && left <= right + 1 <= |a| && |v| == |a|
    && v[left..right + 1] == MergeSort(a[left..right + 1])
    && v[..left] == a[..left] && v[right + 1..] == a[right + 1..]
  }

  lemma Slices(a: seq<Item>, l: nat, m: nat)
    requires l <= m <= |a|
    ensures a[..m][l..] == a[l..m] && a[..m][..l] == a[..l] && a[l..][..m - l] == a[l..m] && a[l..][m - l..] == a[m..]
  {}

  /** Two arrays that agree on a prefix or on a suffix agree on the slices of it. */
  lemma SameSlices(a: seq<Item>, b: seq<Item>, l: nat, m: nat)
    requires |a| == |b| && l <= m <= |a|
    ensures a[..m] == b[..m] ==> a[l..m] == b[l..m] && a[..l] == b[..l]
    ensures a[l..] == b[l..] ==> a[l..m] == b[l..m] && a[m..] == b[m..]
  {
    Slices(a, l, m);
    Slices(b, l, m);
  }

  lemma HalvesOfSlice(a: seq<Item>, left: nat, middle: nat, right: nat)
    requires left <= right < |a| && middle == left + (right - left) / 2
    ensures var s := a[left..right + 1];
      Half(|s|) == middle - left + 1 && s[..Half(|s|)] == a[left..middle + 1]
          && s[Half(|s|)..] == a[middle + 1..right + 1]
  {}

  lemma LeftUntouched(b: seq<Item>, d: seq<Item>, left: nat, middle: nat, right: nat)
    requires left <= middle < right && SortedSlice(b, d, middle + 1, right)
    ensures |d| == |b| && right < |b| && d[left..middle + 1] == b[left..middle + 1]
    ensures d[..left] == b[..left] && d[right + 1..] == b[right + 1..]
    ensures d[middle + 1..right + 1] == MergeSort(b[middle + 1..right + 1])
  {
    hide MergeSort;
    SameSlices(b, d, left, middle + 1);
  }

  lemma RightUntouched(a: seq<Item>, b: seq<Item>, left: nat, middle: nat, right: nat)
    requires left <= middle < right < |a| && SortedSlice(a, b, left, middle)
    ensures |b| == |a| && b[middle + 1..right + 1] == a[middle + 1..right + 1]
    ensures b[..left] == a[..left] && b[right + 1..] == a[right + 1..]
    ensures b[left..middle + 1] == MergeSort(a[left..middle + 1])
  {
    hide MergeSort;
    SameSlices(a, b, middle + 1, right + 1);
  }

  lemma SortOfHalves(a: seq<Item>, left: nat, middle: nat, right: nat)
    requires left < right < |a| && middle == left + (right - left) / 2
    ensures MergeSort(a[left..right + 1]) == Merge(MergeSort(a[left..middle + 1]), MergeSort(a[middle + 1..right + 1]))
  {
    HalvesOfSlice(a, left, middle, right);
  }

  lemma SortHalves(a: seq<Item>, b: seq<Item>, d: seq<Item>, e: seq<Item>, left: nat, middle: nat, right: nat)
    requires left < right && middle == left + (right - left) / 2
    requires SortedSlice(a, b, left, middle) && SortedSlice(b, d, middle + 1, right)
      && MergedRange(d, e, left, middle, right)
    ensures SortedSlice(a, e, left, right)
  {
    hide MergeSort, Merge;
    LeftUntouched(b, d, left, middle, right);
    RightUntouched(a, b, left, middle, right);
    SortOfHalves(a, left, middle, right);
  }

  method SortInPlace(vet: array<Item>, left: nat, right: int)
    requires left <= right + 1 <= vet.Length
    modifies vet
    ensures SortedSlice(old(vet[..]), vet[..], left, right)
    decreases right - left
  {
    if left < right {
      hide MergeSort, SortedSlice, MergedRange;
      var middle := left + (right - left) / 2;
      ghost var a := vet[..];
      SortInPlace(vet, left, middle);
      ghost var b := vet[..];
      SortInPlace(vet, middle + 1, right);
      ghost var d := vet[..];
      MergeInPlace(vet, left, middle, right);
      SortHalves(a, b, d, vet[..], left, middle, right);
    }
  }
}
