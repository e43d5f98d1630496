/** Inversions of an integer sequence: the measure that both the region sort and the border pass drive to zero. */
module SortTheory {

  ghost predicate SortedRange(s: seq<int>, lo: int, hi: int)
    requires 0 <= lo && hi <= |s|
  {
    forall i, j :: lo <= i < j < hi ==> s[i] <= s[j]
  }

  ghost predicate Sorted(s: seq<int>) {
    SortedRange(s, 0, |s|)
  }

  /** How many elements of `s` exceed `x`. */
  function Above(s: seq<int>, x: int): nat {
    if s == [] then 0 else Above(s[..|s| - 1], x) + if s[|s| - 1] > x then 1 else 0
  }

  /** The number of index pairs that are out of order; `InversionsArePairs` is its meaning. */
  function Inversions(s: seq<int>): nat {
    if s == [] then 0 else Inversions(s[..|s| - 1]) + Above(s[..|s| - 1], s[|s| - 1])
  }

  ghost function Pairs(s: seq<int>): set<(int, int)> {
    set i: int, j: int | 0 <= i < j < |s| && s[i] > s[j] :: (i, j)
  }

  ghost function Over(s: seq<int>, x: int, top: int): set<(int, int)> {
    set i: int | 0 <= i < |s| && s[i] > x :: (i, top)
  }

  lemma {:induction false} AboveIsCardinality(s: seq<int>, x: int, top: int)
    ensures |Over(s, x, top)| == Above(s, x)
  {
    if s == [] {
      assert Over(s, x, top) == {};
    } else {
      var t, e := s[..|s| - 1], s[|s| - 1];
      AboveIsCardinality(t, x, top);
      if e > x {
        assert Over(s, x, top) == Over(t, x, top) + {(|s| - 1, top)};
      } else {
        assert Over(s, x, top) == Over(t, x, top);
      }
    }
  }

  lemma PairsOfLast(s: seq<int>)
    requires s != []
    ensures var t, e := s[..|s| - 1], s[|s| - 1];
      Pairs(s) == Pairs(t) + Over(t, e, |s| - 1) && Pairs(t) !! Over(t, e, |s| - 1)
  {
    var t, e := s[..|s| - 1], s[|s| - 1];
    forall p | p in Pairs(s) ensures p in Pairs(t) + Over(t, e, |s| - 1) {
      if p.1 == |s| - 1 {
        assert t[p.0] > e;
      } else {
        assert t[p.0] > t[p.1];
      }
    }
  }

  lemma {:induction false} InversionsArePairs(s: seq<int>)
    ensures |Pairs(s)| == Inversions(s)
  {
    if s == [] {
      assert Pairs(s) == {};
    } else {
      var t, e := s[..|s| - 1], s[|s| - 1];
      InversionsArePairs(t);
      AboveIsCardinality(t, e, |s| - 1);
      PairsOfLast(s);
    }
  }

  /** Exchange of the neighbours `i` and `i + 1`. */
  function SwapAt(s: seq<int>, i: nat): (r: seq<int>)
    requires i + 1 < |s|
    ensures |r| == |s|
  {
    s[i := s[i + 1]][i + 1 := s[i]]
  }

  lemma {:induction false} SwapKeepsAbove(s: seq<int>, i: nat, x: int)
    requires i + 1 < |s|
    ensures Above(SwapAt(s, i), x) == Above(s, x)
  {
    var n, r := |s|, SwapAt(s, i);
    if i + 2 == n {
      assert r[..n - 1][..n - 2] == s[..n - 1][..n - 2];
    } else {
      SwapKeepsAbove(s[..n - 1], i, x);
      assert r[..n - 1] == SwapAt(s[..n - 1], i);
    }
  }

  lemma SwapPermutes(s: seq<int>, i: nat)
    requires i + 1 < |s|
    ensures multiset(SwapAt(s, i)) == multiset(s)
  {}

  /** Swapping neighbours that are strictly out of order removes exactly one inversion. */
  lemma {:induction false} SwapRemovesOne(s: seq<int>, i: nat)
    requires i + 1 < |s| && s[i] > s[i + 1]
    ensures Inversions(SwapAt(s, i)) + 1 == Inversions(s)
  {
    var n, r := |s|, SwapAt(s, i);
    if i + 2 == n {
      var t := s[..n - 2];
      assert s[..n - 1][..n - 2] == t && r[..n - 1][..n - 2] == t;
      assert s[..n - 1][n - 2] == s[i] && r[..n - 1][n - 2] == s[i + 1];
    } else {
      SwapRemovesOne(s[..n - 1], i);
      assert r[..n - 1] == SwapAt(s[..n - 1], i);
      SwapKeepsAbove(s[..n - 1], i, s[n - 1]);
    }
  }

  lemma NoPairsIffSorted(s: seq<int>)
    ensures Inversions(s) == 0 <==> Sorted(s)
  {
    InversionsArePairs(s);
    if Inversions(s) == 0 {
      forall i, j | 0 <= i < j < |s| ensures s[i] <= s[j] {
        assert Pairs(s) == {};
        assert (i, j) !in Pairs(s);
      }
    }
    if Sorted(s) {
      assert Pairs(s) == {};
    }
  }

  lemma CutLast(s: seq<int>)
    requires s != []
    ensures multiset(s[..|s| - 1]) == multiset(s) - multiset{s[|s| - 1]}
    ensures s[|s| - 1] in multiset(s)
  {
    assert s == s[..|s| - 1] + [s[|s| - 1]];
  }

  lemma SameMaximum(s: seq<int>, t: seq<int>)
    requires Sorted(s) && s != [] && t != [] && t[|t| - 1] in multiset(s)
    ensures t[|t| - 1] <= s[|s| - 1]
  {
    var i :| 0 <= i < |s| && s[i] == t[|t| - 1];
  }

  lemma EmptyMultiset(s: seq<int>)
    requires multiset(s) == multiset{}
    ensures s == []
  {
    if s != [] { CutLast(s); }
  }

  lemma SameLast(s: seq<int>, t: seq<int>)
    requires Sorted(s) && Sorted(t) && multiset(s) == multiset(t) && s != [] && t != []
    ensures s[|s| - 1] == t[|t| - 1] && multiset(s[..|s| - 1]) == multiset(t[..|t| - 1])
  {
    CutLast(s);
    CutLast(t);
    SameMaximum(s, t);
    SameMaximum(t, s);
  }

  /** A sorted arrangement of given values is unique, so every complete run yields the same array. */
  lemma {:induction false} SortedIsUnique(s: seq<int>, t: seq<int>)
    requires Sorted(s) && Sorted(t) && multiset(s) == multiset(t)
    ensures s == t
    decreases |s|
  {
    if s == [] {
      EmptyMultiset(t);
    } else if t == [] {
      EmptyMultiset(s);
    } else {
      SameLast(s, t);
      SortedIsUnique(s[..|s| - 1], t[..|t| - 1]);
      assert s == s[..|s| - 1] + [s[|s| - 1]];
      assert t == t[..|t| - 1] + [t[|t| - 1]];
    }
  }
}
