/** Counting and summing over sequences, with the effect of updating one element. */
module Counting {

  function One(b: bool): nat {
    if b then 1 else 0
  }

  /** How many elements of `s` satisfy `p`. */
  function Count<T>(s: seq<T>, p: T -> bool): nat {
    if s == [] then 0 else One(p(s[0])) + Count(s[1..], p)
  }

  lemma {:induction false} CountUpdate<T>(s: seq<T>, i: nat, x: T, p: T -> bool)
    requires i < |s|
    ensures Count(s[i := x], p) + One(p(s[i])) == Count(s, p) + One(p(x))
  {
    if i == 0 {
      assert s[i := x][1..] == s[1..];
    } else {
      assert s[i := x][1..] == s[1..][i - 1 := x];
      CountUpdate(s[1..], i - 1, x, p);
    }
  }

  lemma {:induction false} CountNone<T>(s: seq<T>, p: T -> bool)
    ensures Count(s, p) == 0 <==> forall i :: 0 <= i < |s| ==> !p(s[i])
  {
    if s != [] {
      CountNone(s[1..], p);
      assert forall i :: 1 <= i < |s| ==> s[i] == s[1..][i - 1];
      assert forall i :: 0 <= i < |s| - 1 ==> s[1..][i] == s[i + 1];
    }
  }

  lemma {:induction false} CountAll<T>(s: seq<T>, p: T -> bool)
    ensures Count(s, p) <= |s|
    ensures Count(s, p) == |s| <==> forall i :: 0 <= i < |s| ==> p(s[i])
  {
    if s != [] {
      CountAll(s[1..], p);
      assert forall i :: 1 <= i < |s| ==> s[i] == s[1..][i - 1];
      assert forall i :: 0 <= i < |s| - 1 ==> s[1..][i] == s[i + 1];
    }
  }

  /** The sum of `f` over the elements of `s`. */
  function Sum<T>(s: seq<T>, f: T -> nat): nat {
    if s == [] then 0 else f(s[0]) + Sum(s[1..], f)
  }

  lemma {:induction false} SumUpdate<T>(s: seq<T>, i: nat, x: T, f: T -> nat)
    requires i < |s|
    ensures Sum(s[i := x], f) + f(s[i]) == Sum(s, f) + f(x)
  {
    if i == 0 {
      assert s[i := x][1..] == s[1..];
    } else {
      assert s[i := x][1..] == s[1..][i - 1 := x];
      SumUpdate(s[1..], i - 1, x, f);
    }
  }

  lemma {:induction false} SumBound<T>(s: seq<T>, f: T -> nat, bound: nat)
    requires forall i :: 0 <= i < |s| ==> f(s[i]) <= bound
    ensures Sum(s, f) <= |s| * bound
  {
    if s != [] {
      SumBound(s[1..], f, bound);
    }
  }

  lemma {:induction false} SumCongruent<T>(s: seq<T>, f: T -> nat, g: T -> nat)
    requires forall i :: 0 <= i < |s| ==> f(s[i]) == g(s[i])
    ensures Sum(s, f) == Sum(s, g)
  {
    if s != [] {
      SumCongruent(s[1..], f, g);
    }
  }

  /** Two sequences that agree on `p` everywhere except at one index. */
  lemma {:induction false} CountChange<T>(a: seq<T>, b: seq<T>, t: nat, p: T -> bool)
    requires |a| == |b| && t < |a| && forall i :: 0 <= i < |a| && i != t ==> p(a[i]) == p(b[i])
    ensures Count(b, p) + One(p(a[t])) == Count(a, p) + One(p(b[t]))
  {
    if t == 0 {
      CountSame(a[1..], b[1..], p);
    } else {
      CountChange(a[1..], b[1..], t - 1, p);
    }
  }

  lemma {:induction false} CountSame<T>(a: seq<T>, b: seq<T>, p: T -> bool)
    requires |a| == |b| && forall i :: 0 <= i < |a| ==> p(a[i]) == p(b[i])
    ensures Count(a, p) == Count(b, p)
  {
    if a != [] {
      CountSame(a[1..], b[1..], p);
    }
  }

  lemma {:induction false} SumChange<T>(a: seq<T>, b: seq<T>, t: nat, f: T -> nat)
    requires |a| == |b| && t < |a| && forall i :: 0 <= i < |a| && i != t ==> f(a[i]) == f(b[i])
    ensures Sum(b, f) + f(a[t]) == Sum(a, f) + f(b[t])
  {
    if t == 0 {
      SumSame(a[1..], b[1..], f);
    } else {
      SumChange(a[1..], b[1..], t - 1, f);
    }
  }

  lemma {:induction false} SumSame<T>(a: seq<T>, b: seq<T>, f: T -> nat)
    requires |a| == |b| && forall i :: 0 <= i < |a| ==> f(a[i]) == f(b[i])
    ensures Sum(a, f) == Sum(b, f)
  {
    if a != [] {
      SumSame(a[1..], b[1..], f);
    }
  }

  lemma {:induction false} SumSplit<T>(s: seq<T>, i: nat, f: T -> nat)
    requires i <= |s|
    ensures Sum(s, f) == Sum(s[..i], f) + Sum(s[i..], f)
  {
    if i == 0 {
      assert s[i..] == s;
    } else {
      SumSplit(s[1..], i - 1, f);
      assert s[1..][..i - 1] == s[..i][1..] && s[1..][i - 1..] == s[i..];
    }
  }

  lemma {:induction false} SumPart<T>(s: seq<T>, i: nat, f: T -> nat)
    requires i < |s|
    ensures f(s[i]) <= Sum(s, f)
  {
    if i > 0 {
      assert s[1..][i - 1] == s[i];
      SumPart(s[1..], i - 1, f);
    }
  }

  lemma {:induction false} SumTwoParts<T>(s: seq<T>, i: nat, j: nat, f: T -> nat)
    requires i < j < |s|
    ensures f(s[i]) + f(s[j]) <= Sum(s, f)
  {
    assert s[1..][j - 1] == s[j];
    if i == 0 {
      SumPart(s[1..], j - 1, f);
    } else {
      assert s[1..][i - 1] == s[i];
      SumTwoParts(s[1..], i - 1, j - 1, f);
    }
  }

  lemma {:induction false} SumPositive<T>(s: seq<T>, f: T -> nat) returns (i: nat)
    requires Sum(s, f) > 0
    ensures i < |s| && f(s[i]) > 0
  {
    if f(s[0]) > 0 {
      i := 0;
    } else {
      i := SumPositive(s[1..], f);
      assert s[1..][i] == s[i + 1];
      i := i + 1;
    }
  }

  // ---------------------------------------------------------------- how many different numbers fit below a bound

  lemma {:induction false} Pigeonhole(ids: seq<nat>, k: nat)
    requires forall i :: 0 <= i < |ids| ==> ids[i] < k
    requires forall i, j :: 0 <= i < j < |ids| ==> ids[i] != ids[j]
    ensures |ids| <= k
  {
    var seen := set i | 0 <= i < |ids| :: ids[i];
    SizeOfDistinct(ids);
    assert seen <= Below(k);
    BelowSize(k);
    SubsetSize(seen, Below(k));
  }

  ghost function Below(k: nat): (r: set<nat>)
    ensures forall i: nat :: i in r <==> i < k
  {
    if k == 0 then {} else Below(k - 1) + {k - 1}
  }

  lemma {:induction false} BelowSize(k: nat)
    ensures |Below(k)| == k
  {
    if k > 0 {
      BelowSize(k - 1);
    }
  }

  lemma {:induction false} SubsetSize(a: set<nat>, b: set<nat>)
    requires a <= b
    ensures |a| <= |b|
  {
    if a != {} {
      var x :| x in a;
      SubsetSize(a - {x}, b - {x});
    }
  }

  lemma {:induction false} SizeOfDistinct(ids: seq<nat>)
    requires forall i, j :: 0 <= i < j < |ids| ==> ids[i] != ids[j]
    ensures |set i | 0 <= i < |ids| :: ids[i]| == |ids|
  {
    if ids != [] {
      var r := ids[..|ids| - 1];
      SizeOfDistinct(r);
      assert (set i | 0 <= i < |ids| :: ids[i]) == (set i | 0 <= i < |r| :: r[i]) + {ids[|ids| - 1]};
    }
  }
}
