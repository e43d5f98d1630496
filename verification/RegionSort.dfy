/**
 The loops of the parallel sort as they are written, in place on the shared array. Each method is proved against
 what it promises, and against the machine of BarrierSort: its effect is a run in which only this thread steps.
 */
module RegionSort {
  import opened SortTheory
  import opened BarrierSort

  /** From `s0`, the steps of `schedule`, all taken by thread `t`, lead it to `pc` with the array at `a`. */
  ghost predicate Reaches(c: Config, t: nat, s0: State, schedule: seq<nat>, pc: Pc, a: seq<int>) {
    && t < c.threads == |s0.pcs| == |s0.rounds|
    && (forall u :: u in schedule ==> u == t)
    && Feasible(c, s0, schedule)
    && Leaves(t, s0, Run(c, s0, schedule), pc, a)
  }

  ghost predicate Leaves(t: nat, s0: State, s: State, pc: Pc, a: seq<int>) {
    s.a == a && !s.done && t < |s0.pcs| == |s.rounds| && s.pcs == s0.pcs[t := pc]
  }

  lemma OneMore(c: Config, t: nat, s0: State, schedule: seq<nat>, pc: Pc, a: seq<int>, pc': Pc, a': seq<int>)
    requires Reaches(c, t, s0, schedule, pc, a) && CanStep(c, Run(c, s0, schedule), t)
    requires Leaves(t, s0, Next(c, Run(c, s0, schedule), t), pc', a')
    ensures Reaches(c, t, s0, schedule + [t], pc', a')
  {
    RunOneMore(c, s0, schedule, t);
  }

  lemma Permuted(c: Config, t: nat, s0: State, schedule: seq<nat>, pc: Pc, a: seq<int>)
    requires Reaches(c, t, s0, schedule, pc, a)
    ensures multiset(a) == multiset(s0.a)
    ensures Inversions(a) + Run(c, s0, schedule).swaps == Inversions(s0.a) + s0.swaps
  {
    RunExchanges(c, s0, schedule);
  }

  lemma OuterStep(c: Config, t: nat, s0: State, schedule: seq<nat>, cur: nat, a: seq<int>)
    requires Reaches(c, t, s0, schedule, Outer(cur), a)
    ensures Reaches(c, t, s0, schedule + [t], if cur <= c.Right(t) then Inner(cur, cur) else Arrive, a)
  {
    OneMore(c, t, s0, schedule, Outer(cur), a, if cur <= c.Right(t) then Inner(cur, cur) else Arrive, a);
  }

  lemma InnerExchange(c: Config, t: nat, s0: State, schedule: seq<nat>, cur: nat, tmp: nat, a: seq<int>)
    requires Reaches(c, t, s0, schedule, Inner(cur, tmp), a)
    requires c.Left(t) + 1 <= tmp < |a| && a[tmp - 1] > a[tmp]
    ensures Reaches(c, t, s0, schedule + [t], Inner(cur, tmp - 1), SwapAt(a, tmp - 1))
  {
    assert s0.pcs[t := Inner(cur, tmp)][t := Inner(cur, tmp - 1)] == s0.pcs[t := Inner(cur, tmp - 1)];
    OneMore(c, t, s0, schedule, Inner(cur, tmp), a, Inner(cur, tmp - 1), SwapAt(a, tmp - 1));
  }

  lemma InnerStop(c: Config, t: nat, s0: State, schedule: seq<nat>, cur: nat, tmp: nat, a: seq<int>)
    requires Reaches(c, t, s0, schedule, Inner(cur, tmp), a)
    requires tmp < |a| && (tmp <= c.Left(t) || a[tmp - 1] <= a[tmp])
    ensures Reaches(c, t, s0, schedule + [t], Outer(cur + 1), a)
  {
    assert s0.pcs[t := Inner(cur, tmp)][t := Outer(cur + 1)] == s0.pcs[t := Outer(cur + 1)];
    OneMore(c, t, s0, schedule, Inner(cur, tmp), a, Outer(cur + 1), a);
  }

  lemma BorderSwap(c: Config, t: nat, s0: State, schedule: seq<nat>, i: nat, swapped: bool, k: nat, a: seq<int>)
    requires Reaches(c, t, s0, schedule, Borders(i, swapped), a) && i < c.threads
    requires k == i * c.len && 0 < k < |a| && a[k - 1] > a[k]
    ensures Reaches(c, t, s0, schedule + [t], Borders(i + 1, true), SwapAt(a, k - 1))
  {
    assert s0.pcs[t := Borders(i, swapped)][t := Borders(i + 1, true)] == s0.pcs[t := Borders(i + 1, true)];
    OneMore(c, t, s0, schedule, Borders(i, swapped), a, Borders(i + 1, true), SwapAt(a, k - 1));
  }

  lemma BorderSkip(c: Config, t: nat, s0: State, schedule: seq<nat>, i: nat, swapped: bool, k: nat, a: seq<int>)
    requires Reaches(c, t, s0, schedule, Borders(i, swapped), a) && i < c.threads
    requires k == i * c.len && 0 < k < |a| && a[k - 1] <= a[k]
    ensures Reaches(c, t, s0, schedule + [t], Borders(i + 1, swapped), a)
  {
    assert s0.pcs[t := Borders(i, swapped)][t := Borders(i + 1, swapped)] == s0.pcs[t := Borders(i + 1, swapped)];
    OneMore(c, t, s0, schedule, Borders(i, swapped), a, Borders(i + 1, swapped), a);
  }

  class Region {
    const mem: array<int>
    const regionLength: nat
    const left: nat
    const right: int

    constructor (mem: array<int>, threads: nat, i: nat)
      requires 1 <= threads <= mem.Length && i < threads
      ensures this.mem == mem
      ensures Describes(Config(mem.Length, threads, mem.Length / threads), i)
    {
      this.mem := mem;
      this.regionLength := mem.Length / threads;
      this.left := i * (mem.Length / threads);
      this.right := if i == threads - 1 then mem.Length - 1 else (i + 1) * (mem.Length / threads) - 1;
    }

    /** This object is thread `t`'s region in configuration `c`. */
    ghost predicate Describes(c: Config, t: nat) {
      mem.Length == c.n && regionLength == c.len && left == c.Left(t) && right == c.Right(t)
    }

    /** `swap` on two neighbours. */
    method Exchange(i: nat)
      requires i + 1 < mem.Length
      modifies mem
      ensures mem[..] == SwapAt(old(mem[..]), i)
    {
      var tmp := mem[i];
      mem[i] := mem[i + 1];
      mem[i + 1] := tmp;
    }

    /** One turn of the inner loop. */
    method ShiftLeft(cur: nat, tmp: nat, ghost c: Config, ghost t: nat, ghost s0: State, ghost sched0: seq<nat>)
      returns (ghost schedule: seq<nat>)
      requires Describes(c, t) && left < tmp <= cur <= right < mem.Length && SortedBut(mem[..], left, cur, tmp)
      requires mem[tmp - 1] > mem[tmp]
      requires Reaches(c, t, s0, sched0, Inner(cur, tmp), mem[..])
      modifies mem
      ensures SortedBut(mem[..], left, cur, tmp - 1)
      ensures forall k :: 0 <= k < mem.Length && !(left <= k <= cur) ==> mem[k] == old(mem[k])
      ensures Reaches(c, t, s0, schedule, Inner(cur, tmp - 1), mem[..])
    {
      InsertionFact(mem[..], left, cur, tmp);
      InnerExchange(c, t, s0, sched0, cur, tmp, mem[..]);
      Exchange(tmp - 1);
      schedule := sched0 + [t];
      assert forall k :: 0 <= k < mem.Length && !(left <= k <= cur) ==> mem[..][k] == old(mem[..])[k];
    }

    /** The inner loop: move `mem[cur]` left to its place in the sorted part. */
    method Insert(cur: nat, ghost c: Config, ghost t: nat, ghost s0: State, ghost sched0: seq<nat>)
      returns (ghost schedule: seq<nat>)
      requires Describes(c, t) && left <= cur <= right < mem.Length && SortedRange(mem[..], left, cur)
      requires Reaches(c, t, s0, sched0, Inner(cur, cur), mem[..])
      modifies mem
      ensures SortedRange(mem[..], left, cur + 1)
      ensures forall k :: 0 <= k < mem.Length && !(left <= k <= cur) ==> mem[k] == old(mem[k])
      ensures Reaches(c, t, s0, schedule, Outer(cur + 1), mem[..])
    {
      schedule := sched0;
      var tmp := cur;
      while tmp >= left + 1 && mem[tmp - 1] > mem[tmp]
        invariant left <= tmp <= cur && SortedBut(mem[..], left, cur, tmp)
        invariant forall k :: 0 <= k < mem.Length && !(left <= k <= cur) ==> mem[k] == old(mem[k])
        invariant Reaches(c, t, s0, schedule, Inner(cur, tmp), mem[..])
      {
        schedule := ShiftLeft(cur, tmp, c, t, s0, schedule);
        tmp := tmp - 1;
      }
      InsertionEnds(mem[..], left, cur, tmp);
      InnerStop(c, t, s0, schedule, cur, tmp, mem[..]);
      schedule := schedule + [t];
    }

    method Sort(ghost c: Config, ghost t: nat, ghost s0: State) returns (ghost schedule: seq<nat>)
      requires c.Valid() && Describes(c, t) && t < c.threads
      requires Reaches(c, t, s0, [], Outer(c.Left(t)), mem[..])
      modifies mem
      ensures left <= right < mem.Length && SortedRange(mem[..], left, right + 1)
      ensures forall k :: 0 <= k < mem.Length && !(left <= k <= right) ==> mem[k] == old(mem[k])
      ensures multiset(mem[..]) == multiset(old(mem[..]))
      ensures Reaches(c, t, s0, schedule, Arrive, mem[..])
    {
      RegionBounds(c, t);
      schedule := [];
      var cur := left;
      while cur <= right
        invariant left <= cur <= right + 1 && SortedRange(mem[..], left, cur)
        invariant forall k :: 0 <= k < mem.Length && !(left <= k <= right) ==> mem[k] == old(mem[k])
        invariant Reaches(c, t, s0, schedule, Outer(cur), mem[..])
      {
        OuterStep(c, t, s0, schedule, cur, mem[..]);
        schedule := Insert(cur, c, t, s0, schedule + [t]);
        cur := cur + 1;
      }
      OuterStep(c, t, s0, schedule, cur, mem[..]);
      schedule := schedule + [t];
      Permuted(c, t, s0, schedule, Arrive, mem[..]);
    }

    /** The border pass of the last thread to arrive; `swapped` tells whether another round is needed. */
    method FixBorders(nthreads: nat, ghost c: Config, ghost t: nat, ghost s0: State)
      returns (swapped: bool, ghost schedule: seq<nat>)
      requires c.Valid() && Describes(c, t) && nthreads == c.threads
      requires Reaches(c, t, s0, [], Borders(1, false), mem[..])
      modifies mem
      ensures swapped <==> !BordersInOrder(c, old(mem[..]), nthreads)
      ensures swapped <==> Inversions(mem[..]) < Inversions(old(mem[..]))
      ensures multiset(mem[..]) == multiset(old(mem[..]))
      ensures !swapped ==> mem[..] == old(mem[..])
      ensures Reaches(c, t, s0, schedule, Borders(nthreads, swapped), mem[..])
    {
      swapped, schedule := false, [];
      for i := 1 to nthreads
        invariant BordersInOrder(c, old(mem[..]), i) <==> !swapped
        invariant !swapped ==> mem[..] == old(mem[..])
        invariant swapped ==> Inversions(mem[..]) < Inversions(old(mem[..]))
        invariant Reaches(c, t, s0, schedule, Borders(i, swapped), mem[..])
      {
        BorderAdjacent(c, i);
        schedule, swapped := FixBorder(i, i * regionLength, swapped, c, t, s0, schedule);
      }
      Permuted(c, t, s0, schedule, Borders(nthreads, swapped), mem[..]);
    }

    /** One turn of the border loop. */
    method FixBorder(ghost i: nat, k: nat, swapped0: bool, ghost c: Config, ghost t: nat, ghost s0: State,
        ghost sched0: seq<nat>)
      returns (ghost schedule: seq<nat>, swapped: bool)
      requires c.Valid() && mem.Length == c.n && 1 <= i < c.threads && k == i * c.len && 0 < k < mem.Length
      requires Reaches(c, t, s0, sched0, Borders(i, swapped0), mem[..])
      modifies mem
      ensures swapped <==> swapped0 || !InOrderAt(c, old(mem[..]), i)
      ensures InOrderAt(c, old(mem[..]), i) ==> mem[..] == old(mem[..])
      ensures !InOrderAt(c, old(mem[..]), i) ==> Inversions(mem[..]) < Inversions(old(mem[..]))
      ensures Reaches(c, t, s0, schedule, Borders(i + 1, swapped), mem[..])
    {
      swapped, schedule := swapped0, sched0 + [t];
      if mem[k - 1] > mem[k] {
        BorderSwap(c, t, s0, sched0, i, swapped, k, mem[..]);
        SwapRemovesOne(mem[..], k - 1);
        Exchange(k - 1);
        swapped := true;
      } else {
        BorderSkip(c, t, s0, sched0, i, swapped, k, mem[..]);
      }
    }
  }
}
