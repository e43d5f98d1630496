/**
 The threaded merge sort: a tree of tasks over one shared array. Above the threshold the two halves are sorted by
 two threads, below it one after the other; every merge runs under one mutex, one element at a time.
 A step is taken by the task at a path in the tree, so every interleaving of the threads is a sequence of paths.
 The program that forks at every node is the one with threshold 1.
 */
module ForkJoin {
  import opened Counting
  import opened MergeSorting

  datatype Task =
    | Fresh(l: nat, r: int)                                        // has not compared its bounds yet
    | Split(l: nat, r: int, parallel: bool, left: Task, right: Task) // waits for its halves, then for the mutex
    | Merging(l: nat, r: int, xs: seq<Item>, ys: seq<Item>, i: nat, j: nat)
    | Done(l: nat, r: int)

  datatype State = State(a: seq<Item>, mutex: bool, task: Task)

  function Middle(l: nat, r: int): (m: nat)
    requires l < r
    ensures l <= m < r && Half(r - l + 1) == m - l + 1
  {
    l + (r - l) / 2
  }

  predicate MergerInBounds(s: State)
    requires s.task.Merging?
  {
    s.task.i <= |s.task.xs| && s.task.j <= |s.task.ys| && s.task.l + |s.task.xs| + |s.task.ys| <= |s.a|
  }

  /** The mutex is taken and both halves are copied. */
  function MergerStarts(s: State, m: nat): State
    requires s.task.l <= m < s.task.r < |s.a|
  {
    var l, r := s.task.l, s.task.r;
    s.(mutex := true, task := Merging(l, r, s.a[l..m + 1], s.a[m + 1..r + 1], 0, 0))
  }

  /** The merge loops, one element a step; the last step gives the mutex back. */
  function MergerNext(s: State): State
    requires s.task.Merging? && MergerInBounds(s)
  {
    var Merging(l, r, xs, ys, i, j) := s.task;
    if i < |xs| && (j == |ys| || xs[i].key <= ys[j].key) then
      s.(a := s.a[l + i + j := xs[i]], task := Merging(l, r, xs, ys, i + 1, j))
    else if j < |ys| then
      s.(a := s.a[l + i + j := ys[j]], task := Merging(l, r, xs, ys, i, j + 1))
    else
      s.(mutex := false, task := Done(l, r))
  }

  /** May the task at this path take a step? `false` leads to the left half, `true` to the right one. */
  predicate CanStep(s: State, path: seq<bool>)
    decreases |path|
  {
    match s.task
    case Fresh(_, _) => path == []
    case Split(l, r, parallel, left, right) =>
      if path == [] then left.Done? && right.Done? && !s.mutex && l < r < |s.a|
      else if path[0] then (parallel || left.Done?) && CanStep(s.(task := right), path[1..])
      else CanStep(s.(task := left), path[1..])
    case Merging(_, _, _, _, _, _) => path == [] && MergerInBounds(s)
    case Done(_, _) => false
  }

  function Next(threshold: int, s: State, path: seq<bool>): State
    requires CanStep(s, path)
    decreases |path|
  {
    match s.task
    case Fresh(l, r) =>
      if l < r then
        s.(task := Split(l, r, r - l >= threshold, Fresh(l, Middle(l, r)), Fresh(Middle(l, r) + 1, r)))
      else s.(task := Done(l, r))
    case Split(l, r, parallel, left, right) =>
      if path == [] then
        MergerStarts(s, Middle(l, r))
      else if path[0] then
        var s' := Next(threshold, s.(task := right), path[1..]);
        s'.(task := s.task.(right := s'.task))
      else
        var s' := Next(threshold, s.(task := left), path[1..]);
        s'.(task := s.task.(left := s'.task))
    case Merging(l, r, xs, ys, i, j) =>
      MergerNext(s)
  }

  predicate Feasible(threshold: int, s: State, schedule: seq<seq<bool>>)
    decreases |schedule|
  {
    schedule == [] ||
    (CanStep(s, schedule[0]) && Feasible(threshold, Next(threshold, s, schedule[0]), schedule[1..]))
  }

  function Run(threshold: int, s: State, schedule: seq<seq<bool>>): State
    requires Feasible(threshold, s, schedule)
    decreases |schedule|
  {
    if schedule == [] then s else Run(threshold, Next(threshold, s, schedule[0]), schedule[1..])
  }

  function Start(a: seq<Item>): State {
    State(a, false, Fresh(0, |a| - 1))
  }

  // ---------------------------------------------------------------- the invariant

  /** The task owns `[l, r]`, its halves own the two halves, and a right half waits for its turn below the threshold. */
  ghost predicate Owns(t: Task, l: nat, r: int): (b: bool)
    ensures b ==> t.l == l && t.r == r && l <= r + 1
  {
    t.l == l && t.r == r && l <= r + 1 &&
    match t
    case Fresh(_, _) => true
    case Done(_, _) => true
    case Split(_, _, parallel, left, right) =>
      l < r && Owns(left, l, Middle(l, r)) && Owns(right, Middle(l, r) + 1, r)
      && (!parallel && !left.Done? ==> right.Fresh?)
    case Merging(_, _, xs, ys, i, j) =>
      l < r && |xs| == Middle(l, r) - l + 1 && |ys| == r - Middle(l, r) && i <= |xs| && j <= |ys|
  }

  /** What the task has made of its own range of the input `a0`, and of nothing else. */
  ghost predicate Holds(a0: seq<Item>, a: seq<Item>, t: Task)
    requires 0 <= t.l <= t.r + 1 <= |a0| == |a| && Owns(t, t.l, t.r)
  {
    match t
    case Fresh(l, r) => Untouched(a0, a, l, r)
    case Done(l, r) => Final(a0, a, l, r)
    case Split(l, r, _, left, right) => Holds(a0, a, left) && Holds(a0, a, right)
    case Merging(l, r, xs, ys, i, j) => HalfMerged(a0, a, l, r, xs, ys, i, j)
  }

  ghost predicate Untouched(a0: seq<Item>, a: seq<Item>, l: nat, r: int)
    requires l <= r + 1 <= |a0| == |a|
  {
    forall k :: l <= k <= r ==> a[k] == a0[k]
  }

  ghost predicate Final(a0: seq<Item>, a: seq<Item>, l: nat, r: int)
    requires l <= r + 1 <= |a0| == |a|
  {
    a[l..r + 1] == MergeSort(a0[l..r + 1])
  }

  ghost predicate HalfMerged(a0: seq<Item>, a: seq<Item>, l: nat, r: int, xs: seq<Item>, ys: seq<Item>, i: nat, j: nat)
    requires l <= r + 1 <= |a0| == |a| && i <= |xs| && j <= |ys| && |xs| + |ys| == r + 1 - l
  {
    && Merge(xs, ys) == MergeSort(a0[l..r + 1])
    && a[l..l + i + j] + Merge(xs[i..], ys[j..]) == Merge(xs, ys)
  }

  function Mergers(t: Task): nat {
    match t
    case Split(_, _, _, left, right) => Mergers(left) + Mergers(right)
    case Merging(_, _, _, _, _, _) => 1
    case _ => 0
  }

  ghost predicate Inv(a0: seq<Item>, s: State) {
    && Sound(a0, s.a, s.task) && s.task.l == 0 && s.task.r == |a0| - 1
    && Mergers(s.task) == One(s.mutex)
  }

  /** Everything outside `[l, r]` is as before. */
  ghost predicate Outside(a: seq<Item>, b: seq<Item>, l: nat, r: int) {
    |a| == |b| && forall k :: 0 <= k < |a| && !(l <= k <= r) ==> a[k] == b[k]
  }

  lemma FinalFrame(a0: seq<Item>, a: seq<Item>, b: seq<Item>, l: nat, r: int)
    requires l <= r + 1 <= |a0| == |a| == |b| && Final(a0, a, l, r) && Untouched(a, b, l, r)
    ensures Final(a0, b, l, r)
  {
    assert a[l..r + 1] == b[l..r + 1];
  }

  lemma HalfMergedFrame(a0: seq<Item>, a: seq<Item>, b: seq<Item>, l: nat, r: int, xs: seq<Item>, ys: seq<Item>,
      i: nat, j: nat)
    requires l <= r + 1 <= |a0| == |a| == |b| && i <= |xs| && j <= |ys| && |xs| + |ys| == r + 1 - l
    requires HalfMerged(a0, a, l, r, xs, ys, i, j) && Untouched(a, b, l, r)
    ensures HalfMerged(a0, b, l, r, xs, ys, i, j)
  {
    assert a[l..l + i + j] == b[l..l + i + j];
  }

  lemma {:induction false} HoldsFrame(a0: seq<Item>, a: seq<Item>, b: seq<Item>, t: Task)
    requires 0 <= t.l <= t.r + 1 <= |a0| == |a| == |b| && Owns(t, t.l, t.r)
    requires Holds(a0, a, t) && Untouched(a, b, t.l, t.r)
    ensures Holds(a0, b, t)
  {
    match t
    case Fresh(_, _) =>
    case Done(l, r) => FinalFrame(a0, a, b, l, r);
    case Split(_, _, _, left, right) =>
      HoldsFrame(a0, a, b, left);
      HoldsFrame(a0, a, b, right);
    case Merging(l, r, xs, ys, i, j) => HalfMergedFrame(a0, a, b, l, r, xs, ys, i, j);
  }

  lemma HalvesOfRange(a0: seq<Item>, l: nat, r: int)
    requires l < r < |a0|
    ensures var m := Middle(l, r);
      MergeSort(a0[l..r + 1]) == Merge(MergeSort(a0[l..m + 1]), MergeSort(a0[m + 1..r + 1]))
  {
    var s := a0[l..r + 1];
    assert s[..Half(|s|)] == a0[l..Middle(l, r) + 1] && s[Half(|s|)..] == a0[Middle(l, r) + 1..r + 1];
  }

  lemma NothingMerged(a: seq<Item>, l: nat, xs: seq<Item>, ys: seq<Item>)
    requires l <= |a|
    ensures a[l..l + 0 + 0] + Merge(xs[0..], ys[0..]) == Merge(xs, ys)
  {
    assert xs[0..] == xs && ys[0..] == ys;
  }

  lemma MergeBegins(a0: seq<Item>, a: seq<Item>, l: nat, m: nat, r: int, xs: seq<Item>, ys: seq<Item>)
    requires l < r < |a0| == |a| && m == Middle(l, r) && Final(a0, a, l, m) && Final(a0, a, m + 1, r)
    requires xs == a[l..m + 1] && ys == a[m + 1..r + 1]
    ensures HalfMerged(a0, a, l, r, xs, ys, 0, 0)
  {
    hide Merge, MergeSort;
    NothingMerged(a, l, xs, ys);
    var p, q := MergeSort(a0[l..m + 1]), MergeSort(a0[m + 1..r + 1]);
    assert xs == p && ys == q;
    HalvesOfRange(a0, l, r);
  }

  lemma LeftWritten(a0: seq<Item>, a: seq<Item>, b: seq<Item>, l: nat, r: int, xs: seq<Item>, ys: seq<Item>, i: nat,
      j: nat)
    requires l <= r + 1 <= |a0| == |a| && i < |xs| && j <= |ys| && |xs| + |ys| == r + 1 - l
    requires HalfMerged(a0, a, l, r, xs, ys, i, j) && (j == |ys| || xs[i].key <= ys[j].key)
    requires b == a[l + i + j := xs[i]]
    ensures HalfMerged(a0, b, l, r, xs, ys, i + 1, j)
  {
    MergeTakes(a[l..l + i + j], xs, ys, i, j);
    assert b[l..l + i + j + 1] == a[l..l + i + j] + [xs[i]];
  }

  lemma RightWritten(a0: seq<Item>, a: seq<Item>, b: seq<Item>, l: nat, r: int, xs: seq<Item>, ys: seq<Item>, i: nat,
      j: nat)
    requires l <= r + 1 <= |a0| == |a| && i <= |xs| && j < |ys| && |xs| + |ys| == r + 1 - l
    requires HalfMerged(a0, a, l, r, xs, ys, i, j) && (i == |xs| || xs[i].key > ys[j].key)
    requires b == a[l + i + j := ys[j]]
    ensures HalfMerged(a0, b, l, r, xs, ys, i, j + 1)
  {
    MergeTakes(a[l..l + i + j], xs, ys, i, j);
    assert b[l..l + i + j + 1] == a[l..l + i + j] + [ys[j]];
  }

  lemma MergeFinishes(a0: seq<Item>, a: seq<Item>, l: nat, r: int, xs: seq<Item>, ys: seq<Item>)
    requires l <= r + 1 <= |a0| == |a| && |xs| + |ys| == r + 1 - l
    requires HalfMerged(a0, a, l, r, xs, ys, |xs|, |ys|)
    ensures Final(a0, a, l, r)
  {
    assert Merge(xs[|xs|..], ys[|ys|..]) == [];
  }

  /** The task is sound in this array: its tree is well formed and each range holds what it should. */
  ghost predicate Sound(a0: seq<Item>, a: seq<Item>, t: Task) {
    t.l <= t.r + 1 <= |a0| == |a| && Owns(t, t.l, t.r) && Holds(a0, a, t)
  }

  lemma MergerSound(a0: seq<Item>, a: seq<Item>, t: Task)
    requires t.Merging? && t.l < t.r < |a0| == |a|
    requires |t.xs| == Middle(t.l, t.r) - t.l + 1 && |t.ys| == t.r - Middle(t.l, t.r) && t.i <= |t.xs| && t.j <= |t.ys|
    requires HalfMerged(a0, a, t.l, t.r, t.xs, t.ys, t.i, t.j)
    ensures Sound(a0, a, t)
  {}

  lemma MergerFacts(a0: seq<Item>, a: seq<Item>, t: Task)
    requires Sound(a0, a, t) && t.Merging?
    ensures t.l < t.r < |a0| == |a|
    ensures |t.xs| == Middle(t.l, t.r) - t.l + 1 && |t.ys| == t.r - Middle(t.l, t.r) && t.i <= |t.xs| && t.j <= |t.ys|
    ensures HalfMerged(a0, a, t.l, t.r, t.xs, t.ys, t.i, t.j)
  {}

  lemma MergeAdvances(a0: seq<Item>, s: State, s': State)
    requires Sound(a0, s.a, s.task) && s.task.Merging? && MergerInBounds(s) && s' == MergerNext(s)
    ensures Sound(a0, s'.a, s'.task)
  {
    var t := s.task;
    var Merging(l, r, xs, ys, i, j) := t;
    MergerFacts(a0, s.a, t);
    if i < |xs| && (j == |ys| || xs[i].key <= ys[j].key) {
      LeftWritten(a0, s.a, s'.a, l, r, xs, ys, i, j);
      MergerSound(a0, s'.a, s'.task);
    } else if j < |ys| {
      RightWritten(a0, s.a, s'.a, l, r, xs, ys, i, j);
      MergerSound(a0, s'.a, s'.task);
    } else {
      MergeFinishes(a0, s.a, l, r, xs, ys);
    }
  }

  lemma HalvesSound(a0: seq<Item>, a: seq<Item>, t: Task)
    requires Sound(a0, a, t) && t.Split?
    ensures Sound(a0, a, t.left) && Sound(a0, a, t.right)
    ensures t.left.l == t.l && t.left.r == Middle(t.l, t.r) && t.right.l == Middle(t.l, t.r) + 1 && t.right.r == t.r
  {}

  lemma DoneIsFinal(a0: seq<Item>, a: seq<Item>, t: Task)
    requires Sound(a0, a, t) && t.Split? && t.left.Done? && t.right.Done?
    ensures t.l < t.r && Final(a0, a, t.l, Middle(t.l, t.r)) && Final(a0, a, Middle(t.l, t.r) + 1, t.r)
  {
    HalvesSound(a0, a, t);
  }

  lemma BeginsSound(a0: seq<Item>, a: seq<Item>, t: Task, m: nat, t': Task)
    requires Sound(a0, a, t) && t.Split? && t.left.Done? && t.right.Done? && t.l < t.r < |a|
    requires m == Middle(t.l, t.r) && t' == Merging(t.l, t.r, a[t.l..m + 1], a[m + 1..t.r + 1], 0, 0)
    ensures Sound(a0, a, t')
  {
    DoneIsFinal(a0, a, t);
    MergeBegins(a0, a, t.l, m, t.r, t'.xs, t'.ys);
    MergerSound(a0, a, t');
  }

  lemma FreshSound(threshold: int, a0: seq<Item>, s: State)
    requires Sound(a0, s.a, s.task) && s.task.Fresh?
    ensures Sound(a0, s.a, Next(threshold, s, []).task)
  {
    var l, r := s.task.l, s.task.r;
    if l >= r {
      assert s.a[l..r + 1] == a0[l..r + 1];
    }
  }

  lemma RightMoved(a0: seq<Item>, a: seq<Item>, b: seq<Item>, t: Task, right: Task, t': Task)
    requires Sound(a0, a, t) && t.Split? && (t.parallel || t.left.Done?)
    requires Sound(a0, b, right) && right.l == t.right.l && right.r == t.right.r && Outside(a, b, right.l, right.r)
    requires t' == Split(t.l, t.r, t.parallel, t.left, right)
    ensures Sound(a0, b, t') && Outside(a, b, t.l, t.r)
  {
    HalvesSound(a0, a, t);
    HoldsFrame(a0, a, b, t.left);
  }

  lemma LeftMoved(a0: seq<Item>, a: seq<Item>, b: seq<Item>, t: Task, left: Task, t': Task)
    requires Sound(a0, a, t) && t.Split? && !t.left.Done?
    requires Sound(a0, b, left) && left.l == t.left.l && left.r == t.left.r && Outside(a, b, left.l, left.r)
    requires t' == Split(t.l, t.r, t.parallel, left, t.right)
    ensures Sound(a0, b, t') && Outside(a, b, t.l, t.r)
  {
    HalvesSound(a0, a, t);
    HoldsFrame(a0, a, b, t.right);
  }

  lemma MergerStays(s: State, s': State)
    requires s.task.Merging? && MergerInBounds(s) && s' == MergerNext(s) && s.task.l < s.task.r < |s.a|
    requires |s.task.xs| + |s.task.ys| == s.task.r + 1 - s.task.l
    ensures Outside(s.a, s'.a, s.task.l, s.task.r) && s'.task.l == s.task.l && s'.task.r == s.task.r
  {}

  lemma LeafStep(threshold: int, a0: seq<Item>, s: State, s': State)
    requires Sound(a0, s.a, s.task) && CanStep(s, []) && s' == Next(threshold, s, [])
    ensures Sound(a0, s'.a, s'.task) && Outside(s.a, s'.a, s.task.l, s.task.r)
    ensures s'.task.l == s.task.l && s'.task.r == s.task.r
  {
    match s.task
    case Fresh(_, _) => FreshSound(threshold, a0, s);
    case Merging(_, _, _, _, _, _) =>
      assert s' == MergerNext(s);
      hide Next, CanStep, Sound, MergerNext, HalfMerged, Outside;
      MergerFacts(a0, s.a, s.task);
      MergeAdvances(a0, s, s');
      MergerStays(s, s');
    case Split(l, r, _, _, _) =>
      BeginsSound(a0, s.a, s.task, Middle(l, r), s'.task);
  }

  /** One step of any task keeps the tree, stays in the task's range, and keeps what each range holds. */
  lemma {:induction false} StepSound(threshold: int, a0: seq<Item>, s: State, path: seq<bool>, s': State)
    requires Sound(a0, s.a, s.task) && CanStep(s, path) && s' == Next(threshold, s, path)
    ensures Sound(a0, s'.a, s'.task) && Outside(s.a, s'.a, s.task.l, s.task.r)
    ensures s'.task.l == s.task.l && s'.task.r == s.task.r
    decreases |path|
  {
    if path == [] {
      LeafStep(threshold, a0, s, s');
    } else {
      HalvesSound(a0, s.a, s.task);
      if path[0] {
        var right := s'.task.right;
        StepSound(threshold, a0, s.(task := s.task.right), path[1..], s'.(task := right));
        RightMoved(a0, s.a, s'.a, s.task, right, s'.task);
      } else {
        var left := s'.task.left;
        StepSound(threshold, a0, s.(task := s.task.left), path[1..], s'.(task := left));
        LeftMoved(a0, s.a, s'.a, s.task, left, s'.task);
      }
    }
  }

  /** The mutex is held exactly while one task merges. */
  lemma {:induction false} StepMutex(threshold: int, s: State, path: seq<bool>)
    requires CanStep(s, path) && Mergers(s.task) <= One(s.mutex)
    ensures var s' := Next(threshold, s, path);
      Mergers(s'.task) + One(s.mutex) == Mergers(s.task) + One(s'.mutex)
    ensures Mergers(Next(threshold, s, path).task) <= One(Next(threshold, s, path).mutex)
    decreases |path|
  {
    match s.task
    case Split(_, _, _, left, right) =>
      if path == [] {
      } else if path[0] {
        StepMutex(threshold, s.(task := right), path[1..]);
      } else {
        StepMutex(threshold, s.(task := left), path[1..]);
      }
    case _ =>
  }

  lemma StepInv(threshold: int, a0: seq<Item>, s: State, path: seq<bool>)
    requires Inv(a0, s) && CanStep(s, path)
    ensures Inv(a0, Next(threshold, s, path))
  {
    StepSound(threshold, a0, s, path, Next(threshold, s, path));
    StepMutex(threshold, s, path);
  }

  lemma {:induction false} RunInv(threshold: int, a0: seq<Item>, s: State, schedule: seq<seq<bool>>)
    requires Inv(a0, s) && Feasible(threshold, s, schedule)
    ensures Inv(a0, Run(threshold, s, schedule))
    decreases |schedule|
  {
    if schedule != [] {
      StepInv(threshold, a0, s, schedule[0]);
      RunInv(threshold, a0, Next(threshold, s, schedule[0]), schedule[1..]);
    }
  }

  // ---------------------------------------------------------------- results

  /** A merge starts only when both halves are finished, sorted and will not change any more. */
  lemma MergeStartsOnSortedHalves(a0: seq<Item>, s: State, l: nat, m: nat, r: int)
    requires Sound(a0, s.a, s.task) && s.task.Split? && CanStep(s, [])
    requires l == s.task.l && r == s.task.r && l < r && m == Middle(l, r)
    ensures StableSortOf(a0[l..m + 1], s.a[l..m + 1]) && StableSortOf(a0[m + 1..r + 1], s.a[m + 1..r + 1])
    ensures forall path :: !CanStep(s.(task := s.task.left), path) && !CanStep(s.(task := s.task.right), path)
  {
    DoneIsFinal(a0, s.a, s.task);
    FinalIsStable(a0, s.a, l, m);
    FinalIsStable(a0, s.a, m + 1, r);
  }

  /** Like `CanStep`, but for the mutex and the order of the threads only: nothing about the array's bounds. */
  predicate Ready(s: State, path: seq<bool>)
    decreases |path|
  {
    match s.task
    case Fresh(_, _) => path == []
    case Split(_, _, parallel, left, right) =>
      if path == [] then left.Done? && right.Done? && !s.mutex
      else if path[0] then (parallel || left.Done?) && Ready(s.(task := right), path[1..])
      else Ready(s.(task := left), path[1..])
    case Merging(_, _, _, _, _, _) => path == []
    case Done(_, _) => false
  }

  /** No merge ever reaches outside the array or the copies of its halves: a thread waits for others only. */
  lemma {:induction false} MemorySafe(a0: seq<Item>, s: State, path: seq<bool>)
    requires Sound(a0, s.a, s.task)
    ensures Ready(s, path) <==> CanStep(s, path)
    decreases |path|
  {
    match s.task
    case Split(_, _, _, left, right) =>
      HalvesSound(a0, s.a, s.task);
      if path == [] {
        assert s.task.l < s.task.r < |s.a|;
      } else {
        MemorySafe(a0, s.(task := if path[0] then right else left), path[1..]);
      }
    case Merging(_, _, _, _, _, _) => MergerFacts(a0, s.a, s.task);
    case _ =>
  }

  lemma FinalIsStable(a0: seq<Item>, a: seq<Item>, l: nat, r: int)
    requires l <= r + 1 <= |a0| == |a| && Final(a0, a, l, r)
    ensures StableSortOf(a0[l..r + 1], a[l..r + 1])
  {
    MergeSortIsStable(a0[l..r + 1]);
  }

  // ---------------------------------------------------------------- which halves run in parallel

  /** Every task that has split has forked exactly if its range is long enough. */
  ghost predicate Forks(threshold: int, t: Task) {
    t.Split? ==> (t.parallel <==> t.r - t.l >= threshold) && Forks(threshold, t.left) && Forks(threshold, t.right)
  }

  lemma {:induction false} StepForks(threshold: int, s: State, path: seq<bool>)
    requires CanStep(s, path) && Forks(threshold, s.task)
    ensures Forks(threshold, Next(threshold, s, path).task)
    decreases |path|
  {
    if s.task.Split? && path != [] {
      StepForks(threshold, s.(task := if path[0] then s.task.right else s.task.left), path[1..]);
    }
  }

  lemma {:induction false} RunForks(threshold: int, s: State, schedule: seq<seq<bool>>)
    requires Feasible(threshold, s, schedule) && Forks(threshold, s.task)
    ensures Forks(threshold, Run(threshold, s, schedule).task)
    decreases |schedule|
  {
    hide Forks, Next, CanStep;
    if schedule != [] {
      StepForks(threshold, s, schedule[0]);
      RunForks(threshold, Next(threshold, s, schedule[0]), schedule[1..]);
    }
  }

  /** In every state of every run exactly the splits at least as long as the threshold have forked. */
  lemma EveryRunForks(threshold: int, a0: seq<Item>, schedule: seq<seq<bool>>)
    requires Feasible(threshold, Start(a0), schedule)
    ensures Forks(threshold, Run(threshold, Start(a0), schedule).task)
  {
    RunForks(threshold, Start(a0), schedule);
  }

  /**
   A task whose range is at least as long as the threshold lets both its halves go on at the same time; a shorter one
   lets the right half start only after the left one has finished. From threshold 1 down every split forks.
   */
  lemma ForkedHalves(threshold: int, s: State)
    requires Forks(threshold, s.task) && s.task.Split?
    ensures forall p :: CanStep(s, [false] + p) <==> CanStep(s.(task := s.task.left), p)
    ensures forall p :: CanStep(s, [true] + p) <==>
      CanStep(s.(task := s.task.right), p) && (s.task.r - s.task.l >= threshold || s.task.left.Done?)
    ensures threshold <= 1 && s.task.l < s.task.r ==> s.task.parallel
  {
    forall p
      ensures CanStep(s, [false] + p) <==> CanStep(s.(task := s.task.left), p)
      ensures CanStep(s, [true] + p) <==>
        CanStep(s.(task := s.task.right), p) && (s.task.r - s.task.l >= threshold || s.task.left.Done?)
    {
      assert ([false] + p)[1..] == p && ([true] + p)[1..] == p;
    }
  }

  /** Steps that the task for `n` elements takes in all, whatever the threshold. */
  function TotalSteps(n: nat): nat {
    if n <= 1 then 1 else 1 + TotalSteps(Half(n)) + TotalSteps(n - Half(n)) + n + 2
  }

  ghost function Remaining(t: Task): int {
    match t
    case Fresh(l, r) => if l <= r + 1 then TotalSteps(r + 1 - l) else 0
    case Split(l, r, _, left, right) => Remaining(left) + Remaining(right) + (r - l + 1) + 2
    case Merging(_, _, xs, ys, i, j) => |xs| - i + |ys| - j + 1
    case Done(_, _) => 0
  }

  lemma FreshRemaining(l: nat, r: int, parallel: bool)
    requires l < r
    ensures Remaining(Split(l, r, parallel, Fresh(l, Middle(l, r)), Fresh(Middle(l, r) + 1, r)))
      == TotalSteps(r + 1 - l) - 1
  {
    assert r + 1 - l - Half(r + 1 - l) == r - Middle(l, r);
  }

  lemma {:induction false} StepRemaining(threshold: int, s: State, path: seq<bool>)
    requires Owns(s.task, s.task.l, s.task.r) && CanStep(s, path)
    ensures Remaining(Next(threshold, s, path).task) == Remaining(s.task) - 1
    decreases |path|
  {
    var s' := Next(threshold, s, path);
    match s.task
    case Fresh(l, r) =>
      if l < r {
        FreshRemaining(l, r, r - l >= threshold);
      }
    case Merging(_, _, _, _, _, _) =>
    case Split(l, r, _, left, right) =>
      if path == [] {
        assert s'.task == Merging(l, r, s'.task.xs, s'.task.ys, 0, 0);
      } else if path[0] {
        StepRemaining(threshold, s.(task := right), path[1..]);
        assert s'.task == s.task.(right := s'.task.right);
      } else {
        StepRemaining(threshold, s.(task := left), path[1..]);
        assert s'.task == s.task.(left := s'.task.left);
      }
  }

  lemma {:induction false} RemainingBounds(t: Task)
    requires Owns(t, t.l, t.r)
    ensures Remaining(t) >= 0 && (Remaining(t) == 0 <==> t.Done?)
  {
    match t
    case Split(_, _, _, left, right) =>
      RemainingBounds(left);
      RemainingBounds(right);
    case _ =>
  }

  lemma {:induction false} RunLength(threshold: int, a0: seq<Item>, s: State, schedule: seq<seq<bool>>)
    requires Inv(a0, s) && Feasible(threshold, s, schedule)
    ensures |schedule| + Remaining(Run(threshold, s, schedule).task) == Remaining(s.task)
    decreases |schedule|
  {
    if schedule != [] {
      StepInv(threshold, a0, s, schedule[0]);
      StepRemaining(threshold, s, schedule[0]);
      RunLength(threshold, a0, Next(threshold, s, schedule[0]), schedule[1..]);
    }
  }

  /** The task that holds the mutex can go on; without one, some unfinished task can. */
  lemma {:induction false} SomeoneCanStep(a0: seq<Item>, s: State) returns (path: seq<bool>)
    requires Sound(a0, s.a, s.task)
    requires !s.task.Done? && Mergers(s.task) == One(s.mutex)
    ensures CanStep(s, path)
    decreases s.task
  {
    match s.task
    case Split(l, r, parallel, left, right) =>
      if left.Done? && right.Done? {
        path := [];
      } else if !left.Done? && Mergers(left) == One(s.mutex) {
        var p := SomeoneCanStep(a0, s.(task := left));
        path := [false] + p;
        assert path[1..] == p;
      } else {
        var p := SomeoneCanStep(a0, s.(task := right));
        path := [true] + p;
        assert path[1..] == p;
      }
    case Merging(_, _, _, _, _, _) =>
      MergerFacts(a0, s.a, s.task);
      path := [];
    case Fresh(_, _) =>
      path := [];
  }

  /**
   For every input, every threshold and every interleaving of the threads: no deadlock, exactly `TotalSteps` steps
   to the end, and the final array is the one that the sequential sort computes.
   */
  lemma ForkJoinIsSequential(threshold: int, a0: seq<Item>, schedule: seq<seq<bool>>)
    requires Feasible(threshold, Start(a0), schedule)
    ensures var e := Run(threshold, Start(a0), schedule);
      && |schedule| <= TotalSteps(|a0|)
      && ((forall path :: !CanStep(e, path)) ==> e.task.Done?)
      && (e.task.Done? <==> |schedule| == TotalSteps(|a0|))
      && (e.task.Done? ==> e.a == MergeSort(a0) && StableSortOf(a0, e.a) && !e.mutex)
  {
    var s := Start(a0);
    assert a0[0..|a0|] == a0;
    assert Inv(a0, s);
    hide Feasible, Run, CanStep, MergeSort, StableSortOf;
    var e := Run(threshold, s, schedule);
    RunInv(threshold, a0, s, schedule);
    RunLength(threshold, a0, s, schedule);
    RemainingBounds(e.task);
    if forall path :: !CanStep(e, path) {
      if !e.task.Done? {
        var path := SomeoneCanStep(a0, e);
      }
    }
    if e.task.Done? {
      assert e.a[0..|a0|] == e.a;
      MergeSortIsStable(a0);
    }
  }

  // ---------------------------------------------------------------- nesting

  /** How deep the halves nest: threads from the threshold on, calls below it. */
  ghost function Depth(t: Task): nat {
    if t.Split? then 1 + (if Depth(t.left) > Depth(t.right) then Depth(t.left) else Depth(t.right)) else 0
  }

  ghost function Pow2(k: nat): nat {
    if k == 0 then 1 else 2 * Pow2(k - 1)
  }

  lemma {:induction false} OwnsDepth(t: Task, l: nat, r: int)
    requires Owns(t, l, r)
    ensures Depth(t) > 0 ==> Pow2(Depth(t) - 1) < r - l + 1
  {
    if t.Split? {
      OwnsDepth(t.left, l, Middle(l, r));
      OwnsDepth(t.right, Middle(l, r) + 1, r);
    }
  }

  /** Halving balances: in every state of every run the nesting is below the logarithm of the length plus one. */
  lemma NestingIsLogarithmic(threshold: int, a0: seq<Item>, schedule: seq<seq<bool>>)
    requires Feasible(threshold, Start(a0), schedule)
    ensures var d := Depth(Run(threshold, Start(a0), schedule).task); d > 0 ==> Pow2(d - 1) < |a0|
  {
    assert Inv(a0, Start(a0));
    hide Feasible, Run;
    RunInv(threshold, a0, Start(a0), schedule);
    OwnsDepth(Run(threshold, Start(a0), schedule).task, 0, |a0| - 1);
  }
}
