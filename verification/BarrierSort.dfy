/**
 The parallel in-place sort: N threads insertion-sort disjoint regions of one array and meet at a
 two-phase barrier, where the last thread to arrive exchanges inverted neighbours across the borders.
 The machine below takes one atomic step of one thread at a time, in any order.
 */
module BarrierSort {
  import opened Counting
  import opened SortTheory
  import opened Options

  /** `n` integers, `threads` threads, regions of `len` integers (the last one may be longer). */
  datatype Config = Config(n: nat, threads: nat, len: nat) {
    ghost predicate Valid() {
      threads >= 1 && len >= 1 && len == n / threads
    }

    function Left(t: nat): nat {
      t * len
    }

    function Right(t: nat): int {
      if t == threads - 1 then n - 1 else (t + 1) * len - 1
    }
  }

  /** Program counters, in the order of the thread's loop. */
  datatype Pc =
    | Outer(cur: nat)
    | Inner(cur: nat, tmp: nat)
    | Arrive
    | Decrement
    | Borders(i: nat, swapped: bool)
    | Post1(i: nat)
    | Leave1
    | Wait1
    | Rejoin
    | Increment
    | Post2(i: nat)
    | Leave2
    | Wait2

  /** Shared state; `released`, `epoch`, `rounds` and `swaps` are history that no guard reads. */
  datatype State = State(
    a: seq<int>, pcs: seq<Pc>, lock: Option<nat>, counter: int, sem: nat, sem2: nat, done: bool,
    released: bool, epoch: nat, rounds: seq<nat>, swaps: nat)

  predicate Critical(pc: Pc) {
    pc.Decrement? || pc.Borders? || pc.Post1? || pc.Leave1? || pc.Increment? || pc.Post2? || pc.Leave2?
  }

  /** Sorting, or on the way to the decrement. */
  predicate Sorting(pc: Pc) {
    pc.Outer? || pc.Inner? || pc.Arrive? || pc.Decrement?
  }

  /** Past the decrement, first token not taken. */
  predicate Gathered(pc: Pc) {
    pc.Borders? || pc.Post1? || pc.Leave1? || pc.Wait1?
  }

  /** First token taken, counter not yet restored. */
  predicate Passing(pc: Pc) {
    pc.Rejoin? || pc.Increment?
  }

  /** Counter restored, second token not taken. */
  predicate Returning(pc: Pc) {
    pc.Post2? || pc.Leave2? || pc.Wait2?
  }

  predicate Counted(pc: Pc) {
    Sorting(pc) || Returning(pc)
  }

  ghost predicate Initial(c: Config, s: State, a: seq<int>) {
    && |a| == c.n
    && s == State(a, seq(c.threads, (t: nat) => Outer(c.Left(t))), None, c.threads, 0, 0, false,
                  false, 0, seq(c.threads, (t: nat) => 0), 0)
  }

  /** Blocking: the mutex and the two semaphores; after `exit` nothing runs. */
  predicate Enabled(c: Config, s: State, t: nat) {
    && t < |s.pcs| && t < |s.rounds| && !s.done
    && match s.pcs[t]
       case Arrive => s.lock.None?
       case Rejoin => s.lock.None?
       case Wait1 => s.sem > 0
       case Wait2 => s.sem2 > 0
       case _ => true
  }

  /** The accesses of thread `t`'s next step stay inside the array. */
  predicate InBounds(c: Config, s: State, t: nat)
    requires t < |s.pcs|
  {
    match s.pcs[t]
    case Inner(_, tmp) => tmp < |s.a|
    case Borders(i, _) => i < c.threads ==> 0 < i * c.len < |s.a|
    case _ => true
  }

  predicate CanStep(c: Config, s: State, t: nat) {
    Enabled(c, s, t) && InBounds(c, s, t)
  }

  function Goto(s: State, t: nat, pc: Pc): State
    requires t < |s.pcs|
  {
    s.(pcs := s.pcs[t := pc])
  }

  function Next(c: Config, s: State, t: nat): State
    requires CanStep(c, s, t)
  {
    match s.pcs[t]
    case Outer(cur) =>
      if cur <= c.Right(t) then Goto(s, t, Inner(cur, cur)) else Goto(s, t, Arrive)
    case Inner(cur, tmp) =>
      if tmp >= c.Left(t) + 1 && s.a[tmp - 1] > s.a[tmp] then
        Goto(s, t, Inner(cur, tmp - 1)).(a := SwapAt(s.a, tmp - 1), swaps := s.swaps + 1)
      else
        Goto(s, t, Outer(cur + 1))
    case Arrive => Goto(s, t, Decrement).(lock := Some(t))
    case Decrement =>
      Goto(s, t, if s.counter - 1 == 0 then Borders(1, false) else Leave1).(counter := s.counter - 1)
    case Borders(i, swapped) =>
      if i < c.threads then
        if s.a[i * c.len - 1] > s.a[i * c.len] then
          Goto(s, t, Borders(i + 1, true)).(a := SwapAt(s.a, i * c.len - 1), swaps := s.swaps + 1,
            released := true, epoch := if swapped then s.epoch else s.epoch + 1)
        else
          Goto(s, t, Borders(i + 1, swapped))
      else if swapped then
        Goto(s, t, Post1(0))
      else
        s.(done := true)
    case Post1(i) =>
      if i < c.threads then Goto(s, t, Post1(i + 1)).(sem := s.sem + 1) else Goto(s, t, Leave1)
    case Leave1 => Goto(s, t, Wait1).(lock := None)
    case Wait1 => Goto(s, t, Rejoin).(sem := s.sem - 1)
    case Rejoin => Goto(s, t, Increment).(lock := Some(t))
    case Increment =>
      if s.counter + 1 == c.threads then
        Goto(s, t, Post2(0)).(counter := s.counter + 1, released := false)
      else
        Goto(s, t, Leave2).(counter := s.counter + 1)
    case Post2(i) =>
      if i < c.threads then Goto(s, t, Post2(i + 1)).(sem2 := s.sem2 + 1) else Goto(s, t, Leave2)
    case Leave2 => Goto(s, t, Wait2).(lock := None)
    case Wait2 => Goto(s, t, Outer(c.Left(t))).(sem2 := s.sem2 - 1, rounds := s.rounds[t := s.rounds[t] + 1])
  }

  /** A schedule names the thread that takes each step. */
  predicate Feasible(c: Config, s: State, schedule: seq<nat>)
    decreases |schedule|
  {
    schedule == [] || (CanStep(c, s, schedule[0]) && Feasible(c, Next(c, s, schedule[0]), schedule[1..]))
  }

  function Run(c: Config, s: State, schedule: seq<nat>): State
    requires Feasible(c, s, schedule)
    decreases |schedule|
  {
    if schedule == [] then s else Run(c, Next(c, s, schedule[0]), schedule[1..])
  }

  lemma {:induction false} RunOneMore(c: Config, s: State, schedule: seq<nat>, t: nat)
    requires Feasible(c, s, schedule) && CanStep(c, Run(c, s, schedule), t)
    ensures Feasible(c, s, schedule + [t]) && Run(c, s, schedule + [t]) == Next(c, Run(c, s, schedule), t)
    decreases |schedule|
  {
    if schedule == [] {
      assert schedule + [t] == [t];
    } else {
      RunOneMore(c, Next(c, s, schedule[0]), schedule[1..], t);
      assert (schedule + [t])[1..] == schedule[1..] + [t];
    }
  }

  /** A step that changes the array exchanges two neighbours that are out of order, and counts it. */
  lemma StepSwaps(c: Config, s: State, t: nat) returns (k: nat)
    requires CanStep(c, s, t)
    ensures k == 0 ==> Next(c, s, t).a == s.a && Next(c, s, t).swaps == s.swaps
    ensures k > 0 ==> k < |s.a| && s.a[k - 1] > s.a[k]
    ensures k > 0 ==> Next(c, s, t).a == SwapAt(s.a, k - 1) && Next(c, s, t).swaps == s.swaps + 1
  {
    hide SwapAt;
    k := 0;
    match s.pcs[t]
    case Inner(_, tmp) => if tmp >= c.Left(t) + 1 && s.a[tmp - 1] > s.a[tmp] { k := tmp; }
    case Borders(i, _) => if i < c.threads && s.a[i * c.len - 1] > s.a[i * c.len] { k := i * c.len; }
    case _ =>
  }

  lemma StepExchanges(c: Config, s: State, t: nat)
    requires CanStep(c, s, t)
    ensures multiset(Next(c, s, t).a) == multiset(s.a)
    ensures Inversions(Next(c, s, t).a) + Next(c, s, t).swaps == Inversions(s.a) + s.swaps
  {
    hide Next, SwapAt, Inversions;
    var k := StepSwaps(c, s, t);
    if k > 0 {
      SwapRemovesOne(s.a, k - 1);
      SwapPermutes(s.a, k - 1);
    }
  }

  /** Every run, complete or not, only exchanges neighbours that are out of order, and counts the exchanges. */
  lemma {:induction false} RunExchanges(c: Config, s: State, schedule: seq<nat>)
    requires Feasible(c, s, schedule)
    ensures multiset(Run(c, s, schedule).a) == multiset(s.a)
    ensures Inversions(Run(c, s, schedule).a) + Run(c, s, schedule).swaps == Inversions(s.a) + s.swaps
    decreases |schedule|
  {
    if schedule != [] {
      StepExchanges(c, s, schedule[0]);
      RunExchanges(c, Next(c, s, schedule[0]), schedule[1..]);
    }
  }

  // ---------------------------------------------------------------- number of threads

  function Pow10(k: nat): nat {
    if k == 0 then 1 else 10 * Pow10(k - 1)
  }

  /** `ceil(log10(n))` for `n >= 1`, without rounding. */
  function Threads(n: nat): nat {
    if n <= 1 then 0 else 1 + Threads((n + 9) / 10)
  }

  lemma {:induction false} ThreadsIsCeilLog10(n: nat)
    requires n >= 2
    ensures Threads(n) >= 1 && Pow10(Threads(n) - 1) < n <= Pow10(Threads(n))
  {
    if n > 10 {
      ThreadsIsCeilLog10((n + 9) / 10);
    }
  }

  lemma {:induction false} ThreadsAtMost(n: nat)
    ensures Threads(n) <= n
  {
    if n > 1 {
      ThreadsAtMost((n + 9) / 10);
    }
  }

  /** The split is usable from two integers on; a file with one integer gives zero threads and a division by zero. */
  lemma SplitUsable(n: nat)
    requires n >= 1
    ensures Threads(n) >= 1 <==> n >= 2
    ensures n >= 2 ==> Config(n, Threads(n), n / Threads(n)).Valid()
  {
    ThreadsAtMost(n);
    if n >= 2 {
      ThreadsIsCeilLog10(n);
    }
  }

  // ---------------------------------------------------------------- regions

  lemma RegionBounds(c: Config, t: nat)
    requires c.Valid() && t < c.threads
    ensures 0 <= c.Left(t) <= c.Right(t) < c.n
  {
    var q := c.n / c.threads;
    assert c.threads * c.len <= c.n;
    if t < c.threads - 1 {
      assert (t + 1) * c.len <= (c.threads - 1) * c.len by { MulMonotone(t + 1, c.threads - 1, c.len); }
      assert (t + 1) * c.len == t * c.len + c.len;
      assert (c.threads - 1) * c.len == c.threads * c.len - c.len;
    } else {
      assert (c.threads - 1) * c.len == c.threads * c.len - c.len;
    }
  }

  lemma MulMonotone(x: nat, y: nat, k: nat)
    requires x <= y
    ensures x * k <= y * k
  {}

  lemma RegionsInOrder(c: Config, t: nat, u: nat)
    requires c.Valid() && t < u < c.threads
    ensures c.Right(t) < c.Left(u)
  {
    MulMonotone(t + 1, u, c.len);
  }

  /** The regions partition the index range: every index lies in exactly one of them. */
  lemma RegionsPartition(c: Config, k: nat) returns (t: nat)
    requires c.Valid() && k < c.n
    ensures t < c.threads && c.Left(t) <= k <= c.Right(t)
    ensures forall u: nat :: u < c.threads && c.Left(u) <= k <= c.Right(u) ==> u == t
  {
    t := 0;
    while t + 1 < c.threads && c.Left(t + 1) <= k
      invariant t < c.threads && c.Left(t) <= k
      decreases c.threads - t
    {
      t := t + 1;
    }
    RegionBounds(c, t);
    forall u: nat | u < c.threads && c.Left(u) <= k <= c.Right(u) ensures u == t {
      if u < t { RegionsInOrder(c, u, t); }
      if t < u { RegionsInOrder(c, t, u); }
    }
  }

  /** Neighbouring regions are adjacent, so the border test compares the last and the first element. */
  lemma BorderAdjacent(c: Config, i: nat)
    requires c.Valid() && 1 <= i < c.threads
    ensures c.Right(i - 1) + 1 == i * c.len == c.Left(i) && 0 < i * c.len < c.n
  {
    RegionBounds(c, i);
    RegionBounds(c, i - 1);
  }

  // ---------------------------------------------------------------- the invariant

  ghost predicate PcInRange(c: Config, t: nat, pc: Pc) {
    match pc
    case Outer(cur) => c.Left(t) <= cur <= c.Right(t) + 1
    case Inner(cur, tmp) => c.Left(t) <= tmp <= cur <= c.Right(t)
    case Borders(i, _) => 1 <= i <= c.threads
    case Post1(i) => i <= c.threads
    case Post2(i) => i <= c.threads
    case _ => true
  }

  ghost predicate Shape(c: Config, s: State) {
    && c.Valid() && |s.a| == c.n && |s.pcs| == c.threads && |s.rounds| == c.threads
    && (forall t :: 0 <= t < c.threads ==> PcInRange(c, t, s.pcs[t]))
    && (forall t :: 0 <= t < c.threads ==> (Critical(s.pcs[t]) <==> s.lock == Some(t)))
    && (s.lock.Some? ==> s.lock.value < c.threads)
  }

  /** Tokens that the thread holding the mutex has still to post on the first semaphore. */
  ghost function Owed1(c: Config, s: State): int {
    if s.lock.Some? && s.lock.value < |s.pcs| then
      match s.pcs[s.lock.value]
      case Borders(_, _) => c.threads
      case Post1(i) => c.threads - i
      case _ => 0
    else 0
  }

  ghost function Owed2(c: Config, s: State): int {
    if s.lock.Some? && s.lock.value < |s.pcs| then
      match s.pcs[s.lock.value]
      case Post2(i) => c.threads - i
      case _ => 0
    else 0
  }

  ghost predicate GatherPhase(c: Config, s: State) {
    && s.sem == 0
    && s.sem2 + Owed2(c, s) == Count(s.pcs, Returning)
    && (forall t :: 0 <= t < |s.pcs| ==> !Passing(s.pcs[t]) && !s.pcs[t].Post1?)
    && (forall t :: 0 <= t < |s.pcs| ==> s.pcs[t].Borders? ==> !s.pcs[t].swapped && s.counter == 0)
    && (s.counter == 0 ==> s.lock.Some? && s.lock.value < |s.pcs| && s.pcs[s.lock.value].Borders?)
  }

  ghost predicate ReleasePhase(c: Config, s: State) {
    && s.sem2 == 0
    && s.sem + Owed1(c, s) == Count(s.pcs, Gathered)
    && (forall t :: 0 <= t < |s.pcs| ==> !Sorting(s.pcs[t]) && !s.pcs[t].Post2?)
    && (forall t :: 0 <= t < |s.pcs| ==> s.pcs[t].Borders? ==> s.pcs[t].swapped && s.counter == 0)
    && s.counter < c.threads
  }

  ghost predicate BarrierInv(c: Config, s: State) {
    && s.counter == Count(s.pcs, Counted)
    && (if s.released then ReleasePhase(c, s) else GatherPhase(c, s))
  }

  /** Which round each thread is in, relative to the number of releases so far. */
  ghost predicate RoundInv(c: Config, s: State)
    requires |s.rounds| == |s.pcs|
  {
    forall t :: 0 <= t < |s.pcs| ==>
      s.rounds[t] + One(s.released || Returning(s.pcs[t])) == s.epoch
  }

  /** `a[lo..cur]` is sorted, except that `a[tmp]` may still be smaller than what precedes it. */
  ghost predicate SortedBut(a: seq<int>, lo: int, cur: int, tmp: int)
    requires 0 <= lo && cur < |a|
  {
    forall i, j :: lo <= i < j <= cur && j != tmp ==> a[i] <= a[j]
  }

  /** What thread `t` knows about its own region. */
  ghost predicate RegionFact(c: Config, a: seq<int>, t: nat, pc: Pc)
    requires c.Valid() && t < c.threads && |a| == c.n && PcInRange(c, t, pc)
  {
    RegionBounds(c, t);
    match pc
    case Outer(cur) => SortedRange(a, c.Left(t), cur)
    case Inner(cur, tmp) => SortedBut(a, c.Left(t), cur, tmp)
    case Arrive => SortedRange(a, c.Left(t), c.Right(t) + 1)
    case Decrement => SortedRange(a, c.Left(t), c.Right(t) + 1)
    case Leave1 => SortedRange(a, c.Left(t), c.Right(t) + 1)
    case Wait1 => SortedRange(a, c.Left(t), c.Right(t) + 1)
    case Borders(k, _) => SortedRange(a, c.Left(t), c.Right(t) + 1) && BordersInOrder(c, a, k)
    case _ => true
  }

  ghost predicate BordersInOrder(c: Config, a: seq<int>, k: nat)
    requires c.Valid() && k <= c.threads && |a| == c.n
  {
    forall i: nat :: 1 <= i < k ==> InOrderAt(c, a, i)
  }

  ghost predicate InOrderAt(c: Config, a: seq<int>, i: nat)
    requires c.Valid() && 1 <= i < c.threads && |a| == c.n
  {
    BorderAdjacent(c, i);
    a[i * c.len - 1] <= a[i * c.len]
  }

  ghost predicate DataInv(c: Config, s: State, a0: seq<int>)
    requires Shape(c, s)
  {
    && multiset(s.a) == multiset(a0)
    && Inversions(s.a) + s.swaps == Inversions(a0)
    && s.epoch <= s.swaps
    && (!s.released ==> forall t :: 0 <= t < c.threads ==> RegionFact(c, s.a, t, s.pcs[t]))
    && (s.done ==> exists t :: 0 <= t < c.threads && s.pcs[t] == Borders(c.threads, false))
  }

  ghost predicate Inv(c: Config, s: State, a0: seq<int>) {
    Shape(c, s) && BarrierInv(c, s) && RoundInv(c, s) && DataInv(c, s, a0)
  }

  lemma MoveKeepsShape(c: Config, s: State, s': State, t: nat, pc: Pc)
    requires Shape(c, s) && t < c.threads
    requires s'.pcs == s.pcs[t := pc] && |s'.a| == |s.a| && |s'.rounds| == |s.rounds|
    requires PcInRange(c, t, pc) && (Critical(pc) <==> s'.lock == Some(t))
    requires s'.lock == s.lock || (s.lock == None && s'.lock == Some(t)) || (s.lock == Some(t) && s'.lock == None)
    ensures Shape(c, s')
  {
    forall u | 0 <= u < c.threads && u != t ensures Critical(s'.pcs[u]) <==> s'.lock == Some(u) {
      assert Critical(s.pcs[u]) <==> s.lock == Some(u);
    }
  }

  /** Where the mover goes, and what it does to the mutex. */
  lemma MoverMoves(c: Config, s: State, t: nat)
    requires c.Valid() && CanStep(c, s, t) && t < c.threads && |s.a| == c.n && PcInRange(c, t, s.pcs[t])
    requires Critical(s.pcs[t]) <==> s.lock == Some(t)
    ensures var s' := Next(c, s, t);
      && |s'.pcs| == |s.pcs| && s'.pcs == s.pcs[t := s'.pcs[t]] && |s'.a| == |s.a| && |s'.rounds| == |s.rounds|
      && PcInRange(c, t, s'.pcs[t]) && (Critical(s'.pcs[t]) <==> s'.lock == Some(t))
      && (s'.lock == s.lock || (s.lock == None && s'.lock == Some(t)) || (s.lock == Some(t) && s'.lock == None))
  {
    RegionBounds(c, t);
  }

  lemma StepShape(c: Config, s: State, t: nat)
    requires Shape(c, s) && CanStep(c, s, t)
    ensures Shape(c, Next(c, s, t))
  {
    assert PcInRange(c, t, s.pcs[t]);
    assert Critical(s.pcs[t]) <==> s.lock == Some(t);
    MoverMoves(c, s, t);
    hide Next, Shape, PcInRange, Critical;
    MoveKeepsShape(c, s, Next(c, s, t), t, Next(c, s, t).pcs[t]);
  }

  /** While the mutex holder is not the mover, what it owes does not change. */
  lemma OwedFrame(c: Config, s: State, s': State, t: nat, pc: Pc)
    requires Shape(c, s) && t < c.threads && s'.pcs == s.pcs[t := pc] && s'.lock == s.lock && s.lock != Some(t)
    ensures Owed1(c, s') == Owed1(c, s) && Owed2(c, s') == Owed2(c, s)
  {}

  lemma GatherMove(c: Config, s: State, s': State, t: nat, pc: Pc)
    requires Shape(c, s) && BarrierInv(c, s) && !s.released && t < c.threads && s'.pcs == s.pcs[t := pc]
    requires !s'.released && s'.sem == 0
    requires s'.counter + One(Counted(s.pcs[t])) == s.counter + One(Counted(pc))
    requires s'.sem2 + Owed2(c, s') + One(Returning(s.pcs[t])) == s.sem2 + Owed2(c, s) + One(Returning(pc))
    requires !Passing(pc) && !pc.Post1?
    requires pc.Borders? ==> !pc.swapped && s'.counter == 0
    requires s'.counter == 0 ==> s'.lock == Some(t) && pc.Borders?
    requires s.counter == 0 ==> s'.counter == 0
    ensures BarrierInv(c, s')
  {
    CountUpdate(s.pcs, t, pc, Counted);
    CountUpdate(s.pcs, t, pc, Returning);
  }

  /** In the gather phase an empty counter means: everyone else waits, and only the mutex holder can move. */
  lemma EmptyCounter(c: Config, s: State, t: nat)
    requires Shape(c, s) && BarrierInv(c, s) && !s.released && s.counter == 0 && t < c.threads
    ensures if s.lock == Some(t) then s.pcs[t].Borders? else s.pcs[t].Wait1?
  {
    CountNone(s.pcs, Counted);
    assert Critical(s.pcs[t]) <==> s.lock == Some(t);
  }

  lemma GatherStep(c: Config, s: State, t: nat)
    requires Shape(c, s) && BarrierInv(c, s) && CanStep(c, s, t) && !s.released && !Next(c, s, t).released
    ensures BarrierInv(c, Next(c, s, t))
  {
    var s' := Next(c, s, t);
    var pc := s'.pcs[t];
    assert Critical(s.pcs[t]) <==> s.lock == Some(t);
    if s.lock != Some(t) && s'.lock == s.lock {
      OwedFrame(c, s, s', t, pc);
    }
    if s.counter == 0 {
      EmptyCounter(c, s, t);
    }
    GatherMove(c, s, s', t, pc);
  }

  /** The first border exchange of a round turns gathering into releasing: everyone has arrived. */
  lemma TurnToRelease(c: Config, s: State, t: nat)
    requires Shape(c, s) && BarrierInv(c, s) && CanStep(c, s, t) && !s.released && Next(c, s, t).released
    ensures BarrierInv(c, Next(c, s, t))
    ensures forall u :: 0 <= u < c.threads && u != t ==> s.pcs[u].Wait1?
  {
    var s' := Next(c, s, t);
    CountUpdate(s.pcs, t, s'.pcs[t], Counted);
    CountUpdate(s.pcs, t, s'.pcs[t], Returning);
    CountNone(s'.pcs, Counted);
    forall u | 0 <= u < c.threads ensures if u == t then s.pcs[u].Borders? else s.pcs[u].Wait1? {
      assert Critical(s.pcs[t]) <==> s.lock == Some(t);
      EmptyCounter(c, s, u);
    }
    CountNone(s'.pcs, Returning);
    CountAll(s'.pcs, Gathered);
  }

  lemma ReleaseMove(c: Config, s: State, s': State, t: nat, pc: Pc)
    requires Shape(c, s) && BarrierInv(c, s) && s.released && t < c.threads && s'.pcs == s.pcs[t := pc]
    requires s'.released && s'.sem2 == 0 && s'.counter != c.threads && s'.counter <= s.counter + 1
    requires s'.counter + One(Counted(s.pcs[t])) == s.counter + One(Counted(pc))
    requires s'.sem + Owed1(c, s') + One(Gathered(s.pcs[t])) == s.sem + Owed1(c, s) + One(Gathered(pc))
    requires !Sorting(pc) && !pc.Post2?
    requires pc.Borders? ==> pc.swapped && s'.counter == 0
    requires s'.counter == s.counter || forall u :: 0 <= u < c.threads ==> !s.pcs[u].Borders?
    ensures BarrierInv(c, s')
  {
    CountUpdate(s.pcs, t, pc, Counted);
    CountUpdate(s.pcs, t, pc, Gathered);
  }

  lemma ReleaseStep(c: Config, s: State, t: nat)
    requires Shape(c, s) && BarrierInv(c, s) && CanStep(c, s, t) && s.released && Next(c, s, t).released
    ensures BarrierInv(c, Next(c, s, t))
  {
    var s' := Next(c, s, t);
    var pc := s'.pcs[t];
    assert Critical(s.pcs[t]) <==> s.lock == Some(t);
    if s.lock != Some(t) && s'.lock == s.lock {
      OwedFrame(c, s, s', t, pc);
    }
    if s.pcs[t].Increment? {
      forall u | 0 <= u < c.threads ensures !s.pcs[u].Borders? {
        assert Critical(s.pcs[u]) <==> s.lock == Some(u);
      }
      assert s'.counter == s.counter + 1;
    } else {
      assert s'.counter == s.counter;
    }
    ReleaseMove(c, s, s', t, pc);
  }

  /** The last increment turns releasing back into gathering: every first token has been consumed. */
  lemma TurnToGather(c: Config, s: State, t: nat)
    requires Shape(c, s) && BarrierInv(c, s) && CanStep(c, s, t) && s.released && !Next(c, s, t).released
    ensures BarrierInv(c, Next(c, s, t))
    ensures s.sem == 0 && forall u :: 0 <= u < c.threads && u != t ==> Returning(s.pcs[u])
  {
    var s' := Next(c, s, t);
    CountUpdate(s.pcs, t, s'.pcs[t], Counted);
    CountUpdate(s.pcs, t, s'.pcs[t], Gathered);
    CountAll(s'.pcs, Counted);
    assert Critical(s.pcs[t]) <==> s.lock == Some(t);
    forall u | 0 <= u < c.threads ensures Returning(s'.pcs[u]) && !Gathered(s'.pcs[u])
        && (u != t ==> Returning(s.pcs[u])) {
      assert Counted(s'.pcs[u]);
    }
    CountAll(s'.pcs, Returning);
    CountNone(s'.pcs, Gathered);
  }

  lemma StepBarrier(c: Config, s: State, t: nat)
    requires Shape(c, s) && BarrierInv(c, s) && CanStep(c, s, t)
    ensures BarrierInv(c, Next(c, s, t))
  {
    var s' := Next(c, s, t);
    if s.released {
      if s'.released { ReleaseStep(c, s, t); } else { TurnToGather(c, s, t); }
    } else {
      if s'.released { TurnToRelease(c, s, t); } else { GatherStep(c, s, t); }
    }
  }

  lemma RoundMove(c: Config, s: State, s': State, t: nat, u: nat)
    requires |s.rounds| == |s.pcs| == |s'.rounds| == |s'.pcs| && t < |s.pcs| && u < |s.pcs| && RoundInv(c, s)
    requires s'.pcs == s.pcs[t := s'.pcs[t]] && (u != t ==> s'.rounds[u] == s.rounds[u])
    requires s'.released == s.released && s'.epoch == s.epoch
    requires s'.rounds[t] + One(s.released || Returning(s'.pcs[t]))
      == s.rounds[t] + One(s.released || Returning(s.pcs[t]))
    ensures s'.rounds[u] + One(s'.released || Returning(s'.pcs[u])) == s'.epoch
  {
    assert s.rounds[u] + One(s.released || Returning(s.pcs[u])) == s.epoch;
  }

  lemma QuietRounds(c: Config, s: State, t: nat, s': State)
    requires Shape(c, s) && RoundInv(c, s) && CanStep(c, s, t) && s' == Next(c, s, t) && s'.released == s.released
    requires if s.released then !s.pcs[t].Wait2? else !s.pcs[t].Increment?
    requires s'.epoch == s.epoch && |s'.pcs| == |s'.rounds|
    ensures RoundInv(c, s')
  {
    assert s.rounds[t] + One(s.released || Returning(s.pcs[t])) == s.epoch;
    forall u | 0 <= u < |s'.pcs| ensures s'.rounds[u] + One(s'.released || Returning(s'.pcs[u])) == s'.epoch {
      RoundMove(c, s, s', t, u);
    }
  }

  lemma ReleaseRounds(c: Config, s: State, t: nat, s': State)
    requires Shape(c, s) && BarrierInv(c, s) && RoundInv(c, s) && CanStep(c, s, t)
    requires s' == Next(c, s, t) && s'.released && !s.released && |s'.pcs| == |s'.rounds|
    ensures RoundInv(c, s')
  {
    TurnToRelease(c, s, t);
    assert !s.pcs[t].swapped;
    forall u | 0 <= u < |s'.pcs| ensures s'.rounds[u] + 1 == s'.epoch {
      assert s.rounds[u] + One(s.released || Returning(s.pcs[u])) == s.epoch;
    }
  }

  lemma GatherRounds(c: Config, s: State, t: nat, s': State)
    requires Shape(c, s) && BarrierInv(c, s) && RoundInv(c, s) && CanStep(c, s, t)
    requires s' == Next(c, s, t) && !s'.released && s.released && |s'.pcs| == |s'.rounds|
    ensures RoundInv(c, s')
  {
    TurnToGather(c, s, t);
    forall u | 0 <= u < |s'.pcs| ensures s'.rounds[u] + One(Returning(s'.pcs[u])) == s'.epoch {
      assert s.rounds[u] + 1 == s.epoch;
    }
  }

  lemma EpochKept(c: Config, s: State, t: nat)
    requires Shape(c, s) && BarrierInv(c, s) && CanStep(c, s, t) && Next(c, s, t).released == s.released
    ensures Next(c, s, t).epoch == s.epoch && if s.released then !s.pcs[t].Wait2? else !s.pcs[t].Increment?
  {}

  lemma StepRounds(c: Config, s: State, t: nat)
    requires Shape(c, s) && BarrierInv(c, s) && RoundInv(c, s) && CanStep(c, s, t)
    ensures Shape(c, Next(c, s, t)) && RoundInv(c, Next(c, s, t))
  {
    StepShape(c, s, t);
    var s' := Next(c, s, t);
    if s'.released == s.released {
      EpochKept(c, s, t);
      QuietRounds(c, s, t, s');
    } else if s'.released {
      ReleaseRounds(c, s, t, s');
    } else {
      GatherRounds(c, s, t, s');
    }
  }

  lemma RegionFrame(c: Config, a: seq<int>, b: seq<int>, u: nat, pc: Pc)
    requires c.Valid() && u < c.threads && |a| == |b| == c.n && PcInRange(c, u, pc) && !pc.Borders?
    requires forall k :: c.Left(u) <= k <= c.Right(u) ==> (RegionBounds(c, u); a[k] == b[k])
    requires RegionFact(c, a, u, pc)
    ensures RegionFact(c, b, u, pc)
  {
    RegionBounds(c, u);
  }

  /** One exchange of the insertion sort keeps the insertion fact, one place further left. */
  lemma InsertionFact(a: seq<int>, lo: nat, cur: nat, tmp: nat)
    requires lo < tmp <= cur < |a| && a[tmp - 1] > a[tmp] && SortedBut(a, lo, cur, tmp)
    ensures SortedBut(SwapAt(a, tmp - 1), lo, cur, tmp - 1)
  {
    var b := SwapAt(a, tmp - 1);
    forall i, j | lo <= i < j <= cur && j != tmp - 1 ensures b[i] <= b[j] {
      var i' := if i == tmp then tmp - 1 else if i == tmp - 1 then tmp else i;
      var j' := if j == tmp then tmp - 1 else j;
      assert b[i] == a[i'] && b[j] == a[j'];
      if i' < j' {
        assert a[i'] <= a[j'];
      }
    }
  }

  lemma OthersUntouched(c: Config, s: State, t: nat, u: nat, a0: seq<int>)
    requires Inv(c, s, a0) && CanStep(c, s, t) && s.pcs[t].Inner? && u < c.threads && u != t
    requires s.pcs[t].tmp >= c.Left(t) + 1
    ensures RegionFact(c, SwapAt(s.a, s.pcs[t].tmp - 1), u, s.pcs[u])
  {
    RegionBounds(c, t);
    RegionBounds(c, u);
    if u < t { RegionsInOrder(c, u, t); } else { RegionsInOrder(c, t, u); }
    if s.pcs[u].Borders? {
      EmptyCounter(c, s, t);
    }
    assert RegionFact(c, s.a, u, s.pcs[u]);
    RegionFrame(c, s.a, SwapAt(s.a, s.pcs[t].tmp - 1), u, s.pcs[u]);
  }

  lemma MoverInserts(c: Config, s: State, t: nat, a0: seq<int>)
    requires Shape(c, s) && DataInv(c, s, a0) && CanStep(c, s, t) && s.pcs[t].Inner? && !s.released
    requires s.pcs[t].tmp >= c.Left(t) + 1 && s.a[s.pcs[t].tmp - 1] > s.a[s.pcs[t].tmp]
    ensures RegionFact(c, SwapAt(s.a, s.pcs[t].tmp - 1), t, Inner(s.pcs[t].cur, s.pcs[t].tmp - 1))
  {
    RegionBounds(c, t);
    assert RegionFact(c, s.a, t, s.pcs[t]);
    InsertionFact(s.a, c.Left(t), s.pcs[t].cur, s.pcs[t].tmp);
  }

  lemma InnerNext(c: Config, s: State, t: nat)
    requires CanStep(c, s, t) && s.pcs[t].Inner? && s.pcs[t].tmp >= c.Left(t) + 1
      && s.a[s.pcs[t].tmp - 1] > s.a[s.pcs[t].tmp]
    ensures var k := s.pcs[t].tmp - 1;
      Next(c, s, t) == s.(pcs := s.pcs[t := Inner(s.pcs[t].cur, k)], a := SwapAt(s.a, k), swaps := s.swaps + 1)
  {}

  lemma SwappedData(c: Config, s: State, s': State, k: nat, a0: seq<int>)
    requires Shape(c, s) && DataInv(c, s, a0) && Shape(c, s') && k + 1 < |s.a| && s.a[k] > s.a[k + 1] && !s.done
    requires s' == s.(pcs := s'.pcs, a := SwapAt(s.a, k), swaps := s.swaps + 1)
    requires forall u :: 0 <= u < c.threads ==> RegionFact(c, s'.a, u, s'.pcs[u])
    ensures DataInv(c, s', a0)
  {
    SwapRemovesOne(s.a, k);
    SwapPermutes(s.a, k);
    hide RegionFact, SwapAt, Inversions;
  }

  lemma SortingFacts(c: Config, s: State, t: nat, a0: seq<int>)
    requires Inv(c, s, a0) && t < c.threads && t < |s.pcs| && Sorting(s.pcs[t])
    ensures Shape(c, s) && DataInv(c, s, a0) && !s.released && |s.pcs| == c.threads
  {}

  /** One exchange of the insertion sort stays inside the mover's region. */
  lemma InsertionExchange(c: Config, s: State, t: nat, a0: seq<int>)
    requires Inv(c, s, a0) && CanStep(c, s, t) && s.pcs[t].Inner? && t < c.threads
    requires s.pcs[t].tmp >= c.Left(t) + 1 && s.a[s.pcs[t].tmp - 1] > s.a[s.pcs[t].tmp]
    ensures Shape(c, Next(c, s, t)) && DataInv(c, Next(c, s, t), a0)
  {
    hide Inv, DataInv, RegionFact, SwapAt, Next;
    SortingFacts(c, s, t, a0);
    StepShape(c, s, t);
    InnerNext(c, s, t);
    var s', k := Next(c, s, t), s.pcs[t].tmp - 1;
    forall u | 0 <= u < c.threads ensures RegionFact(c, s'.a, u, s'.pcs[u]) {
      if u == t {
        MoverInserts(c, s, t, a0);
      } else {
        OthersUntouched(c, s, t, u, a0);
      }
    }
    SwappedData(c, s, s', k, a0);
  }

  /** A thread that is still sorting owns its region: no step of another thread changes it. */
  lemma RegionOwned(c: Config, s: State, a0: seq<int>, t: nat, u: nat)
    requires Inv(c, s, a0) && CanStep(c, s, u) && u != t && t < c.threads && Sorting(s.pcs[t])
    ensures |Next(c, s, u).a| == |s.a|
    ensures forall k :: 0 <= k < |s.a| && c.Left(t) <= k <= c.Right(t) ==> Next(c, s, u).a[k] == s.a[k]
  {
    RegionBounds(c, t);
    assert !s.released;
    if s.pcs[u].Borders? {
      EmptyCounter(c, s, t);
    }
    hide Inv, Shape, BarrierInv, RoundInv, DataInv;
    if s.pcs[u].Inner? && s.pcs[u].tmp >= c.Left(u) + 1 && s.a[s.pcs[u].tmp - 1] > s.a[s.pcs[u].tmp] {
      InnerNext(c, s, u);
      InnerOutside(c, s, a0, t, u);
    }
  }

  /** The two neighbours that a sorting thread compares are both in its own region. */
  lemma InnerOutside(c: Config, s: State, a0: seq<int>, t: nat, u: nat)
    requires Inv(c, s, a0) && u < c.threads && t < c.threads && u != t && s.pcs[u].Inner?
      && s.pcs[u].tmp >= c.Left(u) + 1
    ensures !(c.Left(t) <= s.pcs[u].tmp - 1 <= c.Right(t)) && !(c.Left(t) <= s.pcs[u].tmp <= c.Right(t))
  {
    RegionBounds(c, t);
    RegionBounds(c, u);
    assert PcInRange(c, u, s.pcs[u]);
    if u < t { RegionsInOrder(c, u, t); } else { RegionsInOrder(c, t, u); }
  }

  lemma BorderExchange(c: Config, s: State, t: nat, a0: seq<int>)
    requires Inv(c, s, a0) && CanStep(c, s, t) && s.pcs[t].Borders? && s.pcs[t].i < c.threads
    requires s.a[s.pcs[t].i * c.len - 1] > s.a[s.pcs[t].i * c.len]
    ensures Shape(c, Next(c, s, t)) && DataInv(c, Next(c, s, t), a0)
  {
    StepShape(c, s, t);
    BorderAdjacent(c, s.pcs[t].i);
    SwapRemovesOne(s.a, s.pcs[t].i * c.len - 1);
    SwapPermutes(s.a, s.pcs[t].i * c.len - 1);
  }

  lemma InsertionEnds(a: seq<int>, lo: nat, cur: nat, tmp: nat)
    requires lo <= tmp <= cur < |a| && SortedBut(a, lo, cur, tmp) && (tmp == lo || a[tmp - 1] <= a[tmp])
    ensures SortedRange(a, lo, cur + 1)
  {
    forall i, j | lo <= i < j < cur + 1 ensures a[i] <= a[j] {
      if j == tmp && i < tmp - 1 {
        assert a[i] <= a[tmp - 1];
      }
    }
  }

  lemma QuietSortingFact(c: Config, s: State, t: nat, a0: seq<int>)
    requires Inv(c, s, a0) && CanStep(c, s, t) && Next(c, s, t).swaps == s.swaps && !s.released && Sorting(s.pcs[t])
    ensures Shape(c, Next(c, s, t)) && RegionFact(c, s.a, t, Next(c, s, t).pcs[t])
  {
    assert t < c.threads;
    hide Inv, Inversions;
    SortingFacts(c, s, t, a0);
    StepShape(c, s, t);
    RegionBounds(c, t);
    assert RegionFact(c, s.a, t, s.pcs[t]);
    if s.pcs[t].Inner? {
      InsertionEnds(s.a, c.Left(t), s.pcs[t].cur, s.pcs[t].tmp);
    }
  }

  lemma QuietBorderFact(c: Config, s: State, t: nat, a0: seq<int>)
    requires Inv(c, s, a0) && CanStep(c, s, t) && Next(c, s, t).swaps == s.swaps && !s.released && s.pcs[t].Borders?
    ensures Shape(c, Next(c, s, t)) && RegionFact(c, s.a, t, Next(c, s, t).pcs[t])
  {
    StepShape(c, s, t);
    RegionBounds(c, t);
    assert RegionFact(c, s.a, t, s.pcs[t]);
    var k := s.pcs[t].i;
    if k < c.threads {
      BorderAdjacent(c, k);
      assert InOrderAt(c, s.a, k);
    }
  }

  /** Steps that leave the array alone: the mover's new fact follows from its old one. */
  lemma QuietFact(c: Config, s: State, t: nat, a0: seq<int>)
    requires Inv(c, s, a0) && CanStep(c, s, t) && Next(c, s, t).swaps == s.swaps && !s.released
    ensures Shape(c, Next(c, s, t)) && RegionFact(c, s.a, t, Next(c, s, t).pcs[t])
  {
    if Sorting(s.pcs[t]) {
      QuietSortingFact(c, s, t, a0);
    } else if s.pcs[t].Borders? {
      QuietBorderFact(c, s, t, a0);
    } else {
      StepShape(c, s, t);
      assert RegionFact(c, s.a, t, s.pcs[t]);
      assert Shape(c, s);
    }
  }

  lemma QuietFacts(c: Config, s: State, t: nat, a0: seq<int>, u: nat)
    requires Inv(c, s, a0) && CanStep(c, s, t) && Next(c, s, t).a == s.a && Next(c, s, t).swaps == s.swaps
    requires !Next(c, s, t).released && u < c.threads
    ensures Shape(c, Next(c, s, t)) && RegionFact(c, s.a, u, Next(c, s, t).pcs[u])
  {
    StepShape(c, s, t);
    var pc := Next(c, s, t).pcs[u];
    if s.released {
      TurnToGather(c, s, t);
      assert Returning(pc);
    } else if u == t {
      QuietFact(c, s, t, a0);
    } else {
      assert pc == s.pcs[u];
      assert RegionFact(c, s.a, u, s.pcs[u]);
    }
  }

  lemma QuietStep(c: Config, s: State, t: nat, a0: seq<int>)
    requires Inv(c, s, a0) && CanStep(c, s, t) && Next(c, s, t).a == s.a && Next(c, s, t).swaps == s.swaps
    ensures Shape(c, Next(c, s, t)) && DataInv(c, Next(c, s, t), a0)
  {
    StepShape(c, s, t);
    var s' := Next(c, s, t);
    forall u | 0 <= u < c.threads && !s'.released ensures RegionFact(c, s'.a, u, s'.pcs[u]) {
      QuietFacts(c, s, t, a0, u);
    }
    assert s'.epoch == s.epoch;
    if s'.done {
      assert s'.pcs[t] == s.pcs[t];
      assert s.pcs[t].Borders?;
      assert s.pcs[t] == Borders(c.threads, false);
    }
  }

  /** Either a step leaves array and exchange count alone, or it is one of the two exchanges. */
  lemma StepKinds(c: Config, s: State, t: nat)
    requires CanStep(c, s, t)
    ensures
      || (Next(c, s, t).a == s.a && Next(c, s, t).swaps == s.swaps)
      || (s.pcs[t].Inner? && s.pcs[t].tmp >= c.Left(t) + 1 && s.a[s.pcs[t].tmp - 1] > s.a[s.pcs[t].tmp])
      || (s.pcs[t].Borders? && s.pcs[t].i < c.threads && s.a[s.pcs[t].i * c.len - 1] > s.a[s.pcs[t].i * c.len])
  {}

  lemma StepData(c: Config, s: State, t: nat, a0: seq<int>)
    requires Inv(c, s, a0) && CanStep(c, s, t)
    ensures Shape(c, Next(c, s, t)) && DataInv(c, Next(c, s, t), a0)
  {
    StepKinds(c, s, t);
    if Next(c, s, t).a == s.a && Next(c, s, t).swaps == s.swaps {
      QuietStep(c, s, t, a0);
    } else if s.pcs[t].Inner? {
      InsertionExchange(c, s, t, a0);
    } else {
      BorderExchange(c, s, t, a0);
    }
  }

  lemma StepInv(c: Config, s: State, t: nat, a0: seq<int>)
    requires Inv(c, s, a0) && CanStep(c, s, t)
    ensures Inv(c, Next(c, s, t), a0)
  {
    StepBarrier(c, s, t);
    StepRounds(c, s, t);
    StepData(c, s, t, a0);
  }

  lemma InitialInv(c: Config, s: State, a0: seq<int>)
    requires c.Valid() && Initial(c, s, a0)
    ensures Inv(c, s, a0)
  {
    forall t | 0 <= t < c.threads ensures PcInRange(c, t, s.pcs[t]) && s.pcs[t] == Outer(c.Left(t)) {
      RegionBounds(c, t);
    }
    CountAll(s.pcs, Counted);
    CountNone(s.pcs, Returning);
  }

  lemma {:induction false} RunInv(c: Config, s: State, schedule: seq<nat>, a0: seq<int>)
    requires Inv(c, s, a0) && Feasible(c, s, schedule)
    ensures Inv(c, Run(c, s, schedule), a0)
    decreases |schedule|
  {
    if schedule != [] {
      StepInv(c, s, schedule[0], a0);
      RunInv(c, Next(c, s, schedule[0]), schedule[1..], a0);
    }
  }

  // ---------------------------------------------------------------- safety over whole runs

  lemma {:induction false} SortedUpTo(c: Config, a: seq<int>, t: nat)
    requires c.Valid() && |a| == c.n && t < c.threads && BordersInOrder(c, a, t + 1)
    requires forall u :: 0 <= u <= t ==> (RegionBounds(c, u); SortedRange(a, c.Left(u), c.Right(u) + 1))
    ensures c.Right(t) < c.n && SortedRange(a, 0, c.Right(t) + 1)
  {
    RegionBounds(c, t);
    if t > 0 {
      RegionBounds(c, t - 1);
      SortedUpTo(c, a, t - 1);
      BorderAdjacent(c, t);
      var m := c.Left(t);
      assert InOrderAt(c, a, t);
      assert a[m - 1] <= a[m];
      forall i, j | 0 <= i < j < c.Right(t) + 1 ensures a[i] <= a[j] {
        if i < m <= j {
          assert a[i] <= a[m - 1] && a[m] <= a[j];
        }
      }
    }
  }

  /** `exit` is reached only when every region is sorted and no border is inverted. */
  lemma DoneMeansSorted(c: Config, s: State, a0: seq<int>)
    requires Inv(c, s, a0) && s.done
    ensures Sorted(s.a) && s.lock.Some? && s.counter == 0
  {
    var t :| 0 <= t < c.threads && s.pcs[t] == Borders(c.threads, false);
    assert !s.released;
    forall u | 0 <= u < c.threads ensures (RegionBounds(c, u); SortedRange(s.a, c.Left(u), c.Right(u) + 1)) {
      EmptyCounter(c, s, u);
      assert RegionFact(c, s.a, u, s.pcs[u]);
    }
    assert RegionFact(c, s.a, t, s.pcs[t]);
    SortedUpTo(c, s.a, c.threads - 1);
  }

  /**
   Whatever the schedule, a run that reaches `exit` leaves a sorted permutation of the input, has made exactly
   as many exchanges as the input has inversions, and has gone round the barrier at most that many times.
   */
  lemma CompleteRunSorts(c: Config, s: State, a0: seq<int>, schedule: seq<nat>)
    requires c.Valid() && Initial(c, s, a0) && Feasible(c, s, schedule) && Run(c, s, schedule).done
    ensures var e := Run(c, s, schedule);
      && Sorted(e.a) && multiset(e.a) == multiset(a0)
      && e.swaps == Inversions(a0)
      && forall t :: 0 <= t < |e.rounds| ==> e.rounds[t] == e.epoch <= Inversions(a0)
  {
    InitialInv(c, s, a0);
    RunInv(c, s, schedule, a0);
    var e := Run(c, s, schedule);
    DoneMeansSorted(c, e, a0);
    NoPairsIffSorted(e.a);
    forall t | 0 <= t < |e.rounds| ensures e.rounds[t] == e.epoch {
      EmptyCounter(c, e, t);
    }
  }

  /** The outcome does not depend on how the threads are interleaved. */
  lemma ScheduleIndependent(c: Config, s: State, a0: seq<int>, p: seq<nat>, q: seq<nat>)
    requires c.Valid() && Initial(c, s, a0)
    requires Feasible(c, s, p) && Run(c, s, p).done && Feasible(c, s, q) && Run(c, s, q).done
    ensures Run(c, s, p).a == Run(c, s, q).a && Run(c, s, p).swaps == Run(c, s, q).swaps
  {
    CompleteRunSorts(c, s, a0, p);
    CompleteRunSorts(c, s, a0, q);
    SortedIsUnique(Run(c, s, p).a, Run(c, s, q).a);
  }

  /** While one thread works on the borders, all others are parked before the first semaphore, which is empty. */
  lemma BordersAreExclusive(c: Config, s: State, a0: seq<int>, t: nat)
    requires Inv(c, s, a0) && t < c.threads && s.pcs[t].Borders?
    ensures s.sem == 0 && s.lock == Some(t)
    ensures forall u :: 0 <= u < c.threads && u != t ==> s.pcs[u] == Wait1
  {
    assert Critical(s.pcs[t]) <==> s.lock == Some(t);
    forall u | 0 <= u < c.threads && u != t ensures s.pcs[u] == Wait1 {
      assert Critical(s.pcs[u]) <==> s.lock == Some(u);
      CountNone(s.pcs, Counted);
      if s.released {
        assert s.sem + c.threads == Count(s.pcs, Gathered);
        CountAll(s.pcs, Gathered);
        assert Gathered(s.pcs[u]);
      } else {
        EmptyCounter(c, s, u);
      }
    }
    CountAll(s.pcs, Gathered);
  }

  /**
   The two token supplies never overlap, and a token is only ever taken by a thread of the round it was posted
   for: the takers of the first semaphore are all one round behind the releases, so are those of the second.
   */
  lemma TokensOfOneRound(c: Config, s: State, a0: seq<int>)
    requires Inv(c, s, a0)
    ensures s.sem == 0 || s.sem2 == 0
    ensures s.sem > 0 ==> forall t :: 0 <= t < c.threads ==>
      s.rounds[t] + 1 == s.epoch && !s.pcs[t].Post2? && !Sorting(s.pcs[t])
    ensures s.sem2 > 0 ==> forall t :: 0 <= t < c.threads ==> !s.pcs[t].Post1? && !Passing(s.pcs[t])
    ensures s.sem2 > 0 ==> forall t :: 0 <= t < c.threads && s.pcs[t].Wait2? ==> s.rounds[t] + 1 == s.epoch
    ensures forall t, u :: 0 <= t < c.threads && 0 <= u < c.threads ==> s.rounds[t] <= s.rounds[u] + 1
  {
    forall t | 0 <= t < c.threads
      ensures s.rounds[t] <= s.epoch <= s.rounds[t] + 1
    {
      assert s.rounds[t] + One(s.released || Returning(s.pcs[t])) == s.epoch;
    }
  }

  // ---------------------------------------------------------------- progress and termination

  lemma MemorySafe(c: Config, s: State, a0: seq<int>, t: nat)
    requires Inv(c, s, a0) && Enabled(c, s, t)
    ensures InBounds(c, s, t)
  {
    RegionBounds(c, t);
    assert PcInRange(c, t, s.pcs[t]);
    if s.pcs[t].Borders? && s.pcs[t].i < c.threads {
      BorderAdjacent(c, s.pcs[t].i);
    }
  }

  /**
   What a thread waits for, exactly: before exit, another thread that holds the mutex when it comes to the barrier, or
   a token of the semaphore it has come to. Nobody waits while sorting.
   */
  lemma WaitsExactly(c: Config, s: State, a0: seq<int>, t: nat)
    requires Inv(c, s, a0) && t < c.threads && !s.done
    ensures t < |s.pcs|
    ensures !CanStep(c, s, t) <==>
      || ((s.pcs[t].Arrive? || s.pcs[t].Rejoin?) && exists u :: 0 <= u < c.threads && u != t && Critical(s.pcs[u]))
      || (s.pcs[t].Wait1? && s.sem == 0)
      || (s.pcs[t].Wait2? && s.sem2 == 0)
  {
    if Enabled(c, s, t) {
      MemorySafe(c, s, a0, t);
    }
    assert Critical(s.pcs[t]) <==> s.lock == Some(t);
    if s.lock.Some? {
      assert Critical(s.pcs[s.lock.value]);
    } else {
      forall u | 0 <= u < c.threads ensures !Critical(s.pcs[u]) {
        assert Critical(s.pcs[u]) <==> s.lock == Some(u);
      }
    }
  }

  /** Until `exit`, some thread can take a step. */
  lemma SomeoneCanStep(c: Config, s: State, a0: seq<int>) returns (t: nat)
    requires Inv(c, s, a0) && !s.done
    ensures CanStep(c, s, t)
  {
    if s.lock.Some? {
      t := s.lock.value;
      assert Critical(s.pcs[t]) <==> s.lock == Some(t);
    } else if u :| 0 <= u < c.threads && !s.pcs[u].Wait1? && !s.pcs[u].Wait2? {
      t := u;
      assert Critical(s.pcs[t]) <==> s.lock == Some(t);
    } else {
      t := WaiterWithToken(c, s, a0);
    }
    MemorySafe(c, s, a0, t);
  }

  lemma WaiterWithToken(c: Config, s: State, a0: seq<int>) returns (t: nat)
    requires Inv(c, s, a0) && !s.done && s.lock.None?
    requires forall u :: 0 <= u < c.threads ==> s.pcs[u].Wait1? || s.pcs[u].Wait2?
    ensures Enabled(c, s, t)
  {
    CountAll(s.pcs, Counted);
    CountNone(s.pcs, Counted);
    CountNone(s.pcs, Gathered);
    CountNone(s.pcs, Returning);
    if s.released {
      t :| 0 <= t < c.threads && !Counted(s.pcs[t]);
    } else {
      t :| 0 <= t < c.threads && Counted(s.pcs[t]);
    }
  }

  function Less(x: nat, y: nat): nat {
    if y <= x then x - y else 0
  }

  /** An upper bound on the steps a thread can still take before the next border exchange. */
  function Weight(c: Config, released: bool, pc: Pc): nat {
    var n := c.threads;
    var z := n + 2 * c.n + 5;
    match pc
    case Wait1 => if released then z + n + 5 else 0
    case Leave1 => if released then z + n + 6 else 1
    case Borders(i, swapped) => if swapped then z + 2 * n + 8 + Less(n, i) else 2 + Less(n, i)
    case Decrement => n + 2
    case Arrive => n + 3
    case Outer(cur) => n + 4 + 2 * Less(c.n, cur)
    case Inner(cur, _) => n + 3 + 2 * Less(c.n, cur)
    case Wait2 => z
    case Leave2 => z + 1
    case Post2(i) => z + 2 + Less(n, i)
    case Increment => z + n + 3
    case Rejoin => z + n + 4
    case Post1(i) => z + n + 7 + Less(n, i)
  }

  function Work(c: Config, released: bool): Pc -> nat {
    (pc: Pc) => Weight(c, released, pc)
  }

  function MaxWork(c: Config): nat {
    c.threads * (2 * c.n + 4 * c.threads + 13)
  }

  ghost function Measure(c: Config, s: State): nat {
    Inversions(s.a) * (MaxWork(c) + 2) + Sum(s.pcs, Work(c, s.released)) + One(!s.done)
  }

  lemma WorkBound(c: Config, s: State)
    requires |s.pcs| == c.threads
    ensures Sum(s.pcs, Work(c, s.released)) <= MaxWork(c)
  {
    SumBound(s.pcs, Work(c, s.released), 2 * c.n + 4 * c.threads + 13);
  }

  lemma WeightDrops(c: Config, s: State, t: nat)
    requires Shape(c, s) && BarrierInv(c, s) && CanStep(c, s, t)
    requires Next(c, s, t).swaps == s.swaps && !Next(c, s, t).done
    ensures Weight(c, s.released, Next(c, s, t).pcs[t]) < Weight(c, s.released, s.pcs[t])
  {
    RegionBounds(c, t);
    var pc := s.pcs[t];
    assert PcInRange(c, t, pc);
    match pc
    case Outer(_) =>
    case Inner(_, _) =>
    case Borders(i, swapped) =>
    case Post1(i) =>
    case Post2(i) =>
    case _ =>
  }

  lemma TurnKeepsWork(c: Config, s: State, t: nat)
    requires Shape(c, s) && BarrierInv(c, s) && CanStep(c, s, t) && s.released && !Next(c, s, t).released
    ensures Sum(Next(c, s, t).pcs, Work(c, false)) == Sum(Next(c, s, t).pcs, Work(c, true))
  {
    var s' := Next(c, s, t);
    TurnToGather(c, s, t);
    forall u | 0 <= u < |s'.pcs| ensures Work(c, false)(s'.pcs[u]) == Work(c, true)(s'.pcs[u]) {
      assert Returning(s'.pcs[u]);
    }
    SumCongruent(s'.pcs, Work(c, false), Work(c, true));
  }

  /** Only a border exchange starts releasing. */
  lemma QuietPhase(c: Config, s: State, t: nat)
    requires CanStep(c, s, t) && Next(c, s, t).swaps == s.swaps && !Next(c, s, t).done
    ensures Next(c, s, t).released ==> s.released
    ensures Next(c, s, t).pcs == s.pcs[t := Next(c, s, t).pcs[t]]
  {}

  lemma QuietWork(c: Config, s: State, t: nat, a0: seq<int>)
    requires Inv(c, s, a0) && CanStep(c, s, t) && Next(c, s, t).swaps == s.swaps && !Next(c, s, t).done
    ensures Sum(Next(c, s, t).pcs, Work(c, Next(c, s, t).released)) < Sum(s.pcs, Work(c, s.released))
  {
    WeightDrops(c, s, t);
    QuietPhase(c, s, t);
    SumUpdate(s.pcs, t, Next(c, s, t).pcs[t], Work(c, s.released));
    if s.released != Next(c, s, t).released {
      TurnKeepsWork(c, s, t);
    }
  }

  lemma OneInversionLess(i: nat, j: nat, k: nat, w: nat, v: nat)
    requires i + 1 == j && w <= k
    ensures i * (k + 2) + w + 1 < j * (k + 2) + v
  {
    assert j * (k + 2) == i * (k + 2) + (k + 2);
  }

  lemma SwapDecreases(c: Config, s: State, s': State)
    requires Inversions(s'.a) + 1 == Inversions(s.a) && |s'.pcs| == c.threads
    ensures Measure(c, s') < Measure(c, s)
  {
    WorkBound(c, s');
    OneInversionLess(Inversions(s'.a), Inversions(s.a), MaxWork(c),
                     Sum(s'.pcs, Work(c, s'.released)), Sum(s.pcs, Work(c, s.released)) + One(!s.done));
  }

  lemma LastStep(c: Config, s: State, t: nat)
    requires CanStep(c, s, t) && Next(c, s, t).done
    ensures Next(c, s, t) == s.(done := true)
  {}

  /** A step without an exchange, the last one included. */
  lemma QuietDecreases(c: Config, s: State, t: nat, a0: seq<int>)
    requires Inv(c, s, a0) && CanStep(c, s, t) && Next(c, s, t).a == s.a && Next(c, s, t).swaps == s.swaps
    ensures Measure(c, Next(c, s, t)) < Measure(c, s)
  {
    hide Inv, Inversions, MaxWork;
    if Next(c, s, t).done {
      LastStep(c, s, t);
    } else {
      QuietWork(c, s, t, a0);
    }
    hide Next, Work, Sum;
  }

  lemma StepDecreases(c: Config, s: State, t: nat, a0: seq<int>)
    requires Inv(c, s, a0) && CanStep(c, s, t)
    ensures Measure(c, Next(c, s, t)) < Measure(c, s)
  {
    StepShape(c, s, t);
    assert |Next(c, s, t).pcs| == c.threads;
    hide Inv, Shape, Next, Measure, SwapAt, Inversions, CanStep;
    var k := StepSwaps(c, s, t);
    if k > 0 {
      SwapRemovesOne(s.a, k - 1);
      SwapDecreases(c, s, Next(c, s, t));
    } else {
      QuietDecreases(c, s, t, a0);
    }
  }

  lemma {:induction false} RunLength(c: Config, s: State, a0: seq<int>, schedule: seq<nat>)
    requires Inv(c, s, a0) && Feasible(c, s, schedule)
    ensures |schedule| + Measure(c, Run(c, s, schedule)) <= Measure(c, s)
    decreases |schedule|
  {
    if schedule != [] {
      StepInv(c, s, schedule[0], a0);
      StepDecreases(c, s, schedule[0], a0);
      RunLength(c, Next(c, s, schedule[0]), a0, schedule[1..]);
    }
  }

  /**
   Total correctness without any fairness assumption: every run is finite, and one that cannot be
   extended has reached `exit` with the sorted array.
   */
  lemma EveryMaximalRunSorts(c: Config, s: State, a0: seq<int>, schedule: seq<nat>)
    requires c.Valid() && Initial(c, s, a0) && Feasible(c, s, schedule)
    ensures |schedule| <= (Inversions(a0) + 1) * (MaxWork(c) + 2)
    ensures (forall t :: !CanStep(c, Run(c, s, schedule), t)) ==>
      && Run(c, s, schedule).done
      && Sorted(Run(c, s, schedule).a) && multiset(Run(c, s, schedule).a) == multiset(a0)
  {
    assert |s.pcs| == c.threads;
    hide *;
    InitialInv(c, s, a0);
    RunLength(c, s, a0, schedule);
    assert |schedule| <= (Inversions(a0) + 1) * (MaxWork(c) + 2) by {
      WorkBound(c, s);
      OneInversionLess(Inversions(a0), Inversions(a0) + 1, MaxWork(c), Sum(s.pcs, Work(c, s.released)), 0);
    }
    RunInv(c, s, schedule, a0);
    var e := Run(c, s, schedule);
    if forall t :: !CanStep(c, e, t) {
      if !e.done {
        var t := SomeoneCanStep(c, e, a0);
      }
      CompleteRunSorts(c, s, a0, schedule);
    }
  }
}
