/**
 Readers and writers of one library. `count.lock` is a mutex around the number of readers; the library's lock is
 used as a binary semaphore, because the last reader may give back what another reader took.
 */
module ReadersWriters {
  import opened Counting
  import opened Options

  datatype ReaderPc =
    | Request      // about to lock count
    | Enter        // holds count: increments the number of readers
    | TakeLibrary  // holds count: first reader, waits for the library
    | Entered      // holds count: about to unlock it
    | Reading      // in the critical region
    | Leave        // about to lock count again
    | Exit         // holds count: decrements the number of readers
    | GiveLibrary  // holds count: last reader, frees the library
    | Exited       // holds count: about to unlock it
    | ReaderDone

  datatype WriterPc =
    | Ask
    | Load
    | Store(value: int)
    | Return
    | WriterDone

  datatype State = State(
    readers: seq<ReaderPc>, writers: seq<WriterPc>,
    countLock: Option<nat>, readCount: int, library: bool, counter: int)

  datatype Thread = Reader(id: nat) | Writer(id: nat)

  ghost predicate Initial(s: State) {
    && (forall i :: 0 <= i < |s.readers| ==> s.readers[i] == Request)
    && (forall i :: 0 <= i < |s.writers| ==> s.writers[i] == Ask)
    && s.countLock == None && s.readCount == 0 && !s.library && s.counter == 0
  }

  predicate ReaderCanStep(s: State, pc: ReaderPc) {
    match pc
    case Request => s.countLock.None?
    case Leave => s.countLock.None?
    case TakeLibrary => !s.library
    case ReaderDone => false
    case _ => true
  }

  predicate WriterCanStep(s: State, pc: WriterPc) {
    match pc
    case Ask => !s.library
    case WriterDone => false
    case _ => true
  }

  predicate CanStep(s: State, t: Thread) {
    match t
    case Reader(i) => i < |s.readers| && ReaderCanStep(s, s.readers[i])
    case Writer(i) => i < |s.writers| && WriterCanStep(s, s.writers[i])
  }

  function Next(s: State, t: Thread): State
    requires CanStep(s, t)
  {
    match t
    case Reader(i) =>
      (match s.readers[i]
       case Request => s.(readers := s.readers[i := Enter], countLock := Some(i))
       case Enter =>
         s.(readers := s.readers[i := if s.readCount + 1 == 1 then TakeLibrary else Entered],
             readCount := s.readCount + 1)
       case TakeLibrary => s.(readers := s.readers[i := Entered], library := true)
       case Entered => s.(readers := s.readers[i := Reading], countLock := None)
       case Reading => s.(readers := s.readers[i := Leave])
       case Leave => s.(readers := s.readers[i := Exit], countLock := Some(i))
       case Exit =>
         s.(readers := s.readers[i := if s.readCount - 1 == 0 then GiveLibrary else Exited],
             readCount := s.readCount - 1)
       case GiveLibrary => s.(readers := s.readers[i := Exited], library := false)
       case Exited => s.(readers := s.readers[i := ReaderDone], countLock := None))
    case Writer(i) =>
      match s.writers[i]
      case Ask => s.(writers := s.writers[i := Load], library := true)
      case Load => s.(writers := s.writers[i := Store(s.counter)])
      case Store(value) => s.(writers := s.writers[i := Return], counter := value + 1)
      case Return => s.(writers := s.writers[i := WriterDone], library := false)
  }

  predicate Feasible(s: State, schedule: seq<Thread>)
    decreases |schedule|
  {
    schedule == [] || (CanStep(s, schedule[0]) && Feasible(Next(s, schedule[0]), schedule[1..]))
  }

  function Run(s: State, schedule: seq<Thread>): State
    requires Feasible(s, schedule)
    decreases |schedule|
  {
    if schedule == [] then s else Run(Next(s, schedule[0]), schedule[1..])
  }

  // ---------------------------------------------------------------- the invariant

  predicate HoldsCount(pc: ReaderPc) {
    pc.Enter? || pc.TakeLibrary? || pc.Entered? || pc.Exit? || pc.GiveLibrary? || pc.Exited?
  }

  predicate Registered(pc: ReaderPc) {
    pc.TakeLibrary? || pc.Entered? || pc.Reading? || pc.Leave? || pc.Exit?
  }

  predicate Inside(pc: ReaderPc) {
    pc.Reading? || pc.Leave?
  }

  predicate Writing(pc: WriterPc) {
    pc.Load? || pc.Store? || pc.Return?
  }

  predicate Incremented(pc: WriterPc) {
    pc.Return? || pc.WriterDone?
  }

  ghost predicate SomeReader(s: State, pc: ReaderPc) {
    s.countLock.Some? && s.countLock.value < |s.readers| && s.readers[s.countLock.value] == pc
  }

  /**
   The group of readers owns the library: not yet while the first one waits for it, still while the last one returns
   it.
   */
  ghost predicate GroupOwns(s: State) {
    (s.readCount > 0 && !SomeReader(s, TakeLibrary)) || SomeReader(s, GiveLibrary)
  }

  ghost predicate Inv(s: State) {
    && (forall i :: 0 <= i < |s.readers| ==> (HoldsCount(s.readers[i]) <==> s.countLock == Some(i)))
    && (s.countLock.Some? ==> s.countLock.value < |s.readers|)
    && s.readCount == Count(s.readers, Registered)
    && (SomeReader(s, TakeLibrary) ==> s.readCount == 1)
    && (SomeReader(s, GiveLibrary) ==> s.readCount == 0)
    && Count(s.writers, Writing) + One(GroupOwns(s)) == One(s.library)
    && s.counter == Count(s.writers, Incremented)
    && (forall j :: 0 <= j < |s.writers| && s.writers[j].Store? ==> s.writers[j].value == s.counter)
  }

  lemma ReaderStep(s: State, i: nat)
    requires Inv(s) && CanStep(s, Reader(i))
    ensures Inv(Next(s, Reader(i)))
  {
    var s' := Next(s, Reader(i));
    ReaderLocks(s, s', i);
    ReaderCounts(s, s', i);
  }

  lemma ReaderLocks(s: State, s': State, i: nat)
    requires Inv(s) && CanStep(s, Reader(i)) && s' == Next(s, Reader(i))
    ensures s'.countLock.Some? ==> s'.countLock.value < |s'.readers|
    ensures forall j :: 0 <= j < |s'.readers| ==> (HoldsCount(s'.readers[j]) <==> s'.countLock == Some(j))
  {
    assert HoldsCount(s.readers[i]) <==> s.countLock == Some(i);
  }

  lemma ReaderCounts(s: State, s': State, i: nat)
    requires Inv(s) && CanStep(s, Reader(i)) && s' == Next(s, Reader(i))
    ensures s'.readCount == Count(s'.readers, Registered)
    ensures (SomeReader(s', TakeLibrary) ==> s'.readCount == 1) && (SomeReader(s', GiveLibrary) ==> s'.readCount == 0)
    ensures One(s'.library) + One(GroupOwns(s)) == One(s.library) + One(GroupOwns(s'))
  {
    CountUpdate(s.readers, i, s'.readers[i], Registered);
    CountNone(s.readers, Registered);
    assert HoldsCount(s.readers[i]) <==> s.countLock == Some(i);
  }

  lemma WriterStep(s: State, i: nat)
    requires Inv(s) && CanStep(s, Writer(i))
    ensures Inv(Next(s, Writer(i)))
  {
    var s' := Next(s, Writer(i));
    CountUpdate(s.writers, i, s'.writers[i], Writing);
    CountUpdate(s.writers, i, s'.writers[i], Incremented);
    WriterStores(s, s', i);
  }

  lemma WriterStores(s: State, s': State, i: nat)
    requires Inv(s) && CanStep(s, Writer(i)) && s' == Next(s, Writer(i))
    ensures forall j :: 0 <= j < |s'.writers| && s'.writers[j].Store? ==> s'.writers[j].value == s'.counter
  {
    forall j | 0 <= j < |s.writers| && s'.writers[j].Store? ensures s'.writers[j].value == s'.counter {
      if j != i && Writing(s.writers[i]) {
        TwoCounted(s.writers, i, j, Writing);
      }
    }
  }

  lemma {:induction false} TwoCounted<T>(s: seq<T>, i: nat, j: nat, p: T -> bool)
    requires i < |s| && j < |s| && i != j && p(s[i]) && p(s[j])
    ensures Count(s, p) >= 2
  {
    if i == 0 || j == 0 {
      var k := i + j;
      assert s[1..][k - 1] == s[k];
      CountNone(s[1..], p);
    } else {
      TwoCounted(s[1..], i - 1, j - 1, p);
    }
  }

  lemma StepInv(s: State, t: Thread)
    requires Inv(s) && CanStep(s, t)
    ensures Inv(Next(s, t))
  {
    match t
    case Reader(i) => ReaderStep(s, i);
    case Writer(i) => WriterStep(s, i);
  }

  lemma {:induction false} RunInv(s: State, schedule: seq<Thread>)
    requires Inv(s) && Feasible(s, schedule)
    ensures Inv(Run(s, schedule))
    decreases |schedule|
  {
    if schedule != [] {
      StepInv(s, schedule[0]);
      RunInv(Next(s, schedule[0]), schedule[1..]);
    }
  }

  lemma InitialInv(s: State)
    requires Initial(s)
    ensures Inv(s)
  {
    CountNone(s.readers, Registered);
    CountNone(s.writers, Writing);
    CountNone(s.writers, Incremented);
  }

  // ---------------------------------------------------------------- what readers and writers rely on

  /** Never two writers, never a reader with a writer; the semaphore is held exactly on behalf of one side. */
  lemma Exclusion(s: State, schedule: seq<Thread>)
    requires Initial(s) && Feasible(s, schedule)
    ensures var e := Run(s, schedule);
      && (forall i, j ::
            0 <= i < |e.writers| && 0 <= j < |e.writers| && Writing(e.writers[i]) && Writing(e.writers[j]) ==> i == j)
      && (forall i, j :: 0 <= i < |e.readers| && 0 <= j < |e.writers| ==>
            !(Inside(e.readers[i]) && Writing(e.writers[j])))
      && (e.library <==> GroupOwns(e) != (exists j :: 0 <= j < |e.writers| && Writing(e.writers[j])))
      && !(GroupOwns(e) && exists j :: 0 <= j < |e.writers| && Writing(e.writers[j]))
      && e.counter == Count(e.writers, Incremented)
  {
    InitialInv(s);
    RunInv(s, schedule);
    var e := Run(s, schedule);
    CountNone(e.writers, Writing);
    forall i, j | 0 <= i < |e.writers| && 0 <= j < |e.writers| && Writing(e.writers[i])
        && Writing(e.writers[j]) ensures i == j {
      if i != j { TwoCounted(e.writers, i, j, Writing); }
    }
    forall i | 0 <= i < |e.readers| && Inside(e.readers[i]) ensures GroupOwns(e) {
      InsideMeansOwned(e, i);
    }
  }

  lemma InsideMeansOwned(s: State, i: nat)
    requires Inv(s) && i < |s.readers| && Inside(s.readers[i])
    ensures GroupOwns(s) && s.readCount > 0
  {
    CountNone(s.readers, Registered);
    if SomeReader(s, TakeLibrary) {
      TwoCounted(s.readers, i, s.countLock.value, Registered);
    }
  }

  /** What a reader reads cannot change under it. */
  lemma StableWhileReading(s: State, i: nat, t: Thread)
    requires Inv(s) && i < |s.readers| && Inside(s.readers[i]) && CanStep(s, t)
    ensures Next(s, t).counter == s.counter
  {
    InsideMeansOwned(s, i);
    CountNone(s.writers, Writing);
  }

  ghost predicate SomeoneWrites(s: State) {
    exists j :: 0 <= j < |s.writers| && Writing(s.writers[j])
  }

  lemma LibraryTaken(s: State)
    requires Inv(s)
    ensures s.library <==> SomeoneWrites(s) || GroupOwns(s)
  {
    CountNone(s.writers, Writing);
  }

  /** A writer that asks has to wait exactly while another one writes or the readers' group owns the library. */
  lemma WriterWaits(s: State, j: nat)
    requires Inv(s) && j < |s.writers| && s.writers[j] == Ask
    ensures !CanStep(s, Writer(j)) <==> SomeoneWrites(s) || GroupOwns(s)
  {
    LibraryTaken(s);
  }

  /**
   A reader has to wait exactly while another one holds `count.lock`, or, if it is the first, while someone writes.
   */
  lemma ReaderWaits(s: State, i: nat)
    requires Inv(s) && i < |s.readers| && !s.readers[i].ReaderDone?
    ensures !CanStep(s, Reader(i)) <==>
      || ((s.readers[i].Request? || s.readers[i].Leave?)
          && exists j :: 0 <= j < |s.readers| && j != i && HoldsCount(s.readers[j]))
      || (s.readers[i].TakeLibrary? && SomeoneWrites(s))
  {
    assert HoldsCount(s.readers[i]) <==> s.countLock == Some(i);
    if s.countLock.Some? {
      assert HoldsCount(s.readers[s.countLock.value]);
    }
    if s.readers[i].TakeLibrary? {
      LibraryTaken(s);
      CountNone(s.readers, Registered);
    }
  }

  /**
   Readers share the library: while one is inside and nobody holds `count.lock`, another one that asks gets inside by
   three steps of its own, and the first is still there.
   */
  lemma ReadersTogether(s: State, i: nat, j: nat) returns (schedule: seq<Thread>)
    requires Inv(s) && i < |s.readers| && j < |s.readers| && Inside(s.readers[j])
    requires s.readers[i] == Request && s.countLock == None
    ensures forall t :: t in schedule ==> t == Reader(i)
    ensures Feasible(s, schedule)
    ensures Run(s, schedule).readers == s.readers[i := Reading] && Inside(Run(s, schedule).readers[j])
    ensures Run(s, schedule).writers == s.writers
  {
    InsideMeansOwned(s, j);
    var r := Reader(i);
    var s1 := Next(s, r);
    var s2 := Next(s1, r);
    var s3 := Next(s2, r);
    schedule := [r, r, r];
    assert schedule[1..] == [r, r] && [r, r][1..] == [r] && [r][1..] == [];
    assert s3.readers == s.readers[i := Reading];
    assert Feasible(s2, [r]) && Run(s2, [r]) == s3;
    assert Feasible(s1, [r, r]) && Run(s1, [r, r]) == s3;
  }

  ghost predicate Finished(s: State) {
    && (forall i :: 0 <= i < |s.readers| ==> s.readers[i].ReaderDone?)
    && (forall i :: 0 <= i < |s.writers| ==> s.writers[i].WriterDone?)
  }

  /** No deadlock: also not while the first reader waits for the library holding `count.lock`. */
  lemma SomeoneCanStep(s: State) returns (t: Thread)
    requires Inv(s) && !Finished(s)
    ensures CanStep(s, t)
  {
    CountNone(s.writers, Writing);
    CountNone(s.readers, Registered);
    if j :| 0 <= j < |s.writers| && Writing(s.writers[j]) {
      t := Writer(j);
    } else if s.countLock.Some? {
      t := Reader(s.countLock.value);
      assert HoldsCount(s.readers[t.id]) <==> s.countLock == Some(t.id);
    } else if i :| 0 <= i < |s.readers| && !s.readers[i].ReaderDone? {
      t := Reader(i);
      assert HoldsCount(s.readers[i]) <==> s.countLock == Some(i);
    } else {
      var j :| 0 <= j < |s.writers| && !s.writers[j].WriterDone?;
      t := Writer(j);
    }
  }

  function ReaderSteps(pc: ReaderPc): nat {
    match pc
    case Request => 9
    case Enter => 8
    case TakeLibrary => 7
    case Entered => 6
    case Reading => 5
    case Leave => 4
    case Exit => 3
    case GiveLibrary => 2
    case Exited => 1
    case ReaderDone => 0
  }

  function WriterSteps(pc: WriterPc): nat {
    match pc
    case Ask => 4
    case Load => 3
    case Store(_) => 2
    case Return => 1
    case WriterDone => 0
  }

  ghost function Remaining(s: State): nat {
    Sum(s.readers, ReaderSteps) + Sum(s.writers, WriterSteps)
  }

  /** Every step uses up at least one unit of what its thread still has to do. */
  lemma StepRemaining(s: State, t: Thread)
    requires CanStep(s, t)
    ensures Remaining(Next(s, t)) < Remaining(s)
    ensures |Next(s, t).readers| == |s.readers| && |Next(s, t).writers| == |s.writers|
  {
    hide Next, CanStep, ReaderSteps, WriterSteps, Sum;
    match t
    case Reader(i) =>
      var pc' := ReaderMoves(s, i);
      SumUpdate(s.readers, i, pc', ReaderSteps);
    case Writer(i) =>
      var pc' := WriterMoves(s, i);
      SumUpdate(s.writers, i, pc', WriterSteps);
  }

  lemma ReaderMoves(s: State, i: nat) returns (pc': ReaderPc)
    requires CanStep(s, Reader(i))
    ensures i < |s.readers| && ReaderSteps(pc') < ReaderSteps(s.readers[i])
    ensures Next(s, Reader(i)).readers == s.readers[i := pc'] && Next(s, Reader(i)).writers == s.writers
  {
    pc' := Next(s, Reader(i)).readers[i];
  }

  lemma WriterMoves(s: State, i: nat) returns (pc': WriterPc)
    requires CanStep(s, Writer(i))
    ensures i < |s.writers| && WriterSteps(pc') < WriterSteps(s.writers[i])
    ensures Next(s, Writer(i)).writers == s.writers[i := pc'] && Next(s, Writer(i)).readers == s.readers
  {
    pc' := Next(s, Writer(i)).writers[i];
  }

  lemma {:induction false} RunLength(s: State, schedule: seq<Thread>)
    requires Feasible(s, schedule)
    ensures |schedule| + Remaining(Run(s, schedule)) <= Remaining(s)
    ensures |Run(s, schedule).readers| == |s.readers| && |Run(s, schedule).writers| == |s.writers|
    decreases |schedule|
  {
    hide Next, Remaining, CanStep;
    if schedule != [] {
      StepRemaining(s, schedule[0]);
      RunLength(Next(s, schedule[0]), schedule[1..]);
    }
  }

  /** Every run is finite, and one that cannot be extended has let everyone finish and lost no update. */
  lemma EveryMaximalRunFinishes(s: State, schedule: seq<Thread>)
    requires Initial(s) && Feasible(s, schedule)
    ensures |schedule| <= 9 * |s.readers| + 4 * |s.writers|
    ensures (forall t :: !CanStep(Run(s, schedule), t)) ==>
      var e := Run(s, schedule);
      Finished(e) && e.counter == |s.writers| && e.readCount == 0 && !e.library && e.countLock == None
  {
    InitialInv(s);
    RunInv(s, schedule);
    RunLength(s, schedule);
    SumBound(s.readers, ReaderSteps, 9);
    SumBound(s.writers, WriterSteps, 4);
    var e := Run(s, schedule);
    if forall t :: !CanStep(e, t) {
      if !Finished(e) {
        var t := SomeoneCanStep(e);
      }
      CountNone(e.readers, Registered);
      CountNone(e.writers, Writing);
      CountAll(e.writers, Incremented);
    }
  }
}
