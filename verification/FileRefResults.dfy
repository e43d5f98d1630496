/** What reference counting of open files promises, for every number of processes and every interleaving. */
module FileRefResults {
  import opened Counting
  import opened Options
  import opened FileRefs
  import opened FileRefSteps

  function SlotsOf(f: nat): Proc -> nat {
    (pr: Proc) => Slots(pr.fds, f)
  }

  ghost predicate AllIdle(s: State) {
    forall p :: 0 <= p < |s.procs| ==> s.procs[p].pc == Idle
  }

  /**
   A file table between system calls: each counter is the number of descriptors that point to the file, a file has an
   object exactly if it is in use, and an object that was ever acquired is in exactly one file or was released once.
   */
  ghost predicate Consistent(s: State) {
    && AllIdle(s)
    && (forall p, d :: 0 <= p < |s.procs| && 0 <= d < |s.procs[p].fds| && s.procs[p].fds[d].Some? ==>
          s.procs[p].fds[d].value < |s.files|)
    && (forall f :: 0 <= f < |s.files| ==> s.files[f].ref == Sum(s.procs, SlotsOf(f)))
    && (forall f :: 0 <= f < |s.files| ==> (s.files[f].ref > 0 <==> s.files[f].obj.Some?))
    && (forall o :: Count(s.files, Keeps(o)) + s.released[o] == One(o in s.made))
  }

  lemma IdleSums(s: State, f: nat, o: Object)
    requires AllIdle(s)
    ensures Sum(s.procs, RefsOf(f)) == Sum(s.procs, SlotsOf(f))
    ensures Sum(s.procs, BlankOf(f)) == 0 && Sum(s.procs, CarriedOf(o)) == 0
  {
    SumCongruent(s.procs, RefsOf(f), SlotsOf(f));
    SumBound(s.procs, BlankOf(f), 0);
    SumBound(s.procs, CarriedOf(o), 0);
  }

  lemma ConsistentInv(s: State)
    requires Consistent(s) && !s.panicked
    ensures Inv(s)
  {
    assert ProcInv(s);
    forall f | 0 <= f < |s.files| ensures s.files[f].ref == Sum(s.procs, RefsOf(f)) && FilledAt(s, f) {
      IdleSums(s, f, Inode(0));
    }
    forall o ensures ObjectAt(s, o) {
      IdleSums(s, 0, o);
    }
  }

  lemma IdleConsistent(s: State)
    requires Inv(s) && AllIdle(s)
    ensures Consistent(s)
  {
    forall p, d | 0 <= p < |s.procs| && 0 <= d < |s.procs[p].fds| && s.procs[p].fds[d].Some?
      ensures s.procs[p].fds[d].value < |s.files| {
      MoverOk(s, p);
    }
    forall f | 0 <= f < |s.files|
      ensures s.files[f].ref == Sum(s.procs, SlotsOf(f)) && (s.files[f].ref > 0 <==> s.files[f].obj.Some?) {
      IdleSums(s, f, Inode(0));
      FileFacts(s, f);
    }
    forall o ensures Count(s.files, Keeps(o)) + s.released[o] == One(o in s.made) {
      IdleSums(s, 0, o);
      ObjectFacts(s, o);
    }
  }

  /**
   From any consistent state, whatever the processes ask for and however their calls interleave: neither panic is
   reached, and whenever no call is in progress the state is consistent again.
   */
  lemma StaysConsistent(s: State, schedule: seq<(nat, Call)>)
    requires Consistent(s) && !s.panicked && Feasible(s, schedule)
    ensures !Run(s, schedule).panicked
    ensures AllIdle(Run(s, schedule)) ==> Consistent(Run(s, schedule))
  {
    hide Consistent, Feasible, Run;
    ConsistentInv(s);
    RunInv(s, schedule);
    var e := Run(s, schedule);
    if AllIdle(e) {
      IdleConsistent(e);
    }
    NotPanicked(e);
  }

  lemma NotPanicked(s: State)
    requires Inv(s)
    ensures !s.panicked
  {}

  /** The kernel starts with no file in use and no descriptor open. */
  ghost predicate Boot(s: State) {
    && (forall f :: 0 <= f < |s.files| ==> s.files[f] == File(0, None))
    && (forall p :: 0 <= p < |s.procs| ==> s.procs[p].pc == Idle)
    && (forall p, d :: 0 <= p < |s.procs| && 0 <= d < |s.procs[p].fds| ==> s.procs[p].fds[d] == None)
    && s.made == {} && s.released == multiset{} && !s.panicked
  }

  lemma BootConsistent(s: State)
    requires Boot(s)
    ensures Consistent(s)
  {
    forall f ensures Sum(s.procs, SlotsOf(f)) == 0 {
      forall p | 0 <= p < |s.procs| ensures SlotsOf(f)(s.procs[p]) == 0 {
        CountNone(s.procs[p].fds, Is(f));
      }
      SumBound(s.procs, SlotsOf(f), 0);
    }
    forall o ensures Count(s.files, Keeps(o)) == 0 {
      CountNone(s.files, Keeps(o));
    }
  }

  lemma ObjectOnce(s: State, o: Object, f: nat)
    requires ObjectAt(s, o) && f < |s.files|
    ensures s.released[o] <= 1 && (o !in s.made ==> s.released[o] == 0)
    ensures s.files[f].obj == Some(o) ==> o in s.made && s.released[o] == 0
    ensures s.files[f].obj == Some(o) ==> forall g :: 0 <= g < |s.files| && g != f ==> s.files[g].obj != Some(o)
  {
    if s.files[f].obj == Some(o) {
      var blank := s.files[f := File(0, None)];
      CountUpdate(s.files, f, File(0, None), Keeps(o));
      CountNone(blank, Keeps(o));
      forall g | 0 <= g < |s.files| && g != f ensures s.files[g].obj != Some(o) {
        assert !Keeps(o)(blank[g]);
      }
    }
  }

  /**
   No object is ever released twice, a descriptor never leads to an object that was released, and no two files share
   one; in a state between system calls exactly the objects of files nobody refers to have been released.
   */
  lemma ReleasedOnce(s: State, schedule: seq<(nat, Call)>, o: Object, f: nat)
    requires Consistent(s) && !s.panicked && Feasible(s, schedule) && f < |Run(s, schedule).files|
    ensures var e := Run(s, schedule);
      && e.released[o] <= 1
      && (e.files[f].obj == Some(o) ==>
            e.released[o] == 0 && forall g :: 0 <= g < |e.files| && g != f ==> e.files[g].obj != Some(o))
      && (AllIdle(e) && o in e.made ==>
            (e.released[o] == 1 <==>
               forall g :: 0 <= g < |e.files| && e.files[g].ref > 0 ==> e.files[g].obj != Some(o)))
  {
    hide Inv, Consistent, Feasible, Run, ObjectAt;
    ConsistentInv(s);
    RunInv(s, schedule);
    var e := Run(s, schedule);
    ObjectFacts(e, o);
    ObjectOnce(e, o, f);
    if AllIdle(e) && o in e.made {
      IdleConsistent(e);
      IdleObjects(e, o);
    }
  }

  lemma IdleObjects(s: State, o: Object)
    requires Consistent(s) && o in s.made
    ensures s.released[o] == 1 <==> forall g :: 0 <= g < |s.files| && s.files[g].ref > 0 ==> s.files[g].obj != Some(o)
  {
    CountNone(s.files, Keeps(o));
    assert Count(s.files, Keeps(o)) + s.released[o] == 1;
    forall g | 0 <= g < |s.files| && s.files[g].obj == Some(o) ensures s.files[g].ref > 0 {
      assert s.files[g].obj.Some?;
    }
  }

  // ---------------------------------------------------------------- every call ends

  /** Steps that a process has still to take before it is idle again. */
  function Rank(pc: Pc): nat {
    match pc
    case Idle => 0
    case DupRef(_) => 1
    case OpenSet(_, _) => 1
    case OpenFd(_, _) => 4
    case OpenFile(_) => 5
    case PipeFd2(_, _, _) => 5
    case PipeFd(_, _) => 6
    case Close(fs, put) => 2 * |fs| + One(put.Some?)
    case Drop(_, fs, put) => 2 * |fs| + One(put.Some?) + 1
  }

  /** A call is over after at most seven steps ... */
  lemma CallsBegin(s: State, p: nat, call: Call)
    requires CanStep(s, p, call) && s.procs[p].pc == Idle
    ensures |Next(s, p, call).procs| == |s.procs| && Rank(Next(s, p, call).procs[p].pc) <= 6
  {}

  /** The panics out of the way, the mover goes where its program counter says. */
  lemma CallAdvances(s: State, p: nat, call: Call)
    requires CanStep(s, p, call) && s.procs[p].pc != Idle
    requires s.procs[p].pc.DupRef? ==> s.files[s.procs[p].pc.f].ref >= 1
    requires s.procs[p].pc.Close? && s.procs[p].pc.fs != [] ==> s.files[s.procs[p].pc.fs[0]].ref >= 1
    ensures |Next(s, p, call).procs| == |s.procs| && Rank(Next(s, p, call).procs[p].pc) < Rank(s.procs[p].pc)
  {
    hide FirstFree, FirstEmpty, Begin;
  }

  /** ... because once in progress it can always go on, whatever the others do, and gets nearer to its end ... */
  lemma CallsEnd(s: State, p: nat, call: Call)
    requires Inv(s) && p < |s.procs| && s.procs[p].pc != Idle
    ensures CanStep(s, p, call)
    ensures |Next(s, p, call).procs| == |s.procs| && Rank(Next(s, p, call).procs[p].pc) < Rank(s.procs[p].pc)
  {
    NotPanicked(s);
    hide Inv, Next, Rank, Slots, Count;
    MoverOk(s, p);
    match s.procs[p].pc {
      case DupRef(f) => DupEnds(s, p, f);
      case Close(fs, put) => if fs != [] { ClosingFacts(s, p, fs[0]); }
      case _ =>
    }
    CallAdvances(s, p, call);
  }

  /** ... and the steps of other processes do not lengthen it. */
  lemma OthersWait(s: State, p: nat, call: Call, q: nat)
    requires CanStep(s, p, call) && q < |s.procs| && q != p
    ensures |Next(s, p, call).procs| == |s.procs| && Next(s, p, call).procs[q] == s.procs[q]
  {}
}
