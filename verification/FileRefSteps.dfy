/** Every step of every process keeps the file table's invariant. */
module FileRefSteps {
  import opened Counting
  import opened Options
  import opened FileRefs

  /** A step that changes file `f` and the mover. */
  lemma FileStep(s: State, s': State, p: nat, pr': Proc, f: nat, file: File)
    requires Inv(s) && p < |s.procs| && f < |s.files| && ProcOk(|s.files|, pr')
    requires s' == With(s, p, s.files[f := file], pr')
    requires forall g :: 0 <= g < |s.files| && g != f ==> Refs(s.procs[p], g) == Refs(pr', g)
    requires forall g :: g != f ==> Blank(s.procs[p].pc, g) == Blank(pr'.pc, g)
    requires file.ref + Refs(s.procs[p], f) == s.files[f].ref + Refs(pr', f)
    requires FilledAt(s', f)
    requires forall o ::
      One(file.obj == Some(o)) + Carried(pr'.pc, o)
      == One(s.files[f].obj == Some(o)) + Carried(s.procs[p].pc, o)
    ensures Inv(s')
  {
    hide Refs, Blank, Carried, ProcOk;
    ProcsKept(s, s', p, pr');
    RefsKept(s, s', p, pr');
    forall g | 0 <= g < |s'.files| ensures FilledAt(s', g) {
      if g != f {
        assert FilledAt(s, g);
        FilledKept(s, s', p, pr', g);
      }
    }
    forall o ensures ObjectAt(s', o) {
      CountUpdate(s.files, f, file, Keeps(o));
      ObjectKept(s, s', p, pr', o);
    }
  }

  lemma MoverOk(s: State, p: nat)
    requires Inv(s) && p < |s.procs|
    ensures ProcOk(|s.files|, s.procs[p])
  {}

  lemma FileFacts(s: State, f: nat)
    requires Inv(s) && f < |s.files|
    ensures s.files[f].ref == Sum(s.procs, RefsOf(f)) && FilledAt(s, f)
  {}

  /** Who holds a reference to a file sees it in use. */
  lemma Referenced(s: State, p: nat, f: nat)
    requires Inv(s) && p < |s.procs| && f < |s.files|
    ensures s.files[f].ref >= Refs(s.procs[p], f)
  {
    hide ProcInv, FilledInv, ObjectInv, Refs;
    SumPart(s.procs, p, RefsOf(f));
  }

  lemma BlankHasRef(files: nat, pr: Proc, f: nat)
    requires ProcOk(files, pr)
    ensures Refs(pr, f) >= Blank(pr.pc, f)
  {}

  /** A file that is still being opened is known to the process that opens it only. */
  lemma PrivateWhileBlank(s: State, p: nat, f: nat)
    requires Inv(s) && p < |s.procs| && f < |s.files| && Refs(s.procs[p], f) >= 1 && Sum(s.procs, BlankOf(f)) > 0
    ensures Blank(s.procs[p].pc, f) > 0
  {
    hide Refs, Blank, ObjectInv, ProcInv;
    FileFacts(s, f);
    var q := SumPositive(s.procs, BlankOf(f));
    MoverOk(s, q);
    BlankHasRef(|s.files|, s.procs[q], f);
    if q < p {
      SumTwoParts(s.procs, q, p, RefsOf(f));
    } else if p < q {
      SumTwoParts(s.procs, p, q, RefsOf(f));
    }
  }

  // ---------------------------------------------------------------- dup

  lemma DupBegins(s: State, p: nat, fd: int)
    requires Inv(s) && p < |s.procs| && s.procs[p].pc == Idle
    ensures Inv(Begin(s, p, s.procs[p], Dup(fd)))
  {
    hide Inv;
    MoverOk(s, p);
    var pr := s.procs[p];
    if ArgFd(pr.fds, fd) != None && FirstEmpty(pr.fds) != None {
      var f, empty := ArgFd(pr.fds, fd).value, FirstEmpty(pr.fds).value;
      var pr' := Proc(pr.fds[empty := Some(f)], DupRef(f));
      SlotsAt(pr.fds, fd, f);
      forall g ensures Slots(pr'.fds, g) == Slots(pr.fds, g) + One(f == g) {
        SlotsSet(pr.fds, empty, Some(f), g);
      }
      HandStep(s, With(s, p, s.files, pr'), p, pr');
    }
  }

  lemma DupEnds(s: State, p: nat, f: nat)
    requires Inv(s) && p < |s.procs| && s.procs[p].pc == DupRef(f) && f < |s.files|
    ensures s.files[f].ref >= 1
    ensures Inv(With(s, p, s.files[f := s.files[f].(ref := s.files[f].ref + 1)], s.procs[p].(pc := Idle)))
  {
    hide Inv;
    MoverOk(s, p);
    Referenced(s, p, f);
    FileFacts(s, f);
    var file := s.files[f].(ref := s.files[f].ref + 1);
    var pr' := s.procs[p].(pc := Idle);
    var s' := With(s, p, s.files[f := file], pr');
    if Sum(s.procs, BlankOf(f)) > 0 {
      PrivateWhileBlank(s, p, f);
    }
    FilledKept(s, s', p, pr', f);
    FileStep(s, s', p, pr', f, file);
  }

  // ---------------------------------------------------------------- open

  lemma OpenBegins(s: State, p: nat, n: nat, path: Path)
    requires Inv(s) && p < |s.procs| && s.procs[p].pc == Idle && (path != NoInode ==> Inode(n) !in s.made)
    ensures Inv(Begin(s, p, s.procs[p], Open(n, path)))
  {
    hide Inv;
    MoverOk(s, p);
    var s' := Begin(s, p, s.procs[p], Open(n, path));
    if path != NoInode {
      HandStep(s, s', p, s'.procs[p]);
    }
  }

  lemma OpenTakesFile(s: State, p: nat, o: Object)
    requires Inv(s) && p < |s.procs| && s.procs[p].pc == OpenFile(o)
    ensures match FirstFree(s.files)
      case None => Inv(With(s, p, s.files, s.procs[p].(pc := Close([], Some(o)))))
      case Some(f) => Inv(With(s, p, s.files[f := s.files[f].(ref := 1)], s.procs[p].(pc := OpenFd(o, f))))
  {
    hide Inv;
    MoverOk(s, p);
    match FirstFree(s.files)
    case None =>
      var pr' := s.procs[p].(pc := Close([], Some(o)));
      HandStep(s, With(s, p, s.files, pr'), p, pr');
    case Some(f) =>
      var pr' := s.procs[p].(pc := OpenFd(o, f));
      var file := s.files[f].(ref := 1);
      var s' := With(s, p, s.files[f := file], pr');
      FileFacts(s, f);
      FilledKept(s, s', p, pr', f);
      FileStep(s, s', p, pr', f, file);
  }

  lemma CountSingle(f: nat)
    ensures forall g :: Count([f], Same(g)) == One(f == g)
  {
    forall g ensures Count([f], Same(g)) == One(f == g) {
      assert [f][1..] == [];
    }
  }

  lemma OpenTakesFd(s: State, p: nat, o: Object, f: nat)
    requires Inv(s) && p < |s.procs| && s.procs[p].pc == OpenFd(o, f)
    ensures match FirstEmpty(s.procs[p].fds)
      case None => Inv(With(s, p, s.files, s.procs[p].(pc := Close([f], Some(o)))))
      case Some(fd) => Inv(With(s, p, s.files, Proc(s.procs[p].fds[fd := Some(f)], OpenSet(o, f))))
  {
    hide Inv;
    MoverOk(s, p);
    var pr := s.procs[p];
    match FirstEmpty(pr.fds)
    case None =>
      CountSingle(f);
      var pr' := pr.(pc := Close([f], Some(o)));
      HandStep(s, With(s, p, s.files, pr'), p, pr');
    case Some(fd) =>
      var pr' := Proc(pr.fds[fd := Some(f)], OpenSet(o, f));
      SlotsAt(pr'.fds, fd, f);
      forall g ensures Slots(pr'.fds, g) == Slots(pr.fds, g) + One(f == g) {
        SlotsSet(pr.fds, fd, Some(f), g);
      }
      HandStep(s, With(s, p, s.files, pr'), p, pr');
  }

  lemma OpenFills(s: State, p: nat, o: Object, f: nat)
    requires Inv(s) && p < |s.procs| && s.procs[p].pc == OpenSet(o, f) && f < |s.files|
    ensures Inv(With(s, p, s.files[f := s.files[f].(obj := Some(o))], s.procs[p].(pc := Idle)))
  {
    hide Inv;
    MoverOk(s, p);
    var pr' := s.procs[p].(pc := Idle);
    var file := s.files[f].(obj := Some(o));
    var s' := With(s, p, s.files[f := file], pr');
    FileFacts(s, f);
    SumPart(s.procs, p, BlankOf(f));
    FilledKept(s, s', p, pr', f);
    FileStep(s, s', p, pr', f, file);
  }

  // ---------------------------------------------------------------- pipe

  /** What filling two free files does to the counts of objects and of references to one file. */
  lemma PipeCounts(files: seq<File>, n: nat, rf: nat, wf: nat, files': seq<File>, o: Object)
    requires PipeAlloc(files, n) == Some((rf, wf, files'))
    requires files[rf].obj == None && files[wf].obj == None
    ensures Count(files', Keeps(o)) == Count(files, Keeps(o)) + One(o == PipeEnd(n, false)) + One(o == PipeEnd(n, true))
  {
    var files1 := files[rf := File(1, Some(PipeEnd(n, false)))];
    CountUpdate(files, rf, files1[rf], Keeps(o));
    CountUpdate(files1, wf, files'[wf], Keeps(o));
  }

  lemma PipeBegins(s: State, p: nat, n: nat)
    requires Inv(s) && p < |s.procs| && s.procs[p].pc == Idle
    requires PipeEnd(n, false) !in s.made && PipeEnd(n, true) !in s.made
    ensures Inv(Begin(s, p, s.procs[p], Pipe(n)))
  {
    MoverOk(s, p);
    var s' := Begin(s, p, s.procs[p], Pipe(n));
    match PipeAlloc(s.files, n)
    case None =>
    case Some((rf, wf, files)) =>
      var pr' := s.procs[p].(pc := PipeFd(rf, wf));
      PipeTable(s, s', p, pr', n, rf, wf);
  }

  lemma PipeTable(s: State, s': State, p: nat, pr': Proc, n: nat, rf: nat, wf: nat)
    requires Inv(s) && p < |s.procs| && s.procs[p].pc == Idle && pr' == s.procs[p].(pc := PipeFd(rf, wf))
    requires PipeEnd(n, false) !in s.made && PipeEnd(n, true) !in s.made
    requires PipeAlloc(s.files, n) == Some((rf, wf, s'.files))
    requires s' == With(s, p, s'.files, pr').(made := s.made + {PipeEnd(n, false), PipeEnd(n, true)})
    ensures Inv(s')
  {
    assert !s'.panicked;
    hide Inv;
    MoverOk(s, p);
    FileFacts(s, rf);
    FileFacts(s, wf);
    PipeFiles(s, s', p, pr', rf, wf);
    forall o ensures ObjectAt(s', o) {
      PipeCounts(s.files, n, rf, wf, s'.files, o);
      ObjectFacts(s, o);
      ObjectKept(s, s', p, pr', o);
    }
    AllParts(s');
  }

  lemma ObjectFacts(s: State, o: Object)
    requires Inv(s)
    ensures ObjectAt(s, o)
  {}

  lemma AllParts(s: State)
    requires !s.panicked && ProcInv(s) && RefInv(s) && FilledInv(s) && forall o :: ObjectAt(s, o)
    ensures Inv(s)
  {}

  lemma PipeFiles(s: State, s': State, p: nat, pr': Proc, rf: nat, wf: nat)
    requires Inv(s) && p < |s.procs| && s.procs[p].pc == Idle && pr' == s.procs[p].(pc := PipeFd(rf, wf))
    requires rf < |s.files| && wf < |s.files| && rf != wf && |s'.files| == |s.files| && s'.procs == s.procs[p := pr']
    requires s.files[rf].ref == 0 && s.files[wf].ref == 0 && s'.files[rf].ref == 1 && s'.files[wf].ref == 1
    requires s'.files[rf].obj.Some? && s'.files[wf].obj.Some?
    requires forall f :: 0 <= f < |s.files| && f != rf && f != wf ==> s'.files[f] == s.files[f]
    ensures ProcInv(s') && RefInv(s') && FilledInv(s')
  {
    MoverOk(s, p);
    ProcsKept(s, s', p, pr');
    RefsKept(s, s', p, pr');
    forall f | 0 <= f < |s'.files| ensures FilledAt(s', f) {
      assert FilledAt(s, f);
      FilledKept(s, s', p, pr', f);
    }
  }

  lemma CountPair(f: nat, g: nat)
    ensures forall h :: Count([f, g], Same(h)) == One(f == h) + One(g == h)
  {
    CountSingle(g);
    forall h ensures Count([f, g], Same(h)) == One(f == h) + One(g == h) {
      assert [f, g][1..] == [g];
    }
  }

  lemma PipeTakesFd(s: State, p: nat, rf: nat, wf: nat)
    requires Inv(s) && p < |s.procs| && s.procs[p].pc == PipeFd(rf, wf)
    ensures match FirstEmpty(s.procs[p].fds)
      case None => Inv(With(s, p, s.files, s.procs[p].(pc := Close([rf, wf], None))))
      case Some(fd) => Inv(With(s, p, s.files, Proc(s.procs[p].fds[fd := Some(rf)], PipeFd2(rf, wf, fd))))
  {
    hide Inv;
    MoverOk(s, p);
    var pr := s.procs[p];
    match FirstEmpty(pr.fds)
    case None =>
      CountPair(rf, wf);
      var pr' := pr.(pc := Close([rf, wf], None));
      HandStep(s, With(s, p, s.files, pr'), p, pr');
    case Some(fd) =>
      var pr' := Proc(pr.fds[fd := Some(rf)], PipeFd2(rf, wf, fd));
      forall g ensures Slots(pr'.fds, g) == Slots(pr.fds, g) + One(rf == g) {
        SlotsSet(pr.fds, fd, Some(rf), g);
      }
      HandStep(s, With(s, p, s.files, pr'), p, pr');
  }

  lemma PipeTakesFd2(s: State, p: nat, rf: nat, wf: nat, fd: nat)
    requires Inv(s) && p < |s.procs| && s.procs[p].pc == PipeFd2(rf, wf, fd) && fd < |s.procs[p].fds|
    ensures match FirstEmpty(s.procs[p].fds)
      case None => Inv(With(s, p, s.files, Proc(s.procs[p].fds[fd := None], Close([rf, wf], None))))
      case Some(fd1) => Inv(With(s, p, s.files, Proc(s.procs[p].fds[fd1 := Some(wf)], Idle)))
  {
    hide Inv;
    MoverOk(s, p);
    var pr := s.procs[p];
    match FirstEmpty(pr.fds)
    case None =>
      CountPair(rf, wf);
      var pr' := Proc(pr.fds[fd := None], Close([rf, wf], None));
      forall g ensures Slots(pr'.fds, g) + One(rf == g) == Slots(pr.fds, g) {
        SlotsSet(pr.fds, fd, None, g);
      }
      HandStep(s, With(s, p, s.files, pr'), p, pr');
    case Some(fd1) =>
      var pr' := Proc(pr.fds[fd1 := Some(wf)], Idle);
      forall g ensures Slots(pr'.fds, g) == Slots(pr.fds, g) + One(wf == g) {
        SlotsSet(pr.fds, fd1, Some(wf), g);
      }
      HandStep(s, With(s, p, s.files, pr'), p, pr');
  }

  // ---------------------------------------------------------------- close

  lemma CloseBegins(s: State, p: nat, fd: int)
    requires Inv(s) && p < |s.procs| && s.procs[p].pc == Idle
    ensures Inv(Begin(s, p, s.procs[p], CloseFd(fd)))
  {
    hide Inv;
    MoverOk(s, p);
    var pr := s.procs[p];
    if ArgFd(pr.fds, fd) != None {
      var f := ArgFd(pr.fds, fd).value;
      var pr' := Proc(pr.fds[fd := None], Close([f], None));
      CountSingle(f);
      forall g ensures Slots(pr'.fds, g) + One(f == g) == Slots(pr.fds, g) {
        SlotsSet(pr.fds, fd, None, g);
      }
      HandStep(s, With(s, p, s.files, pr'), p, pr');
    }
  }

  /** A process that is to close `f` holds a reference to it, and is the one that blanks it if anyone is. */
  lemma ClosingFacts(s: State, p: nat, f: nat)
    requires Inv(s) && p < |s.procs| && s.procs[p].pc.Close? && s.procs[p].pc.fs != [] && s.procs[p].pc.fs[0] == f
      && f < |s.files|
    ensures s.files[f].ref >= 1
    ensures Sum(s.procs, BlankOf(f)) > 0 <==> s.procs[p].pc.put.Some?
    ensures FilledAt(s, f)
  {
    hide Inv;
    var pc := s.procs[p].pc;
    assert Count(pc.fs, Same(f)) >= 1;
    assert Refs(s.procs[p], f) >= 1;
    Referenced(s, p, f);
    FileFacts(s, f);
    if pc.put.Some? {
      SumPart(s.procs, p, BlankOf(f));
    } else if Sum(s.procs, BlankOf(f)) > 0 {
      PrivateWhileBlank(s, p, f);
    }
  }

  lemma ClosedFirst(pc: Pc, pc': Pc)
    requires pc.Close? && pc.fs != []
      && (pc' == Then(pc.fs[1..], pc.put) || (pc'.Drop? && pc'.fs == pc.fs[1..] && pc'.put == pc.put))
    ensures forall g :: Held(pc, g) == Held(pc', g) + One(g == pc.fs[0])
    ensures forall g :: Blank(pc, g) == Blank(pc', g) + One(g == pc.fs[0] && pc.put.Some?)
  {
    forall g: nat
      ensures Held(pc, g) == Held(pc', g) + One(g == pc.fs[0])
      ensures Blank(pc, g) == Blank(pc', g) + One(g == pc.fs[0] && pc.put.Some?)
    {
      assert Count(pc.fs, Same(g)) == One(Same(g)(pc.fs[0])) + Count(pc.fs[1..], Same(g));
      assert Count<nat>([], Same(g)) == 0;
    }
  }

  lemma CloseStep(s: State, p: nat)
    requires Inv(s) && p < |s.procs| && s.procs[p].pc.Close? && s.procs[p].pc.fs != []
      && s.procs[p].pc.fs[0] < |s.files|
    ensures Inv(CloseFile(s, p, s.procs[p]))
  {
    hide Inv;
    MoverOk(s, p);
    var pr := s.procs[p];
    var f, fs, put := pr.pc.fs[0], pr.pc.fs[1..], pr.pc.put;
    ClosingFacts(s, p, f);
    SumPart(s.procs, p, BlankOf(f));
    var file := s.files[f];
    var s' := CloseFile(s, p, pr);
    if file.ref - 1 > 0 {
      var pr' := pr.(pc := Then(fs, put));
      ClosedFirst(pr.pc, pr'.pc);
      FilledKept(s, s', p, pr', f);
      FileStep(s, s', p, pr', f, file.(ref := file.ref - 1));
    } else {
      var pr' := pr.(pc := if file.obj.Some? then Drop(file.obj.value, fs, put) else Then(fs, put));
      ClosedFirst(pr.pc, pr'.pc);
      FilledKept(s, s', p, pr', f);
      FileStep(s, s', p, pr', f, File(0, None));
    }
  }

  lemma ReleaseStep(s: State, s': State, p: nat, o: Object, pc': Pc)
    requires Inv(s) && p < |s.procs|
      && s' == With(s, p, s.files, s.procs[p].(pc := pc')).(released := s.released + multiset{o})
    requires (s.procs[p].pc == Close([], Some(o)) && pc' == Idle)
      || (s.procs[p].pc.Drop? && s.procs[p].pc.o == o && pc' == Then(s.procs[p].pc.fs, s.procs[p].pc.put))
    ensures Inv(s')
  {
    hide Inv;
    MoverOk(s, p);
    HandStep(s, s', p, s.procs[p].(pc := pc'));
  }

  // ---------------------------------------------------------------- every step, every run

  lemma StepInv(s: State, p: nat, call: Call)
    requires Inv(s) && CanStep(s, p, call)
    ensures Inv(Next(s, p, call))
  {
    hide Inv, Begin, CloseFile, FirstFree, FirstEmpty;
    match s.procs[p].pc
    case Idle =>
      match call {
       case Dup(fd) => DupBegins(s, p, fd);
       case CloseFd(fd) => CloseBegins(s, p, fd);
       case Open(n, path) => OpenBegins(s, p, n, path);
       case Pipe(n) => PipeBegins(s, p, n);
      }
    case DupRef(f) => DupEnds(s, p, f);
    case OpenFile(o) => OpenTakesFile(s, p, o);
    case OpenFd(o, f) => OpenTakesFd(s, p, o, f);
    case OpenSet(o, f) => OpenFills(s, p, o, f);
    case PipeFd(rf, wf) => PipeTakesFd(s, p, rf, wf);
    case PipeFd2(rf, wf, fd) => PipeTakesFd2(s, p, rf, wf, fd);
    case Close(fs, put) => if fs != [] { CloseStep(s, p); }
        else { ReleaseStep(s, Next(s, p, call), p, put.value, Idle); }
    case Drop(o, fs, put) => ReleaseStep(s, Next(s, p, call), p, o, Then(fs, put));
  }

  lemma {:induction false} RunInv(s: State, schedule: seq<(nat, Call)>)
    requires Inv(s) && Feasible(s, schedule)
    ensures Inv(Run(s, schedule))
    decreases |schedule|
  {
    hide Inv, Next, CanStep;
    if schedule != [] {
      StepInv(s, schedule[0].0, schedule[0].1);
      RunInv(Next(s, schedule[0].0, schedule[0].1), schedule[1..]);
    }
  }
}
