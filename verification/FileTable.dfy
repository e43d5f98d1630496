/**
 The system calls on open files as they are written, with their loops, on the file table and the running process's
 descriptors. Each is proved against a function of the old tables, and each such function is what the machine of
 FileRefs does when only this process moves.
 */
module FileTable {
  import opened Options
  import opened Counting
  import opened FileRefs
  import opened FileRefSteps

  /** The tables after a call, what it gave back to pipes and inodes, and its result. */
  datatype Outcome = Outcome(files: seq<File>, fds: seq<Option<nat>>, gone: seq<Object>, r: int)

  function Closed(files: seq<File>, f: nat): seq<File>
    requires f < |files|
  {
    if files[f].ref - 1 > 0 then files[f := files[f].(ref := files[f].ref - 1)] else files[f := File(0, None)]
  }

  function Gone(files: seq<File>, f: nat): seq<Object>
    requires f < |files|
  {
    if files[f].ref - 1 <= 0 && files[f].obj.Some? then [files[f].obj.value] else []
  }

  function DupOutcome(files: seq<File>, fds: seq<Option<nat>>, fd: int): Outcome
    requires ArgFd(fds, fd).Some? ==> ArgFd(fds, fd).value < |files|
  {
    if ArgFd(fds, fd).None? || FirstEmpty(fds).None? then Outcome(files, fds, [], -1)
    else
      var f, empty := ArgFd(fds, fd).value, FirstEmpty(fds).value;
      Outcome(files[f := files[f].(ref := files[f].ref + 1)], fds[empty := Some(f)], [], empty)
  }

  function CloseOutcome(files: seq<File>, fds: seq<Option<nat>>, fd: int): Outcome
    requires ArgFd(fds, fd).Some? ==> ArgFd(fds, fd).value < |files|
  {
    match ArgFd(fds, fd)
    case None => Outcome(files, fds, [], -1)
    case Some(f) => Outcome(Closed(files, f), fds[fd := None], Gone(files, f), 0)
  }

  function OpenOutcome(files: seq<File>, fds: seq<Option<nat>>, o: Object, path: Path): Outcome {
    if path == NoInode then Outcome(files, fds, [], -1)
    else if path == DirForWriting || FirstFree(files).None? then Outcome(files, fds, [o], -1)
    else
      var f := FirstFree(files).value;
      var files1 := files[f := files[f].(ref := 1)];
      match FirstEmpty(fds)
      case None => Outcome(Closed(files1, f), fds, Gone(files1, f) + [o], -1)
      case Some(fd) => Outcome(files1[f := File(1, Some(o))], fds[fd := Some(f)], [], fd)
  }

  function PipeOutcome(files: seq<File>, fds: seq<Option<nat>>, n: nat): Outcome {
    match PipeAlloc(files, n)
    case None => Outcome(files, fds, [], -1)
    case Some((rf, wf, files1)) =>
      var undone := Outcome(Closed(Closed(files1, rf), wf), fds, Gone(files1, rf) + Gone(Closed(files1, rf), wf), -1);
      match FirstEmpty(fds)
      case None => undone
      case Some(fd0) =>
        var fds1 := fds[fd0 := Some(rf)];
        match FirstEmpty(fds1)
        case None => undone
        case Some(fd1) => Outcome(files1, fds1[fd1 := Some(wf)], [], 0)
  }

  // ---------------------------------------------------------------- what failing calls leave behind

  /** Files not in use have no object: so it is between system calls, see FileRefResults.Consistent. */
  ghost predicate Tidy(files: seq<File>) {
    forall f :: 0 <= f < |files| && files[f].ref == 0 ==> files[f] == File(0, None)
  }

  lemma OpenRollsBack(files: seq<File>, fds: seq<Option<nat>>, o: Object, path: Path)
    requires Tidy(files)
    ensures var r := OpenOutcome(files, fds, o, path);
      r.r < 0 ==> r == Outcome(files, fds, if path == NoInode then [] else [o], -1)
  {
    var r := OpenOutcome(files, fds, o, path);
    if r.r < 0 && path == Usable && FirstFree(files).Some? {
      assert r.files == files;
    }
  }

  lemma PipeRollsBack(files: seq<File>, fds: seq<Option<nat>>, n: nat)
    requires Tidy(files)
    ensures var r := PipeOutcome(files, fds, n); r.r < 0 ==>
      r == Outcome(files, fds, if PipeAlloc(files, n).None? then [] else [PipeEnd(n, false), PipeEnd(n, true)], -1)
  {
    match PipeAlloc(files, n)
    case None =>
    case Some((rf, wf, files1)) => assert Closed(Closed(files1, rf), wf) == files;
  }

  /** A call that fails changes no table, and gives back exactly what it had acquired. */
  lemma FailuresRollBack(files: seq<File>, fds: seq<Option<nat>>, fd: int, o: Object, path: Path, n: nat)
    requires Tidy(files) && (ArgFd(fds, fd).Some? ==> ArgFd(fds, fd).value < |files|)
    ensures var r := DupOutcome(files, fds, fd); r.r < 0 ==> r == Outcome(files, fds, [], -1)
    ensures var r := CloseOutcome(files, fds, fd); r.r < 0 ==> r == Outcome(files, fds, [], -1)
    ensures var r := OpenOutcome(files, fds, o, path);
      r.r < 0 ==> r == Outcome(files, fds, if path == NoInode then [] else [o], -1)
    ensures var r := PipeOutcome(files, fds, n); r.r < 0 ==>
      r == Outcome(files, fds, if PipeAlloc(files, n).None? then [] else [PipeEnd(n, false), PipeEnd(n, true)], -1)
  {
    OpenRollsBack(files, fds, o, path);
    PipeRollsBack(files, fds, n);
    hide OpenOutcome, PipeOutcome;
  }

  // ---------------------------------------------------------------- what each call does, on the tables

  ghost predicate InUse(fds: seq<Option<nat>>, fd: int) {
    0 <= fd < |fds| && fds[fd].Some?
  }

  ghost predicate LowestEmpty(fds: seq<Option<nat>>, d: int) {
    0 <= d < |fds| && fds[d] == None && forall c :: 0 <= c < d ==> fds[c] != None
  }

  ghost predicate LowestFree(files: seq<File>, f: nat) {
    f < |files| && files[f].ref == 0 && forall g :: 0 <= g < f ==> files[g].ref != 0
  }

  /** Nothing but descriptor `d` and file `f` has changed. */
  ghost predicate OnlyAt(files: seq<File>, fds: seq<Option<nat>>, d: nat, f: nat, r: Outcome) {
    && |r.files| == |files| && |r.fds| == |fds|
    && (forall c :: 0 <= c < |fds| && c != d ==> r.fds[c] == fds[c])
    && (forall g :: 0 <= g < |files| && g != f ==> r.files[g] == files[g])
  }

  /** Descriptors in use lead to files in use: so they do in every reachable state, see CoversAt. */
  ghost predicate Points(files: seq<File>, fds: seq<Option<nat>>) {
    forall d :: 0 <= d < |fds| && fds[d].Some? ==> fds[d].value < |files| && files[fds[d].value].ref >= 1
  }

  /**
   Dup succeeds exactly if the descriptor is open and one is empty; the lowest empty one then leads to the same file.
   */
  lemma DupDoes(files: seq<File>, fds: seq<Option<nat>>, fd: int)
    requires Points(files, fds)
    ensures var e := DupOutcome(files, fds, fd);
      && (e.r >= 0 <==> InUse(fds, fd) && exists d :: 0 <= d < |fds| && fds[d] == None)
      && (e.r < 0 ==> e == Outcome(files, fds, [], -1))
      && (e.r >= 0 ==>
            var f := fds[fd].value;
            && LowestEmpty(fds, e.r) && OnlyAt(files, fds, e.r, f, e) && e.gone == []
            && e.fds[e.r] == fds[fd]
            && e.files[f].ref == files[f].ref + 1 && e.files[f].obj == files[f].obj)
  {}

  /** Close succeeds exactly if the descriptor is open; the last close of a file gives its object back. */
  lemma CloseDoes(files: seq<File>, fds: seq<Option<nat>>, fd: int)
    requires Points(files, fds)
    ensures var e := CloseOutcome(files, fds, fd);
      && (e.r == 0 <==> InUse(fds, fd))
      && (e.r != 0 ==> e == Outcome(files, fds, [], -1))
      && (e.r == 0 ==>
            var f := fds[fd].value;
            && OnlyAt(files, fds, fd, f, e) && e.fds[fd] == None && e.files[f].ref == files[f].ref - 1
            && (if files[f].ref == 1 then e.files[f].obj == None else e.files[f].obj == files[f].obj)
            && e.gone == if files[f].ref == 1 && files[f].obj.Some? then [files[f].obj.value] else [])
  {}

  /** Open succeeds exactly if there is an inode to open, a free file and an empty descriptor. */
  lemma OpenDoes(files: seq<File>, fds: seq<Option<nat>>, o: Object, path: Path)
    requires Tidy(files)
    ensures var e := OpenOutcome(files, fds, o, path);
      && (e.r >= 0 <==>
            && path == Usable && (exists f :: 0 <= f < |files| && files[f].ref == 0)
            && exists d :: 0 <= d < |fds| && fds[d] == None)
      && (e.r < 0 ==> e == Outcome(files, fds, if path == NoInode then [] else [o], -1))
      && (e.r >= 0 ==> LowestEmpty(fds, e.r) && e.gone == [] && |e.fds| == |fds| && e.fds[e.r].Some?)
      && (e.r >= 0 ==>
            var f := e.fds[e.r].value;
            LowestFree(files, f) && OnlyAt(files, fds, e.r, f, e) && e.files[f] == File(1, Some(o)))
  {
    OpenRollsBack(files, fds, o, path);
  }

  ghost predicate TwoFree(files: seq<File>) {
    exists f, g :: 0 <= f < g < |files| && files[f].ref == 0 && files[g].ref == 0
  }

  ghost predicate TwoEmpty(fds: seq<Option<nat>>) {
    exists c, d :: 0 <= c < d < |fds| && fds[c] == None && fds[d] == None
  }

  /** The first two empty descriptors, found one after the other. */
  lemma TwoDescriptors(fds: seq<Option<nat>>, c: nat, f: nat)
    requires FirstEmpty(fds) == Some(c)
    ensures FirstEmpty(fds[c := Some(f)]).Some? <==> TwoEmpty(fds)
    ensures FirstEmpty(fds[c := Some(f)]).Some? ==>
      var d := FirstEmpty(fds[c := Some(f)]).value;
      c < d < |fds| && fds[d] == None && forall e :: c < e < d ==> fds[e] != None
  {
    var fds1 := fds[c := Some(f)];
    assert forall e :: 0 <= e < |fds| && e != c ==> fds1[e] == fds[e];
    match FirstEmpty(fds1)
    case None =>
    case Some(d) =>
      assert fds1[c] != None && fds[d] == None;
      forall e | c < e < d ensures fds[e] != None {
        assert fds1[e] != None;
      }
  }

  /** Pipe succeeds exactly if two files are free and two descriptors are empty. */
  lemma PipeDoes(files: seq<File>, fds: seq<Option<nat>>, n: nat)
    requires Tidy(files)
    ensures var e := PipeOutcome(files, fds, n);
      && (e.r == 0 <==> TwoFree(files) && TwoEmpty(fds))
      && (e.r != 0 ==>
            e == Outcome(files, fds, if TwoFree(files) then [PipeEnd(n, false), PipeEnd(n, true)] else [], -1))
      && (e.r == 0 ==> e.gone == [] && PairOfEnds(files, fds, n, e))
  {
    PipeAllocDoes(files, n);
    PipeRollsBack(files, fds, n);
    if PipeAlloc(files, n).Some? {
      var (rf, wf, files1) := PipeAlloc(files, n).value;
      if FirstEmpty(fds).Some? {
        var c := FirstEmpty(fds).value;
        TwoDescriptors(fds, c, rf);
        hide TwoEmpty, TwoFree, Tidy, FirstFree, PipeAlloc;
        if FirstEmpty(fds[c := Some(rf)]).Some? {
          assert Ends(files, fds, n, PipeOutcome(files, fds, n), c, FirstEmpty(fds[c := Some(rf)]).value, rf, wf);
        }
      }
    }
  }

  ghost predicate PairOfEnds(files: seq<File>, fds: seq<Option<nat>>, n: nat, r: Outcome) {
    exists c, d, f, g :: Ends(files, fds, n, r, c, d, f, g)
  }

  lemma PipeAllocDoes(files: seq<File>, n: nat)
    ensures PipeAlloc(files, n).Some? <==> TwoFree(files)
  {
    if FirstFree(files).Some? {
      var f := FirstFree(files).value;
      var files1 := files[f := File(1, Some(PipeEnd(n, false)))];
      if FirstFree(files1).Some? {
        assert files[FirstFree(files1).value].ref == 0;
      } else {
        assert forall g :: 0 <= g < |files| && g != f ==> files[g] == files1[g];
      }
    }
  }

  /** The two lowest empty descriptors lead to the read end and to the write end, in files that were free. */
  ghost predicate Ends(files: seq<File>, fds: seq<Option<nat>>, n: nat, r: Outcome, c: nat, d: nat, f: nat, g: nat) {
    && LowestEmpty(fds, c) && c < d < |fds| && fds[d] == None && (forall e :: c < e < d ==> fds[e] != None)
    && f != g && f < |files| && g < |files| && files[f].ref == 0 && files[g].ref == 0
    && r.files == files[f := File(1, Some(PipeEnd(n, false)))][g := File(1, Some(PipeEnd(n, true)))]
    && r.fds == fds[c := Some(f)][d := Some(g)]
  }

  /** Closing the descriptor that dup has just returned undoes the dup. */
  lemma CloseUndoesDup(files: seq<File>, fds: seq<Option<nat>>, fd: int)
    requires ArgFd(fds, fd).Some? ==> ArgFd(fds, fd).value < |files| && files[ArgFd(fds, fd).value].ref >= 1
    ensures var d := DupOutcome(files, fds, fd);
      d.r >= 0 ==> CloseOutcome(d.files, d.fds, d.r) == Outcome(files, fds, [], 0)
  {
    var d := DupOutcome(files, fds, fd);
    if d.r >= 0 {
      var c := CloseOutcome(d.files, d.fds, d.r);
      assert c.files == files && c.fds == fds;
    }
  }

  // ---------------------------------------------------------------- one process alone

  /** Every step of `schedule` is one of process `p`, and whenever it is idle it asks for `call`. */
  ghost predicate Only(p: nat, call: Call, schedule: seq<(nat, Call)>) {
    forall i :: 0 <= i < |schedule| ==> schedule[i] == (p, call)
  }

  /** Between the first step of `schedule` and the last the process is not idle: it is one call that goes on. */
  ghost predicate Busy(s: State, p: nat, schedule: seq<(nat, Call)>) {
    forall i :: 0 < i < |schedule| ==>
      Feasible(s, schedule[..i]) && p < |Run(s, schedule[..i]).procs| && Run(s, schedule[..i]).procs[p].pc != Idle
  }

  /** The state in which process `p`, alone, has come to `pr` with its call, with the file table `files`. */
  ghost predicate At(s: State, p: nat, call: Call, schedule: seq<(nat, Call)>, files: seq<File>, pr: Proc,
                     gone: seq<Object>, made: set<Object>)
  {
    && p < |s.procs|
    && Only(p, call, schedule)
    && Busy(s, p, schedule)
    && Feasible(s, schedule)
    && Run(s, schedule) == With(s, p, files, pr).(made := s.made + made, released := s.released + multiset(gone))
  }

  /**
   Process `p`, idle in `s`, asks for `call`; all by itself it is idle again for the first time with the tables of `r`.
   */
  ghost predicate Alone(s: State, p: nat, call: Call, schedule: seq<(nat, Call)>, r: Outcome, made: set<Object>) {
    && p < |s.procs| && s.procs[p].pc == Idle && schedule != []
    && At(s, p, call, schedule, r.files, Proc(r.fds, Idle), r.gone, made)
  }

  lemma {:induction false} RunOneMore(s: State, schedule: seq<(nat, Call)>, p: nat, call: Call)
    requires Feasible(s, schedule) && CanStep(Run(s, schedule), p, call)
    ensures Feasible(s, schedule + [(p, call)])
    ensures Run(s, schedule + [(p, call)]) == Next(Run(s, schedule), p, call)
    decreases |schedule|
  {
    hide Next, CanStep;
    if schedule == [] {
      assert schedule + [(p, call)] == [(p, call)];
    } else {
      RunOneMore(Next(s, schedule[0].0, schedule[0].1), schedule[1..], p, call);
      assert (schedule + [(p, call)])[1..] == schedule[1..] + [(p, call)];
    }
  }

  lemma OneMore(s: State, p: nat, schedule: seq<(nat, Call)>, files: seq<File>, pr: Proc, gone: seq<Object>,
                made: set<Object>, call: Call, files': seq<File>, pr': Proc, gone': seq<Object>, made': set<Object>)
    requires At(s, p, call, schedule, files, pr, gone, made)
    requires CanStep(Run(s, schedule), p, call) && (schedule == [] || pr.pc != Idle)
    requires Next(Run(s, schedule), p, call)
      == With(Run(s, schedule), p, files', pr').(made := s.made + made', released := s.released + multiset(gone'))
    ensures At(s, p, call, schedule + [(p, call)], files', pr', gone', made')
  {
    hide Next, CanStep, Feasible, Run;
    RunOneMore(s, schedule, p, call);
    BusyOneMore(s, p, schedule, (p, call));
    hide Busy;
    assert s.procs[p := pr][p := pr'] == s.procs[p := pr'];
  }

  lemma BusyOneMore(s: State, p: nat, schedule: seq<(nat, Call)>, last: (nat, Call))
    requires Busy(s, p, schedule) && Feasible(s, schedule) && p < |Run(s, schedule).procs|
    requires schedule == [] || Run(s, schedule).procs[p].pc != Idle
    ensures Busy(s, p, schedule + [last])
  {
    hide Feasible, Run;
    var longer := schedule + [last];
    forall i | 0 < i < |longer|
      ensures Feasible(s, longer[..i]) && p < |Run(s, longer[..i]).procs| && Run(s, longer[..i]).procs[p].pc != Idle
    {
      if i < |schedule| {
        assert longer[..i] == schedule[..i];
      } else {
        assert longer[..i] == schedule;
      }
    }
  }

  lemma Starts(s: State, p: nat, call: Call)
    requires p < |s.procs|
    ensures At(s, p, call, [], s.files, s.procs[p], [], {})
  {
    assert s.procs[p := s.procs[p]] == s.procs;
    assert s.released + multiset([]) == s.released && s.made + {} == s.made;
  }

  lemma DupAlone(s: State, p: nat, fd: int) returns (schedule: seq<(nat, Call)>)
    requires p < |s.procs| && s.procs[p].pc == Idle && !s.panicked
    requires var fds := s.procs[p].fds; ArgFd(fds, fd).Some? ==>
      ArgFd(fds, fd).value < |s.files| && s.files[ArgFd(fds, fd).value].ref >= 1
    ensures Alone(s, p, Dup(fd), schedule, DupOutcome(s.files, s.procs[p].fds, fd), {})
  {
    hide Feasible, Run, Busy, Only;
    var pr, call := s.procs[p], Dup(fd);
    Starts(s, p, call);
    schedule := [] + [(p, call)];
    if ArgFd(pr.fds, fd).None? || FirstEmpty(pr.fds).None? {
      OneMore(s, p, [], s.files, pr, [], {}, call, s.files, pr, [], {});
    } else {
      var f, empty := ArgFd(pr.fds, fd).value, FirstEmpty(pr.fds).value;
      var pr1 := Proc(pr.fds[empty := Some(f)], DupRef(f));
      OneMore(s, p, [], s.files, pr, [], {}, call, s.files, pr1, [], {});
      OneMore(s, p, schedule, s.files, pr1, [], {}, call, s.files[f := s.files[f].(ref := s.files[f].ref + 1)],
          pr1.(pc := Idle), [], {});
      schedule := schedule + [(p, call)];
    }
  }

  /** The machine closes the first of the files it has to close: one step, and one more if it was the last reference. */
  lemma CloseFirst(s: State, p: nat, schedule: seq<(nat, Call)>, files: seq<File>, fds: seq<Option<nat>>, fs: seq<nat>,
                   put: Option<Object>, gone: seq<Object>, made: set<Object>, call: Call)
                       returns (longer: seq<(nat, Call)>)
    requires At(s, p, call, schedule, files, Proc(fds, Close(fs, put)), gone, made) && !s.panicked
    requires fs != [] && fs[0] < |files| && files[fs[0]].ref >= 1
    ensures longer != []
    ensures At(s, p, call, longer, Closed(files, fs[0]), Proc(fds, Then(fs[1..], put)), gone + Gone(files, fs[0]), made)
  {
    hide Feasible, Run, Busy, Only, Begin, FirstFree, FirstEmpty;
    var pr := Proc(fds, Close(fs, put));
    var file := files[fs[0]];
    var pr' := Proc(fds, Then(fs[1..], put));
    longer := schedule + [(p, call)];
    if file.ref - 1 <= 0 && file.obj.Some? {
      var pr1 := Proc(fds, Drop(file.obj.value, fs[1..], put));
      OneMore(s, p, schedule, files, pr, gone, made, call, Closed(files, fs[0]), pr1, gone, made);
      assert multiset(gone + [file.obj.value]) == multiset(gone) + multiset{file.obj.value};
      OneMore(s, p, longer, Closed(files, fs[0]), pr1, gone, made, call, Closed(files, fs[0]), pr',
          gone + [file.obj.value], made);
      longer := longer + [(p, call)];
    } else {
      OneMore(s, p, schedule, files, pr, gone, made, call, Closed(files, fs[0]), pr', gone, made);
      assert gone + [] == gone;
    }
  }

  lemma CloseAlone(s: State, p: nat, fd: int) returns (schedule: seq<(nat, Call)>)
    requires p < |s.procs| && s.procs[p].pc == Idle && !s.panicked
    requires var fds := s.procs[p].fds; ArgFd(fds, fd).Some? ==>
      ArgFd(fds, fd).value < |s.files| && s.files[ArgFd(fds, fd).value].ref >= 1
    ensures Alone(s, p, CloseFd(fd), schedule, CloseOutcome(s.files, s.procs[p].fds, fd), {})
  {
    hide Feasible, Run, Busy, Only;
    var pr, call := s.procs[p], CloseFd(fd);
    Starts(s, p, call);
    schedule := [] + [(p, call)];
    if ArgFd(pr.fds, fd).None? {
      OneMore(s, p, [], s.files, pr, [], {}, call, s.files, pr, [], {});
    } else {
      var f := ArgFd(pr.fds, fd).value;
      var fds1 := pr.fds[fd := None];
      OneMore(s, p, [], s.files, pr, [], {}, call, s.files, Proc(fds1, Close([f], None)), [], {});
      schedule := CloseFirst(s, p, schedule, s.files, fds1, [f], None, [], {}, call);
      assert [] + Gone(s.files, f) == Gone(s.files, f);
    }
  }

  /** The last step of an open that fails: the inode is put back. */
  lemma PutBack(s: State, p: nat, schedule: seq<(nat, Call)>, files: seq<File>, fds: seq<Option<nat>>, o: Object,
                gone: seq<Object>, made: set<Object>, call: Call)
    requires At(s, p, call, schedule, files, Proc(fds, Close([], Some(o))), gone, made) && !s.panicked
    ensures At(s, p, call, schedule + [(p, call)], files, Proc(fds, Idle), gone + [o], made)
  {
    hide Feasible, Run, Busy, Only;
    assert multiset(gone + [o]) == multiset(gone) + multiset{o};
    OneMore(s, p, schedule, files, Proc(fds, Close([], Some(o))), gone, made, call, files, Proc(fds, Idle), gone + [o],
        made);
  }

  lemma OpenAlone(s: State, p: nat, n: nat, path: Path) returns (schedule: seq<(nat, Call)>)
    requires p < |s.procs| && s.procs[p].pc == Idle && !s.panicked && (path != NoInode ==> Inode(n) !in s.made)
    ensures Alone(s, p, Open(n, path), schedule, OpenOutcome(s.files, s.procs[p].fds, Inode(n), path),
                  if path == NoInode then {} else {Inode(n)})
  {
    hide Feasible, Run, Busy, Only;
    var pr, call, o, made := s.procs[p], Open(n, path), Inode(n), {Inode(n)};
    Starts(s, p, call);
    schedule := [] + [(p, call)];
    if path == NoInode {
      OneMore(s, p, [], s.files, pr, [], {}, call, s.files, pr, [], {});
    } else if path == DirForWriting {
      OneMore(s, p, [], s.files, pr, [], {}, call, s.files, pr.(pc := Close([], Some(o))), [], made);
      PutBack(s, p, schedule, s.files, pr.fds, o, [], made, call);
      schedule := schedule + [(p, call)];
    } else {
      OneMore(s, p, [], s.files, pr, [], {}, call, s.files, pr.(pc := OpenFile(o)), [], made);
      schedule := OpenGoesOn(s, p, schedule, n, call);
    }
  }

  lemma OpenGoesOn(s: State, p: nat, before: seq<(nat, Call)>, n: nat, call: Call) returns (schedule: seq<(nat, Call)>)
    requires p < |s.procs| && s.procs[p].pc == Idle && !s.panicked
    requires At(s, p, call, before, s.files, s.procs[p].(pc := OpenFile(Inode(n))), [], {Inode(n)})
    ensures Alone(s, p, call, schedule, OpenOutcome(s.files, s.procs[p].fds, Inode(n), Usable), {Inode(n)})
  {
    hide Feasible, Run, Busy, Only;
    var pr, o, made := s.procs[p], Inode(n), {Inode(n)};
    var pr1 := pr.(pc := OpenFile(o));
    schedule := before + [(p, call)];
    match FirstFree(s.files)
    case None =>
      OneMore(s, p, before, s.files, pr1, [], made, call, s.files, pr.(pc := Close([], Some(o))), [], made);
      PutBack(s, p, schedule, s.files, pr.fds, o, [], made, call);
      schedule := schedule + [(p, call)];
    case Some(f) =>
      var files1 := s.files[f := s.files[f].(ref := 1)];
      OneMore(s, p, before, s.files, pr1, [], made, call, files1, pr.(pc := OpenFd(o, f)), [], made);
      schedule := OpenFinds(s, p, schedule, n, f, files1, call);
  }

  lemma OpenFinds(s: State, p: nat, before: seq<(nat, Call)>, n: nat, f: nat, files1: seq<File>, call: Call)
    returns (schedule: seq<(nat, Call)>)
    requires p < |s.procs| && s.procs[p].pc == Idle && !s.panicked
    requires FirstFree(s.files) == Some(f) && files1 == s.files[f := s.files[f].(ref := 1)]
    requires At(s, p, call, before, files1, s.procs[p].(pc := OpenFd(Inode(n), f)), [], {Inode(n)})
    ensures Alone(s, p, call, schedule, OpenOutcome(s.files, s.procs[p].fds, Inode(n), Usable), {Inode(n)})
  {
    hide Feasible, Run, Busy, Only;
    var pr, o, made := s.procs[p], Inode(n), {Inode(n)};
    var pr1 := pr.(pc := OpenFd(o, f));
    schedule := before + [(p, call)];
    match FirstEmpty(pr.fds)
    case None =>
      OneMore(s, p, before, files1, pr1, [], made, call, files1, pr.(pc := Close([f], Some(o))), [], made);
      schedule := CloseFirst(s, p, schedule, files1, pr.fds, [f], Some(o), [], made, call);
      assert [] + Gone(files1, f) == Gone(files1, f) && [f][1..] == [];
      PutBack(s, p, schedule, Closed(files1, f), pr.fds, o, Gone(files1, f), made, call);
      schedule := schedule + [(p, call)];
    case Some(fd) =>
      var fds1 := pr.fds[fd := Some(f)];
      OneMore(s, p, before, files1, pr1, [], made, call, files1, Proc(fds1, OpenSet(o, f)), [], made);
      OneMore(s, p, schedule, files1, Proc(fds1, OpenSet(o, f)), [], made, call, files1[f := File(1, Some(o))],
          Proc(fds1, Idle), [], made);
      schedule := schedule + [(p, call)];
  }

  lemma PipeAlone(s: State, p: nat, n: nat) returns (schedule: seq<(nat, Call)>)
    requires p < |s.procs| && s.procs[p].pc == Idle && !s.panicked && PipeEnd(n, false) !in s.made
      && PipeEnd(n, true) !in s.made
    ensures Alone(s, p, Pipe(n), schedule, PipeOutcome(s.files, s.procs[p].fds, n),
                  if PipeAlloc(s.files, n).None? then {} else {PipeEnd(n, false), PipeEnd(n, true)})
  {
    hide Feasible, Run, Busy, Only;
    var pr, call := s.procs[p], Pipe(n);
    var made := {PipeEnd(n, false), PipeEnd(n, true)};
    Starts(s, p, call);
    match PipeAlloc(s.files, n)
    case None =>
      schedule := [] + [(p, call)];
      OneMore(s, p, [], s.files, pr, [], {}, call, s.files, pr, [], {});
    case Some((rf, wf, files1)) =>
      OneMore(s, p, [], s.files, pr, [], {}, call, files1, pr.(pc := PipeFd(rf, wf)), [], made);
      schedule := PipeGoesOn(s, p, [] + [(p, call)], n, rf, wf, files1, call);
  }

  lemma PipeGoesOn(s: State, p: nat, before: seq<(nat, Call)>, n: nat, rf: nat, wf: nat, files1: seq<File>, call: Call)
    returns (schedule: seq<(nat, Call)>)
    requires p < |s.procs| && s.procs[p].pc == Idle && !s.panicked && PipeAlloc(s.files, n) == Some((rf, wf, files1))
    requires At(s, p, call, before, files1, s.procs[p].(pc := PipeFd(rf, wf)), [],
      {PipeEnd(n, false), PipeEnd(n, true)})
    ensures Alone(s, p, call, schedule, PipeOutcome(s.files, s.procs[p].fds, n), {PipeEnd(n, false), PipeEnd(n, true)})
  {
    hide Feasible, Run, Busy, Only;
    var pr, made := s.procs[p], {PipeEnd(n, false), PipeEnd(n, true)};
    var pr1 := pr.(pc := PipeFd(rf, wf));
    schedule := before + [(p, call)];
    match FirstEmpty(pr.fds)
    case None =>
      OneMore(s, p, before, files1, pr1, [], made, call, files1, pr.(pc := Close([rf, wf], None)), [], made);
      schedule := PipeUndone(s, p, schedule, n, rf, wf, files1, call);
    case Some(fd) =>
      var fds1 := pr.fds[fd := Some(rf)];
      var pr2 := Proc(fds1, PipeFd2(rf, wf, fd));
      OneMore(s, p, before, files1, pr1, [], made, call, files1, pr2, [], made);
      match FirstEmpty(fds1)
      case None =>
        assert fds1[fd := None] == pr.fds;
        OneMore(s, p, schedule, files1, pr2, [], made, call, files1, pr.(pc := Close([rf, wf], None)), [], made);
        schedule := PipeUndone(s, p, schedule + [(p, call)], n, rf, wf, files1, call);
      case Some(fd1) =>
        OneMore(s, p, schedule, files1, pr2, [], made, call, files1, Proc(fds1[fd1 := Some(wf)], Idle), [], made);
        schedule := schedule + [(p, call)];
  }

  lemma PipeUndone(s: State, p: nat, before: seq<(nat, Call)>, n: nat, rf: nat, wf: nat, files1: seq<File>, call: Call)
    returns (schedule: seq<(nat, Call)>)
    requires p < |s.procs| && s.procs[p].pc == Idle && !s.panicked && PipeAlloc(s.files, n) == Some((rf, wf, files1))
    requires At(s, p, call, before, files1, s.procs[p].(pc := Close([rf, wf], None)), [],
      {PipeEnd(n, false), PipeEnd(n, true)})
    ensures Alone(s, p, call, schedule,
                  Outcome(Closed(Closed(files1, rf), wf), s.procs[p].fds,
                      Gone(files1, rf) + Gone(Closed(files1, rf), wf), -1),
                  {PipeEnd(n, false), PipeEnd(n, true)})
  {
    hide Feasible, Run, Busy, Only;
    var made := {PipeEnd(n, false), PipeEnd(n, true)};
    var fds := s.procs[p].fds;
    schedule := CloseFirst(s, p, before, files1, fds, [rf, wf], None, [], made, call);
    assert [] + Gone(files1, rf) == Gone(files1, rf) && [rf, wf][1..] == [wf];
    schedule := CloseFirst(s, p, schedule, Closed(files1, rf), fds, [wf], None, Gone(files1, rf), made, call);
  }

  // ---------------------------------------------------------------- what one process may rely on

  /** Descriptors point into the table, and every file counts at least the descriptors in `fds`. */
  ghost predicate Covers(files: seq<File>, fds: seq<Option<nat>>) {
    && (forall d :: 0 <= d < |fds| && fds[d].Some? ==> fds[d].value < |files|)
    && (forall f :: 0 <= f < |files| ==> files[f].ref >= Slots(fds, f))
  }

  /** In every consistent state the file table covers every process's descriptors. */
  lemma ProcessCovered(s: State, p: nat)
    requires Inv(s) && p < |s.procs| && s.procs[p].pc == Idle
    ensures Covers(s.files, s.procs[p].fds)
  {
    MoverOk(s, p);
    forall f | 0 <= f < |s.files| ensures s.files[f].ref >= Slots(s.procs[p].fds, f) {
      Referenced(s, p, f);
    }
  }

  lemma CoversAt(files: seq<File>, fds: seq<Option<nat>>, fd: nat)
    requires Covers(files, fds) && fd < |fds| && fds[fd].Some?
    ensures fds[fd].value < |files| && files[fds[fd].value].ref >= 1
  {
    SlotsAt(fds, fd, fds[fd].value);
  }

  /** Descriptor `fd` leads to a file with this object. */
  ghost predicate Leads(files: seq<File>, fds: seq<Option<nat>>, fd: nat, o: Object) {
    fd < |fds| && fds[fd].Some? && fds[fd].value < |files| && files[fds[fd].value].obj == Some(o)
  }

  lemma NoSlots(fds: seq<Option<nat>>)
    requires forall d :: 0 <= d < |fds| ==> fds[d] == None
    ensures forall f :: Slots(fds, f) == 0
  {
    forall f ensures Slots(fds, f) == 0 {
      CountNone(fds, Is(f));
    }
  }

  lemma DupCovers(files: seq<File>, fds: seq<Option<nat>>, d: nat, f: nat)
    requires Covers(files, fds) && d < |fds| && fds[d] == None && f < |files|
    ensures Covers(files[f := files[f].(ref := files[f].ref + 1)], fds[d := Some(f)])
  {
    forall g ensures Slots(fds[d := Some(f)], g) == Slots(fds, g) + One(f == g) {
      SlotsSet(fds, d, Some(f), g);
    }
  }

  lemma CloseCovers(files: seq<File>, fds: seq<Option<nat>>, d: nat, f: nat)
    requires Covers(files, fds) && d < |fds| && fds[d] == Some(f) && f < |files|
    ensures Covers(Closed(files, f), fds[d := None])
  {
    forall g ensures Slots(fds[d := None], g) + One(f == g) == Slots(fds, g) {
      SlotsSet(fds, d, None, g);
    }
  }

  lemma TakeCovers(files: seq<File>, fds: seq<Option<nat>>, d: nat, f: nat)
    requires Covers(files, fds) && d < |fds| && fds[d] == None && f < |files| && files[f].ref > Slots(fds, f)
    ensures Covers(files, fds[d := Some(f)])
  {
    forall g ensures Slots(fds[d := Some(f)], g) == Slots(fds, g) + One(f == g) {
      SlotsSet(fds, d, Some(f), g);
    }
  }

  lemma FreeCovers(files: seq<File>, fds: seq<Option<nat>>, f: nat, files': seq<File>)
    requires Covers(files, fds) && f < |files| && files[f].ref == 0 && |files'| == |files| && files'[f].ref >= 0
    requires forall g :: 0 <= g < |files| && g != f ==> files'[g] == files[g]
    ensures Covers(files', fds)
  {}

  lemma PipeCovers(files: seq<File>, fds: seq<Option<nat>>, n: nat)
    requires Covers(files, fds)
    ensures Covers(PipeOutcome(files, fds, n).files, PipeOutcome(files, fds, n).fds)
  {
    match PipeAlloc(files, n)
    case None =>
    case Some((rf, wf, files1)) =>
      assert Slots(fds, rf) == 0 && Slots(fds, wf) == 0;
      if FirstEmpty(fds).Some? {
        var fd0 := FirstEmpty(fds).value;
        var fds1 := fds[fd0 := Some(rf)];
        TakeCovers(files1, fds, fd0, rf);
        if FirstEmpty(fds1).Some? {
          SlotsSet(fds, fd0, Some(rf), wf);
          TakeCovers(files1, fds1, FirstEmpty(fds1).value, wf);
        }
      }
  }

  // ---------------------------------------------------------------- the calls as they are written

  class Kernel {
    const ftable: array<File>
    const ofile: array<Option<nat>>
    /** Calls to pipeclose and iput so far. */
    var log: seq<Object>

    /** Descriptors point into the table, and every file counts at least this process's descriptors. */
    ghost predicate Valid()
      reads this, ftable, ofile
    {
      Covers(ftable[..], ofile[..])
    }

    constructor (nfile: nat, nofile: nat)
      ensures Valid() && fresh(ftable) && fresh(ofile) && ftable.Length == nfile && ofile.Length == nofile && log == []
      ensures forall f :: 0 <= f < nfile ==> ftable[f] == File(0, None)
      ensures forall d :: 0 <= d < nofile ==> ofile[d] == None
    {
      ftable := new File[nfile](_ => File(0, None));
      ofile := new Option<nat>[nofile](_ => None);
      log := [];
      new;
      NoSlots(ofile[..]);
    }

    method FileAlloc() returns (r: Option<nat>)
      modifies ftable
      ensures r == FirstFree(old(ftable[..]))
      ensures ftable[..] == if r.Some? then old(ftable[..])[r.value := old(ftable[..])[r.value].(ref := 1)]
        else old(ftable[..])
    {
      var f := 0;
      while f < ftable.Length
        invariant 0 <= f <= ftable.Length && ftable[..] == old(ftable[..])
        invariant forall g :: 0 <= g < f ==> ftable[g].ref != 0
      {
        if ftable[f].ref == 0 {
          ftable[f] := ftable[f].(ref := 1);
          return Some(f);
        }
        f := f + 1;
      }
      return None;
    }

    method FdAlloc(f: nat) returns (r: Option<nat>)
      modifies ofile
      ensures r == FirstEmpty(old(ofile[..]))
      ensures ofile[..] == if r.Some? then old(ofile[..])[r.value := Some(f)] else old(ofile[..])
    {
      var fd := 0;
      while fd < ofile.Length
        invariant 0 <= fd <= ofile.Length && ofile[..] == old(ofile[..])
        invariant forall d :: 0 <= d < fd ==> ofile[d] != None
      {
        if ofile[fd] == None {
          ofile[fd] := Some(f);
          return Some(fd);
        }
        fd := fd + 1;
      }
      return None;
    }

    /** The source panics where the counter is below one; here that is what callers have to exclude. */
    method FileDup(f: nat)
      requires f < ftable.Length && ftable[f].ref >= 1
      modifies ftable
      ensures ftable[..] == old(ftable[..])[f := old(ftable[..])[f].(ref := old(ftable[..])[f].ref + 1)]
    {
      ftable[f] := ftable[f].(ref := ftable[f].ref + 1);
    }

    method FileClose(f: nat)
      requires f < ftable.Length && ftable[f].ref >= 1
      modifies ftable, this`log
      ensures ftable[..] == Closed(old(ftable[..]), f) && log == old(log) + Gone(old(ftable[..]), f)
    {
      var ff := ftable[f];
      ftable[f] := ff.(ref := ff.ref - 1);
      if ftable[f].ref > 0 {
        return;
      }
      ftable[f] := File(0, None);
      if ff.obj.Some? {
        log := log + [ff.obj.value];
      }
    }

    method SysDup(fd: int) returns (r: int)
      requires Valid()
      modifies ftable, ofile
      ensures Valid()
      ensures Outcome(ftable[..], ofile[..], [], r) == DupOutcome(old(ftable[..]), old(ofile[..]), fd)
    {
      if fd < 0 || fd >= ofile.Length || ofile[fd] == None {
        return -1;
      }
      var f := ofile[fd].value;
      CoversAt(ftable[..], ofile[..], fd);
      var d := FdAlloc(f);
      if d == None {
        return -1;
      }
      FileDup(f);
      DupCovers(old(ftable[..]), old(ofile[..]), d.value, f);
      return d.value;
    }

    method SysClose(fd: int) returns (r: int)
      requires Valid()
      modifies ftable, ofile, this`log
      ensures Valid()
      ensures var e := CloseOutcome(old(ftable[..]), old(ofile[..]), fd);
        ftable[..] == e.files && ofile[..] == e.fds && log == old(log) + e.gone && r == e.r
    {
      if fd < 0 || fd >= ofile.Length || ofile[fd] == None {
        return -1;
      }
      var f := ofile[fd].value;
      CoversAt(ftable[..], ofile[..], fd);
      ofile[fd] := None;
      FileClose(f);
      CloseCovers(old(ftable[..]), old(ofile[..]), fd, f);
      return 0;
    }

    /** `path` says what looking up or creating the path came to, and `o` is the inode if there is one. */
    method SysOpen(o: Object, path: Path) returns (r: int)
      requires Valid()
      modifies ftable, ofile, this`log
      ensures Valid()
      ensures var e := OpenOutcome(old(ftable[..]), old(ofile[..]), o, path);
        ftable[..] == e.files && ofile[..] == e.fds && log == old(log) + e.gone && r == e.r
    {
      if path == NoInode {
        return -1;
      }
      if path == DirForWriting {
        log := log + [o];
        return -1;
      }
      var f := FileAlloc();
      if f == None {
        log := log + [o];
        return -1;
      }
      var fd := FdAlloc(f.value);
      if fd == None {
        FileClose(f.value);
        log := log + [o];
        FreeCovers(old(ftable[..]), old(ofile[..]), f.value, ftable[..]);
        return -1;
      }
      ftable[f.value] := ftable[f.value].(obj := Some(o));
      FreeCovers(old(ftable[..]), old(ofile[..]), f.value, ftable[..]);
      TakeCovers(ftable[..], old(ofile[..]), fd.value, f.value);
      return fd.value;
    }

    /** What pipealloc is taken to do: two files of type FD_PIPE, or nothing. */
    method PipeAllocate(n: nat) returns (r: Option<(nat, nat)>)
      modifies ftable
      ensures match PipeAlloc(old(ftable[..]), n)
        case None => r == None && ftable[..] == old(ftable[..])
        case Some((rf, wf, files)) => r == Some((rf, wf)) && ftable[..] == files
    {
      var was := ftable[..];
      var rf := FileAlloc();
      if rf == None {
        return None;
      }
      ftable[rf.value] := File(1, Some(PipeEnd(n, false)));
      assert ftable[..] == was[rf.value := File(1, Some(PipeEnd(n, false)))];
      var wf := FileAlloc();
      if wf == None {
        ftable[rf.value] := was[rf.value];
        assert ftable[..] == was;
        return None;
      }
      ftable[wf.value] := File(1, Some(PipeEnd(n, true)));
      return Some((rf.value, wf.value));
    }

    /** The two ends of a pipe that no descriptor was left for. */
    method CloseEnds(rf: nat, wf: nat)
      requires rf < ftable.Length && wf < ftable.Length && rf != wf && ftable[rf].ref >= 1 && ftable[wf].ref >= 1
      modifies ftable, this`log
      ensures ftable[..] == Closed(Closed(old(ftable[..]), rf), wf)
      ensures log == old(log) + (Gone(old(ftable[..]), rf) + Gone(Closed(old(ftable[..]), rf), wf))
    {
      FileClose(rf);
      FileClose(wf);
    }

    method SysPipe(n: nat) returns (r: int, fd: seq<nat>)
      requires Valid()
      modifies ftable, ofile, this`log
      ensures Valid()
      ensures if r < 0 then fd == [] else
        && |fd| == 2 && fd[0] < fd[1] < ofile.Length && old(ofile[fd[0]]) == None && old(ofile[fd[1]]) == None
        && Leads(ftable[..], ofile[..], fd[0], PipeEnd(n, false))
          && Leads(ftable[..], ofile[..], fd[1], PipeEnd(n, true))
      ensures var e := PipeOutcome(old(ftable[..]), old(ofile[..]), n);
        ftable[..] == e.files && ofile[..] == e.fds && log == old(log) + e.gone && r == e.r
    {
      hide Closed, Gone, Covers;
      PipeCovers(ftable[..], ofile[..], n);
      ghost var was := ofile[..];
      var ends := PipeAllocate(n);
      if ends == None {
        return -1, [];
      }
      var (rf, wf) := ends.value;
      var fd0 := FdAlloc(rf);
      if fd0 == None {
        CloseEnds(rf, wf);
        return -1, [];
      }
      var fd1 := FdAlloc(wf);
      if fd1 == None {
        ofile[fd0.value] := None;
        assert ofile[..] == was;
        CloseEnds(rf, wf);
        return -1, [];
      }
      return 0, [fd0.value, fd1.value];
    }
  }
}
