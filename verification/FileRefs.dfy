/**
 The table of open files of the kernel, shared by any number of processes, each with its own descriptors. The machine
 takes one step of one process at a time: what a process does to its own descriptors, or what it does to the file
 table under the table's lock, or the release of the object of a file that was closed for the last time.
 */
module FileRefs {
  import opened Counting
  import opened Options

  /** A reference to an in-memory inode, or one end of a pipe: what the last close of a file gives back. */
  datatype Object = Inode(n: nat) | PipeEnd(n: nat, writable: bool)

  /** `obj` is None for the type FD_NONE. */
  datatype File = File(ref: int, obj: Option<Object>)

  datatype Pc =
    | Idle
    | DupRef(f: nat)                                // descriptor allocated, filedup to come
    | OpenFile(o: Object)                           // has the inode, filealloc to come
    | OpenFd(o: Object, f: nat)                     // has a file, fdalloc to come
    | OpenSet(o: Object, f: nat)                    // has a descriptor, fills in the file
    | PipeFd(rf: nat, wf: nat)                      // has two files, first fdalloc to come
    | PipeFd2(rf: nat, wf: nat, fd: nat)
    | Close(fs: seq<nat>, put: Option<Object>)      // files still to close, then an inode to put
    | Drop(o: Object, fs: seq<nat>, put: Option<Object>)  // last reference gone, table unlocked

  datatype Proc = Proc(fds: seq<Option<nat>>, pc: Pc)

  /** `made` and `released` are history: the objects acquired for files, and those given back. */
  datatype State = State(
    files: seq<File>, procs: seq<Proc>, made: set<Object>, released: multiset<Object>, panicked: bool)

  /** What looking up or creating a path comes to: no inode, a directory that is to be written, or an inode to open. */
  datatype Path = NoInode | DirForWriting | Usable

  /** What an idle process asks for. `n` names what a new reference or pipe will be called. */
  datatype Call = Dup(fd: int) | CloseFd(fd: int) | Open(n: nat, path: Path) | Pipe(n: nat)

  // ---------------------------------------------------------------- steps

  function FirstFree(files: seq<File>): (r: Option<nat>)
    ensures r.Some? ==> r.value < |files| && files[r.value].ref == 0
    ensures r.Some? ==> forall f :: 0 <= f < r.value ==> files[f].ref != 0
    ensures r.None? ==> forall f :: 0 <= f < |files| ==> files[f].ref != 0
  {
    if files == [] then None
    else if files[0].ref == 0 then Some(0)
    else match FirstFree(files[1..])
      case None => assert forall f :: 1 <= f < |files| ==> files[f] == files[1..][f - 1]; None
      case Some(f) => assert forall g :: 1 <= g < |files| ==> files[g] == files[1..][g - 1]; Some(f + 1)
  }

  function FirstEmpty(fds: seq<Option<nat>>): (r: Option<nat>)
    ensures r.Some? ==> r.value < |fds| && fds[r.value] == None
    ensures r.Some? ==> forall d :: 0 <= d < r.value ==> fds[d] != None
    ensures r.None? ==> forall d :: 0 <= d < |fds| ==> fds[d] != None
  {
    if fds == [] then None
    else if fds[0] == None then Some(0)
    else match FirstEmpty(fds[1..])
      case None => assert forall d :: 1 <= d < |fds| ==> fds[d] == fds[1..][d - 1]; None
      case Some(d) => assert forall e :: 1 <= e < |fds| ==> fds[e] == fds[1..][e - 1]; Some(d + 1)
  }

  function ArgFd(fds: seq<Option<nat>>, fd: int): Option<nat> {
    if 0 <= fd < |fds| then fds[fd] else None
  }

  function Then(fs: seq<nat>, put: Option<Object>): Pc {
    if fs == [] && put == None then Idle else Close(fs, put)
  }

  function With(s: State, p: nat, files: seq<File>, pr: Proc): State
    requires p < |s.procs|
  {
    s.(files := files, procs := s.procs[p := pr])
  }

  function Panic(s: State): State {
    s.(panicked := true)
  }

  function CloseFile(s: State, p: nat, pr: Proc): State
    requires p < |s.procs| && pr.pc.Close? && pr.pc.fs != [] && pr.pc.fs[0] < |s.files|
  {
    var f, fs, put := pr.pc.fs[0], pr.pc.fs[1..], pr.pc.put;
    var file := s.files[f];
    if file.ref < 1 then Panic(s)
    else if file.ref - 1 > 0 then With(s, p, s.files[f := file.(ref := file.ref - 1)], pr.(pc := Then(fs, put)))
    else With(s, p, s.files[f := File(0, None)],
              pr.(pc := if file.obj.Some? then Drop(file.obj.value, fs, put) else Then(fs, put)))
  }

  /** Two free files become the two ends of a new pipe; with fewer than two nothing happens. */
  function PipeAlloc(files: seq<File>, n: nat): (r: Option<(nat, nat, seq<File>)>)
    ensures r.Some? ==> var (rf, wf, files') := r.value;
      rf < |files| && wf < |files| && rf != wf && files[rf].ref == 0 && files[wf].ref == 0
      && files' == files[rf := File(1, Some(PipeEnd(n, false)))][wf := File(1, Some(PipeEnd(n, true)))]
  {
    match FirstFree(files)
    case None => None
    case Some(rf) =>
      var files1 := files[rf := File(1, Some(PipeEnd(n, false)))];
      match FirstFree(files1)
      case None => None
      case Some(wf) => Some((rf, wf, files1[wf := File(1, Some(PipeEnd(n, true)))]))
  }

  function Begin(s: State, p: nat, pr: Proc, call: Call): State
    requires p < |s.procs|
  {
    match call
    case Dup(fd) =>
      if ArgFd(pr.fds, fd) == None || FirstEmpty(pr.fds) == None then s
      else With(s, p, s.files, Proc(pr.fds[FirstEmpty(pr.fds).value := ArgFd(pr.fds, fd)],
          DupRef(ArgFd(pr.fds, fd).value)))
    case CloseFd(fd) =>
      if ArgFd(pr.fds, fd) == None then s
      else With(s, p, s.files, Proc(pr.fds[fd := None], Close([ArgFd(pr.fds, fd).value], None)))
    case Open(n, path) =>
      if path == NoInode then s
      else With(s, p, s.files, pr.(pc := if path == DirForWriting then Close([], Some(Inode(n)))
          else OpenFile(Inode(n))))
             .(made := s.made + {Inode(n)})
    case Pipe(n) =>
      match PipeAlloc(s.files, n)
      case None => s
      case Some((rf, wf, files)) =>
        With(s, p, files, pr.(pc := PipeFd(rf, wf))).(made := s.made + {PipeEnd(n, false), PipeEnd(n, true)})
  }

  predicate CanStep(s: State, p: nat, call: Call) {
    && p < |s.procs| && !s.panicked
    && match s.procs[p].pc
       case Idle =>
         (call.Open? && call.path != NoInode ==> Inode(call.n) !in s.made)
         && (call.Pipe? ==> PipeEnd(call.n, false) !in s.made && PipeEnd(call.n, true) !in s.made)
       case DupRef(f) => f < |s.files|
       case OpenSet(_, f) => f < |s.files|
       case PipeFd2(_, _, fd) => fd < |s.procs[p].fds|
       case Close(fs, put) => if fs != [] then fs[0] < |s.files| else put.Some?
       case _ => true
  }

  function Next(s: State, p: nat, call: Call): State
    requires CanStep(s, p, call)
  {
    var pr := s.procs[p];
    match pr.pc
    case Idle => Begin(s, p, pr, call)
    case DupRef(f) =>
      if s.files[f].ref < 1 then Panic(s)
      else With(s, p, s.files[f := s.files[f].(ref := s.files[f].ref + 1)], pr.(pc := Idle))
    case OpenFile(o) =>
      (match FirstFree(s.files)
       case None => With(s, p, s.files, pr.(pc := Close([], Some(o))))
       case Some(f) => With(s, p, s.files[f := s.files[f].(ref := 1)], pr.(pc := OpenFd(o, f))))
    case OpenFd(o, f) =>
      (match FirstEmpty(pr.fds)
       case None => With(s, p, s.files, pr.(pc := Close([f], Some(o))))
       case Some(fd) => With(s, p, s.files, Proc(pr.fds[fd := Some(f)], OpenSet(o, f))))
    case OpenSet(o, f) => With(s, p, s.files[f := s.files[f].(obj := Some(o))], pr.(pc := Idle))
    case PipeFd(rf, wf) =>
      (match FirstEmpty(pr.fds)
       case None => With(s, p, s.files, pr.(pc := Close([rf, wf], None)))
       case Some(fd) => With(s, p, s.files, Proc(pr.fds[fd := Some(rf)], PipeFd2(rf, wf, fd))))
    case PipeFd2(rf, wf, fd) =>
      (match FirstEmpty(pr.fds)
       case None => With(s, p, s.files, Proc(pr.fds[fd := None], Close([rf, wf], None)))
       case Some(fd1) => With(s, p, s.files, Proc(pr.fds[fd1 := Some(wf)], Idle)))
    case Close(fs, put) =>
      if fs != [] then CloseFile(s, p, pr)
      else With(s, p, s.files, pr.(pc := Idle)).(released := s.released + multiset{put.value})
    case Drop(o, fs, put) =>
      With(s, p, s.files, pr.(pc := Then(fs, put))).(released := s.released + multiset{o})
  }

  /** A schedule names the process that takes each step, and what it asks for if it is idle. */
  predicate Feasible(s: State, schedule: seq<(nat, Call)>)
    decreases |schedule|
  {
    schedule == [] || (CanStep(s, schedule[0].0, schedule[0].1)
        && Feasible(Next(s, schedule[0].0, schedule[0].1), schedule[1..]))
  }

  function Run(s: State, schedule: seq<(nat, Call)>): State
    requires Feasible(s, schedule)
    decreases |schedule|
  {
    if schedule == [] then s else Run(Next(s, schedule[0].0, schedule[0].1), schedule[1..])
  }

  // ---------------------------------------------------------------- the invariant

  function Is(f: nat): Option<nat> -> bool {
    (d: Option<nat>) => d == Some(f)
  }

  function Same(f: nat): nat -> bool {
    (g: nat) => g == f
  }

  function Slots(fds: seq<Option<nat>>, f: nat): nat {
    Count(fds, Is(f))
  }

  /** References a system call holds besides the descriptors. */
  function Held(pc: Pc, f: nat): nat {
    match pc
    case OpenFd(_, g) => One(g == f)
    case PipeFd(rf, wf) => One(rf == f) + One(wf == f)
    case PipeFd2(_, wf, _) => One(wf == f)
    case Close(fs, _) => Count(fs, Same(f))
    case Drop(_, fs, _) => Count(fs, Same(f))
    case _ => 0
  }

  /** The descriptor that dup has filled is not counted before filedup. */
  function Refs(pr: Proc, f: nat): nat {
    var n := Slots(pr.fds, f);
    if pr.pc == DupRef(f) then (if n > 0 then n - 1 else 0) else n + Held(pr.pc, f)
  }

  function RefsOf(f: nat): Proc -> nat {
    (pr: Proc) => Refs(pr, f)
  }

  /** The process is about to fill in the new file `f`, or to give it up. */
  function Blank(pc: Pc, f: nat): nat {
    match pc
    case OpenFd(_, g) => One(g == f)
    case OpenSet(_, g) => One(g == f)
    case Close(fs, put) => if put.Some? then Count(fs, Same(f)) else 0
    case Drop(_, fs, put) => if put.Some? then Count(fs, Same(f)) else 0
    case _ => 0
  }

  function BlankOf(f: nat): Proc -> nat {
    (pr: Proc) => Blank(pr.pc, f)
  }

  function Carried(pc: Pc, o: Object): nat {
    match pc
    case OpenFile(x) => One(x == o)
    case OpenFd(x, _) => One(x == o)
    case OpenSet(x, _) => One(x == o)
    case Close(_, put) => One(put == Some(o))
    case Drop(x, _, put) => One(x == o) + One(put == Some(o))
    case _ => 0
  }

  function CarriedOf(o: Object): Proc -> nat {
    (pr: Proc) => Carried(pr.pc, o)
  }

  function Keeps(o: Object): File -> bool {
    (file: File) => file.obj == Some(o)
  }

  ghost predicate ProcOk(files: nat, pr: Proc) {
    && (forall d :: 0 <= d < |pr.fds| && pr.fds[d].Some? ==> pr.fds[d].value < files)
    && match pr.pc
       case DupRef(f) => Slots(pr.fds, f) >= 2 && f < files
       case OpenFd(_, f) => f < files
       case OpenSet(_, f) => f < files && Slots(pr.fds, f) >= 1
       case PipeFd(rf, wf) => rf < files && wf < files
       case PipeFd2(rf, wf, fd) => rf < files && wf < files && fd < |pr.fds| && pr.fds[fd] == Some(rf)
       case Close(fs, put) => (forall i :: 0 <= i < |fs| ==> fs[i] < files) && (fs == [] ==> put.Some?)
       case Drop(_, fs, put) => forall i :: 0 <= i < |fs| ==> fs[i] < files
       case _ => true
  }

  ghost predicate ProcInv(s: State) {
    forall p :: 0 <= p < |s.procs| ==> ProcOk(|s.files|, s.procs[p])
  }

  /** Every file's counter is the number of descriptors that point to it, plus what system calls in progress hold. */
  ghost predicate RefInv(s: State) {
    forall f :: 0 <= f < |s.files| ==> s.files[f].ref == Sum(s.procs, RefsOf(f))
  }

  /** A file in use has its object, unless one process is still opening it, and then nobody else knows it. */
  ghost predicate FilledAt(s: State, f: nat)
    requires f < |s.files|
  {
    && One(s.files[f].ref > 0) == One(s.files[f].obj.Some?) + Sum(s.procs, BlankOf(f))
    && (Sum(s.procs, BlankOf(f)) > 0 ==> s.files[f].ref == 1)
  }

  ghost predicate FilledInv(s: State) {
    forall f :: 0 <= f < |s.files| ==> FilledAt(s, f)
  }

  /** Every object acquired is in one file, or in the hands of one system call, or has been released once. */
  ghost predicate ObjectAt(s: State, o: Object) {
    Count(s.files, Keeps(o)) + Sum(s.procs, CarriedOf(o)) + s.released[o] == One(o in s.made)
  }

  ghost predicate ObjectInv(s: State) {
    forall o :: ObjectAt(s, o)
  }

  ghost predicate Inv(s: State) {
    !s.panicked && ProcInv(s) && RefInv(s) && FilledInv(s) && ObjectInv(s)
  }

  // ---------------------------------------------------------------- frames

  /** What the mover gives up or takes over is what the file's counter loses or gains. */
  lemma RefsKept(s: State, s': State, p: nat, pr': Proc)
    requires RefInv(s) && p < |s.procs| && s'.procs == s.procs[p := pr'] && |s'.files| == |s.files|
    requires forall f :: 0 <= f < |s.files| ==> s'.files[f].ref + Refs(s.procs[p], f) == s.files[f].ref + Refs(pr', f)
    ensures RefInv(s')
  {
    forall f | 0 <= f < |s'.files| ensures s'.files[f].ref == Sum(s'.procs, RefsOf(f)) {
      SumUpdate(s.procs, p, pr', RefsOf(f));
    }
  }

  lemma FilledKept(s: State, s': State, p: nat, pr': Proc, f: nat)
    requires f < |s.files| == |s'.files| && p < |s.procs| && s'.procs == s.procs[p := pr'] && FilledAt(s, f)
    requires One(s'.files[f].ref > 0) + One(s.files[f].obj.Some?) + Blank(s.procs[p].pc, f)
          == One(s.files[f].ref > 0) + One(s'.files[f].obj.Some?) + Blank(pr'.pc, f)
    requires Sum(s.procs, BlankOf(f)) + Blank(pr'.pc, f) > Blank(s.procs[p].pc, f) ==> s'.files[f].ref == 1
    ensures FilledAt(s', f)
  {
    SumUpdate(s.procs, p, pr', BlankOf(f));
  }

  lemma ObjectKept(s: State, s': State, p: nat, pr': Proc, o: Object)
    requires p < |s.procs| && s'.procs == s.procs[p := pr'] && ObjectAt(s, o)
    requires Count(s'.files, Keeps(o)) + Carried(pr'.pc, o) + s'.released[o] + One(o in s.made)
          == Count(s.files, Keeps(o)) + Carried(s.procs[p].pc, o) + s.released[o] + One(o in s'.made)
    ensures ObjectAt(s', o)
  {
    SumUpdate(s.procs, p, pr', CarriedOf(o));
  }

  lemma ProcsKept(s: State, s': State, p: nat, pr': Proc)
    requires ProcInv(s) && p < |s.procs| && s'.procs == s.procs[p := pr'] && |s'.files| == |s.files|
    requires ProcOk(|s.files|, pr')
    ensures ProcInv(s')
  {}

  /** A step that leaves the file table alone; objects may be acquired or released. */
  lemma HandStep(s: State, s': State, p: nat, pr': Proc)
    requires Inv(s) && p < |s.procs| && ProcOk(|s.files|, pr')
    requires s' == With(s, p, s.files, pr').(made := s'.made, released := s'.released)
    requires forall f :: 0 <= f < |s.files| ==> Refs(s.procs[p], f) == Refs(pr', f)
    requires forall f :: Blank(s.procs[p].pc, f) == Blank(pr'.pc, f)
    requires forall o :: Carried(pr'.pc, o) + s'.released[o] + One(o in s.made)
                      == Carried(s.procs[p].pc, o) + s.released[o] + One(o in s'.made)
    ensures Inv(s')
  {
    hide Refs, Blank, Carried, ProcOk;
    ProcsKept(s, s', p, pr');
    RefsKept(s, s', p, pr');
    forall f | 0 <= f < |s'.files| ensures FilledAt(s', f) {
      assert FilledAt(s, f);
      FilledKept(s, s', p, pr', f);
    }
    forall o ensures ObjectAt(s', o) {
      assert ObjectAt(s, o);
      ObjectKept(s, s', p, pr', o);
    }
  }

  lemma SlotsSet(fds: seq<Option<nat>>, fd: nat, d: Option<nat>, f: nat)
    requires fd < |fds|
    ensures Slots(fds[fd := d], f) + One(fds[fd] == Some(f)) == Slots(fds, f) + One(d == Some(f))
  {
    CountUpdate(fds, fd, d, Is(f));
  }

  lemma SlotsAt(fds: seq<Option<nat>>, fd: nat, f: nat)
    requires fd < |fds| && fds[fd] == Some(f)
    ensures Slots(fds, f) >= 1
  {
    CountNone(fds, Is(f));
    assert Is(f)(fds[fd]);
  }
}
