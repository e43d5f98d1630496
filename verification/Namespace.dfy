/**
 The directory tree of the file system under create, link and unlink. A directory is the list of its slots, as on
 disk: slot 0 is ".", slot 1 is "..", and a slot with inode number 0 is free. Each call is one step.
 */
module Namespace {
  import opened Options

  type Name = string

  datatype Slot = Slot(name: Name, inum: nat)

  /** `depth` is history that no call reads: how far from the root the directory was created. */
  datatype Inode =
    | File(nlink: int)
    | Dev(nlink: int)
    | Dir(nlink: int, slots: seq<Slot>, depth: nat)

  type FileSystem = map<nat, Inode>

  datatype Kind = T_FILE | T_DEV | T_DIR

  /** What a call answers: the inode for create, the directory for the others; Panic stops the kernel. */
  datatype Answer = Ok(inum: nat) | Failed | Panic

  datatype Outcome = Outcome(fs: FileSystem, answer: Answer)

  const ROOT := 1
  const DOT := "."
  const DOTDOT := ".."

  predicate IsDir(fs: FileSystem, x: nat) {
    x in fs && fs[x].Dir?
  }

  // ---------------------------------------------------------------- directories

  /** dirlookup: the first slot in use with this name. */
  function Find(slots: seq<Slot>, name: Name): (r: Option<nat>)
    ensures r.Some? ==> r.value < |slots| && slots[r.value].inum != 0 && slots[r.value].name == name
    ensures r.None? ==> forall i :: 0 <= i < |slots| && slots[i].inum != 0 ==> slots[i].name != name
  {
    if slots == [] then None
    else if slots[0].inum != 0 && slots[0].name == name then Some(0)
    else match Find(slots[1..], name)
      case None => assert forall i :: 1 <= i < |slots| ==> slots[i] == slots[1..][i - 1]; None
      case Some(i) => Some(i + 1)
  }

  /** The slot that dirlink fills: the first free one, else one more at the end. */
  function FreeSlot(slots: seq<Slot>): (i: nat)
    ensures i <= |slots| && (i < |slots| ==> slots[i].inum == 0)
  {
    if slots == [] || slots[0].inum == 0 then 0 else 1 + FreeSlot(slots[1..])
  }

  function SlotSet(slots: seq<Slot>, i: nat, slot: Slot): (r: seq<Slot>)
    requires i <= |slots|
    ensures i < |r| && r[i] == slot && |r| == (if i < |slots| then |slots| else i + 1)
    ensures forall j :: 0 <= j < |slots| && j != i ==> r[j] == slots[j]
  {
    if i < |slots| then slots[i := slot] else slots + [slot]
  }

  predicate IsEmpty(slots: seq<Slot>) {
    forall i :: 2 <= i < |slots| ==> slots[i].inum == 0
  }

  /** namei: from directory `at`, name by name. */
  function Resolve(fs: FileSystem, at: nat, path: seq<Name>): Option<nat>
    decreases |path|
  {
    if path == [] then Some(at)
    else if !IsDir(fs, at) then None
    else match Find(fs[at].slots, path[0])
      case None => None
      case Some(i) => Resolve(fs, fs[at].slots[i].inum, path[1..])
  }

  /** nameiparent: the directory that holds, or is to hold, the last name of the path. */
  function Parent(fs: FileSystem, path: seq<Name>): (r: Option<nat>)
    ensures r.Some? ==> IsDir(fs, r.value) && path != []
  {
    if path == [] then None
    else match Resolve(fs, ROOT, path[..|path| - 1])
      case None => None
      case Some(d) => if IsDir(fs, d) then Some(d) else None
  }

  function SetNlink(fs: FileSystem, x: nat, nlink: int): FileSystem
    requires x in fs
  {
    fs[x := fs[x].(nlink := nlink)]
  }

  function PutSlot(fs: FileSystem, d: nat, i: nat, slot: Slot): FileSystem
    requires IsDir(fs, d) && i <= |fs[d].slots|
  {
    fs[d := fs[d].(slots := SlotSet(fs[d].slots, i, slot))]
  }

  function AddEntry(fs: FileSystem, d: nat, name: Name, x: nat): FileSystem
    requires IsDir(fs, d)
  {
    PutSlot(fs, d, FreeSlot(fs[d].slots), Slot(name, x))
  }

  // ---------------------------------------------------------------- the calls

  function NewInode(kind: Kind, x: nat, d: nat, depth: nat): Inode {
    match kind
    case T_FILE => File(1)
    case T_DEV => Dev(1)
    case T_DIR => Dir(1, [Slot(DOT, x), Slot(DOTDOT, d)], depth)
  }

  /** `x` is the number that ialloc gives the new inode. */
  function Create(fs: FileSystem, path: seq<Name>, kind: Kind, x: nat): Outcome {
    match Parent(fs, path)
    case None => Outcome(fs, Failed)
    case Some(d) =>
      var name := path[|path| - 1];
      match Find(fs[d].slots, name)
      case Some(i) =>
        var y := fs[d].slots[i].inum;
        if kind == T_FILE && y in fs && fs[y].File? then Outcome(fs, Ok(y)) else Outcome(fs, Failed)
      case None =>
        var fs1 := if kind == T_DIR then SetNlink(fs, d, fs[d].nlink + 1) else fs;
        Outcome(AddEntry(fs1, d, name, x)[x := NewInode(kind, x, d, fs[d].depth + 1)], Ok(x))
  }

  function Link(fs: FileSystem, old_: seq<Name>, new_: seq<Name>, sameDev: bool): Outcome {
    match Resolve(fs, ROOT, old_)
    case None => Outcome(fs, Failed)
    case Some(x) =>
      if x !in fs || fs[x].Dir? then Outcome(fs, Failed)
      else match Parent(fs, new_)
        case None => Outcome(fs, Failed)
        case Some(d) =>
          var name := new_[|new_| - 1];
          if !sameDev || Find(fs[d].slots, name).Some? then Outcome(fs, Failed)
          else Outcome(AddEntry(SetNlink(fs, x, fs[x].nlink + 1), d, name, x), Ok(d))
  }

  function Unlink(fs: FileSystem, path: seq<Name>): Outcome {
    match Parent(fs, path)
    case None => Outcome(fs, Failed)
    case Some(d) =>
      var name := path[|path| - 1];
      if name == DOT || name == DOTDOT then Outcome(fs, Failed)
      else match Find(fs[d].slots, name)
        case None => Outcome(fs, Failed)
        case Some(i) =>
          var x := fs[d].slots[i].inum;
          if x !in fs || fs[x].nlink < 1 then Outcome(fs, Panic)
          else if fs[x].Dir? && !IsEmpty(fs[x].slots) then Outcome(fs, Failed)
          else Outcome(Removed(fs, d, i, x), Ok(d))
  }

  function Removed(fs: FileSystem, d: nat, i: nat, x: nat): FileSystem
    requires IsDir(fs, d) && i < |fs[d].slots| && x in fs
  {
    var fs1 := PutSlot(fs, d, i, Slot("", 0));
    var fs2 := if fs[x].Dir? then SetNlink(fs1, d, fs1[d].nlink - 1) else fs1;
    SetNlink(fs2, x, fs2[x].nlink - 1)
  }

  datatype Op =
    | DoCreate(path: seq<Name>, kind: Kind, x: nat)
    | DoLink(old_: seq<Name>, new_: seq<Name>, sameDev: bool)
    | DoUnlink(path: seq<Name>)

  function Apply(fs: FileSystem, op: Op): Outcome {
    match op
    case DoCreate(path, kind, x) => Create(fs, path, kind, x)
    case DoLink(old_, new_, sameDev) => Link(fs, old_, new_, sameDev)
    case DoUnlink(path) => Unlink(fs, path)
  }

  /** ialloc never hands out the number 0 or one that is in use. */
  predicate Allowed(fs: FileSystem, op: Op) {
    op.DoCreate? ==> op.x != 0 && op.x !in fs
  }

  predicate Possible(fs: FileSystem, ops: seq<Op>)
    decreases |ops|
  {
    ops == [] || (Allowed(fs, ops[0])
        && (Apply(fs, ops[0]).answer != Panic ==> Possible(Apply(fs, ops[0]).fs, ops[1..])))
  }

  /** The outcome of the last call; nothing comes after a panic. */
  function Run(fs: FileSystem, ops: seq<Op>): Outcome
    requires Possible(fs, ops)
    decreases |ops|
  {
    if ops == [] then Outcome(fs, Ok(ROOT))
    else
      var r := Apply(fs, ops[0]);
      if r.answer == Panic || ops[1..] == [] then r else Run(r.fs, ops[1..])
  }

  /** A new file system: the root directory alone. */
  function Formatted(): FileSystem {
    map[ROOT := Dir(1, [Slot(DOT, ROOT), Slot(DOTDOT, ROOT)], 0)]
  }
}
