/** The directories form a tree under every run of calls, and what a call does to the paths of files. */
module NamespaceTree {
  import opened Options
  import opened Namespace
  import opened NamespaceInvariant
  import opened NamespaceSteps

  /** A path that only goes down. */
  predicate Proper(path: seq<Name>) {
    forall i :: 0 <= i < |path| ==> path[i] != DOT && path[i] != DOTDOT
  }

  // ---------------------------------------------------------------- resolving a path

  lemma {:induction false} ResolveLast(fs: FileSystem, at: nat, path: seq<Name>, name: Name)
    ensures Resolve(fs, at, path + [name]) ==
      match Resolve(fs, at, path)
      case None => None
      case Some(d) => if !IsDir(fs, d) then None else match Find(fs[d].slots, name)
        case None => None
        case Some(i) => Some(fs[d].slots[i].inum)
    decreases |path|
  {
    if path == [] {
      assert path + [name] == [name] && [name][1..] == [];
    } else if IsDir(fs, at) && Find(fs[at].slots, path[0]).Some? {
      assert (path + [name])[1..] == path[1..] + [name] && (path + [name])[0] == path[0];
      ResolveLast(fs, fs[at].slots[Find(fs[at].slots, path[0]).value].inum, path[1..], name);
    } else {
      assert (path + [name])[0] == path[0];
    }
  }

  /** The last step of a path, if it goes down. */
  lemma LastStep(fs: FileSystem, path: seq<Name>) returns (d: nat, i: nat)
    requires Inv(fs) && path != [] && Proper(path) && Resolve(fs, ROOT, path).Some?
    ensures IsDir(fs, d) && Linked(fs, d) && Resolve(fs, ROOT, path[..|path| - 1]) == Some(d)
    ensures 2 <= i < |fs[d].slots| && fs[d].slots[i].name == path[|path| - 1]
      && fs[d].slots[i].inum == Resolve(fs, ROOT, path).value
    ensures fs[d].slots[i].inum != 0
  {
    hide Inv, Resolve;
    var k := |path| - 1;
    assert path == path[..k] + [path[k]];
    ResolveLast(fs, ROOT, path[..k], path[k]);
    d := Resolve(fs, ROOT, path[..k]).value;
    i := Find(fs[d].slots, path[k]).value;
    DotsFirst(fs, d, i);
    RootLinked(fs);
    ResolvedLinked(fs, ROOT, path[..k]);
  }

  lemma UniqueName(fs: FileSystem, d: nat, i: nat)
    requires Inv(fs) && IsDir(fs, d) && 2 <= i < |fs[d].slots| && fs[d].slots[i].inum != 0
    ensures Find(fs[d].slots, fs[d].slots[i].name) == Some(i)
    ensures fs[d].slots[i].name != DOT && fs[d].slots[i].name != DOTDOT
  {
    OneOk(fs, d);
    NamesDiffer(fs, d, i);
  }

  lemma NamesDiffer(fs: FileSystem, d: nat, i: nat)
    requires IsDir(fs, d) && d != 0 && SlotsOk(fs, d, fs[d].slots) && 2 <= i < |fs[d].slots| && fs[d].slots[i].inum != 0
    ensures Find(fs[d].slots, fs[d].slots[i].name) == Some(i)
    ensures fs[d].slots[i].name != DOT && fs[d].slots[i].name != DOTDOT
  {}

  // ---------------------------------------------------------------- the tree

  /** Every directory in the tree is reached from the root going down, through its parents only. */
  lemma {:induction false} PathTo(fs: FileSystem, d: nat) returns (path: seq<Name>)
    requires Inv(fs) && IsDir(fs, d) && fs[d].nlink > 0
    ensures Proper(path) && Resolve(fs, ROOT, path) == Some(d) && |path| == fs[d].depth
    decreases fs[d].depth
  {
    hide Inv, Entries, Resolve;
    if d == ROOT {
      path := RootPath(fs);
    } else {
      var p, i := EntryOf(fs, d);
      path := PathTo(fs, p);
      UniqueName(fs, p, i);
      ResolveLast(fs, ROOT, path, fs[p].slots[i].name);
      path := path + [fs[p].slots[i].name];
    }
  }

  lemma RootPath(fs: FileSystem) returns (path: seq<Name>)
    requires Inv(fs)
    ensures path == [] && Resolve(fs, ROOT, path) == Some(ROOT) && IsDir(fs, ROOT) && fs[ROOT].depth == 0
  {
    OneOk(fs, ROOT);
    path := [];
  }

  lemma EntryOf(fs: FileSystem, d: nat) returns (p: nat, i: nat)
    requires Inv(fs) && IsDir(fs, d) && fs[d].nlink > 0 && d != ROOT
    ensures IsDir(fs, p) && fs[p].nlink > 0 && fs[d].depth == fs[p].depth + 1 && |fs[d].slots| >= 2
      && fs[d].slots[1].inum == p
    ensures 2 <= i < |fs[p].slots| && fs[p].slots[i].inum == d && d != 0 && Entries(fs, d) == {(p, i)}
  {
    OneOk(fs, d);
    var e := AnElement(Entries(fs, d));
    OnlyElement(Entries(fs, d), e);
    p, i := e.0, e.1;
  }

  /** ... and by one path only. */
  lemma {:induction false} OnePath(fs: FileSystem, p: seq<Name>, q: seq<Name>, d: nat)
    requires Inv(fs) && IsDir(fs, d) && Proper(p) && Proper(q)
    requires Resolve(fs, ROOT, p) == Some(d) && Resolve(fs, ROOT, q) == Some(d)
    ensures p == q
    decreases |p| + |q|
  {
    hide Inv, Entries;
    if p == [] && q == [] {
    } else if p == [] || q == [] {
      assert p + q == p || p + q == q;
      var e, i := LastStep(fs, p + q);
      RootHasNoEntry(fs, e, i);
    } else {
      var e, i := LastStep(fs, p);
      var f, j := LastStep(fs, q);
      SameEntry(fs, d, e, i, f, j);
      OnePath(fs, p[..|p| - 1], q[..|q| - 1], e);
      assert p == p[..|p| - 1] + [p[|p| - 1]] && q == q[..|q| - 1] + [q[|q| - 1]];
    }
  }

  lemma RootHasNoEntry(fs: FileSystem, d: nat, i: nat)
    requires Inv(fs) && IsDir(fs, d) && 2 <= i < |fs[d].slots|
    ensures fs[d].slots[i].inum != ROOT
  {
    OneOk(fs, ROOT);
    assert (d, i) !in Entries(fs, ROOT);
  }

  lemma SameEntry(fs: FileSystem, x: nat, d: nat, i: nat, e: nat, j: nat)
    requires Inv(fs) && IsDir(fs, x) && IsDir(fs, d) && IsDir(fs, e) && 2 <= i < |fs[d].slots| && 2 <= j < |fs[e].slots|
    requires fs[d].slots[i].inum == x && fs[e].slots[j].inum == x
    ensures d == e && i == j
  {
    OneOk(fs, x);
    assert (d, i) in Entries(fs, x) && (e, j) in Entries(fs, x);
    if x != ROOT && fs[x].nlink > 0 {
      OnlyElement(Entries(fs, x), (d, i));
    }
  }

  /**
   Whatever calls a new file system has seen: none has panicked; a file has as many links as named entries, a directory
   in the tree one more than child directories; and such a directory has exactly one path that only goes down.
   */
  lemma EveryRunKeepsTheTree(ops: seq<Op>, x: nat) returns (path: seq<Name>)
    requires Possible(Formatted(), ops)
    ensures Run(Formatted(), ops).answer != Panic
    ensures var e := Run(Formatted(), ops).fs;
      && (x in e && !e[x].Dir? ==> e[x].nlink == |Entries(e, x)|)
      && (IsDir(e, x) && e[x].nlink <= 0 ==> e[x].nlink == 0 && Entries(e, x) == {} && IsEmpty(e[x].slots))
      && (IsDir(e, x) && e[x].nlink > 0 ==>
          && e[x].nlink == 1 + |Children(e, x)|
          && Proper(path) && Resolve(e, ROOT, path) == Some(x)
          && forall q :: Proper(q) && Resolve(e, ROOT, q) == Some(x) ==> q == path)
  {
    hide Inv, Entries, Children, Resolve, Run, Possible, Formatted;
    FormattedInv();
    RunInv(Formatted(), ops);
    var e := Run(Formatted(), ops).fs;
    path := [];
    if x in e { OneOk(e, x); }
    if IsDir(e, x) && e[x].nlink > 0 {
      path := PathTo(e, x);
      forall q | Proper(q) && Resolve(e, ROOT, q) == Some(x) ensures q == path {
        OnePath(e, q, path, x);
      }
    }
  }

  // ---------------------------------------------------------------- what calls do to paths

  lemma {:induction false} FindFilled(slots: seq<Slot>, i: nat, name: Name, x: nat, n: Name)
    requires i == FreeSlot(slots) && Find(slots, name) == None && x != 0
    ensures Find(SlotSet(slots, i, Slot(name, x)), n) == if n == name then Some(i) else Find(slots, n)
  {
    var slots' := SlotSet(slots, i, Slot(name, x));
    if slots == [] {
      assert slots' == [Slot(name, x)] && slots'[1..] == [];
    } else if slots[0].inum == 0 {
      assert slots'[1..] == slots[1..];
    } else {
      FindFilled(slots[1..], i - 1, name, x, n);
      assert slots'[1..] == SlotSet(slots[1..], i - 1, Slot(name, x));
    }
  }

  lemma {:induction false} FindCleared(slots: seq<Slot>, i: nat, n: Name)
    requires i < |slots| && slots[i].inum != 0 && Find(slots, slots[i].name) == Some(i)
    requires forall j :: i < j < |slots| && slots[j].inum != 0 ==> slots[j].name != slots[i].name
    ensures Find(slots[i := Slot("", 0)], n) == if n == slots[i].name then None else Find(slots, n)
  {
    var slots' := slots[i := Slot("", 0)];
    if i == 0 {
      assert slots'[1..] == slots[1..];
      assert forall j :: 0 <= j < |slots[1..]| ==> slots[1..][j] == slots[j + 1];
    } else {
      assert slots'[1..] == slots[1..][i - 1 := Slot("", 0)];
      assert forall j :: 0 <= j < |slots[1..]| ==> slots[1..][j] == slots[j + 1];
      FindCleared(slots[1..], i - 1, n);
    }
  }

  /** What a name leads to in directory `d`. */
  function Lookup(fs: FileSystem, d: nat, name: Name): Option<nat> {
    if !IsDir(fs, d) then None
    else match Find(fs[d].slots, name)
      case None => None
      case Some(i) => Some(fs[d].slots[i].inum)
  }

  ghost predicate Grows(fs: FileSystem, fs': FileSystem) {
    forall d, n :: Lookup(fs, d, n).Some? ==> Lookup(fs', d, n) == Lookup(fs, d, n)
  }

  lemma {:induction false} ResolveGrows(fs: FileSystem, fs': FileSystem, at: nat, path: seq<Name>)
    requires Grows(fs, fs') && Resolve(fs, at, path).Some?
    ensures Resolve(fs', at, path) == Resolve(fs, at, path)
    decreases |path|
  {
    if path != [] {
      assert Lookup(fs, at, path[0]).Some?;
      ResolveGrows(fs, fs', Lookup(fs, at, path[0]).value, path[1..]);
    }
  }

  lemma ParentGrows(fs: FileSystem, fs': FileSystem, path: seq<Name>)
    requires Grows(fs, fs') && Parent(fs, path).Some? && IsDir(fs', Parent(fs, path).value)
    ensures Parent(fs', path) == Parent(fs, path)
    ensures Resolve(fs', ROOT, path) == Lookup(fs', Parent(fs, path).value, path[|path| - 1])
  {
    var k := |path| - 1;
    ResolveGrows(fs, fs', ROOT, path[..k]);
    ResolveLast(fs', ROOT, path[..k], path[k]);
    assert path == path[..k] + [path[k]];
  }

  /** The file systems differ in one entry: `name` leads to `x` in directory `d` of the second. */
  ghost predicate OneName(fs: FileSystem, fs': FileSystem, d: nat, name: Name, x: nat) {
    && IsDir(fs, d) && Lookup(fs, d, name) == None && Lookup(fs', d, name) == Some(x)
    && forall e, n :: (e in fs && (e, n) != (d, name)) ==> Lookup(fs', e, n) == Lookup(fs, e, n)
  }

  lemma AddedName(fs: FileSystem, fs': FileSystem, d: nat, name: Name, x: nat)
    requires IsDir(fs, d) && IsDir(fs', d) && Find(fs[d].slots, name) == None && x != 0
    requires fs'[d].slots == SlotSet(fs[d].slots, FreeSlot(fs[d].slots), Slot(name, x))
    requires forall e :: e in fs && e != d ==>
      IsDir(fs', e) == IsDir(fs, e) && (IsDir(fs, e) ==> fs'[e].slots == fs[e].slots)
    ensures OneName(fs, fs', d, name, x) && Grows(fs, fs')
  {
    var slots, slots', f := fs[d].slots, fs'[d].slots, FreeSlot(fs[d].slots);
    forall n ensures Lookup(fs', d, n) == if n == name then Some(x) else Lookup(fs, d, n) {
      FindFilled(slots, f, name, x, n);
    }
  }

  lemma ParentResolves(fs: FileSystem, path: seq<Name>, d: nat)
    requires path != [] && Parent(fs, path) == Some(d)
    ensures Resolve(fs, ROOT, path[..|path| - 1]) == Some(d)
    ensures Resolve(fs, ROOT, path) == Lookup(fs, d, path[|path| - 1])
  {
    var k := |path| - 1;
    ResolveLast(fs, ROOT, path[..k], path[k]);
    assert path == path[..k] + [path[k]];
  }

  /** All of the path but its last name leads to a directory. */
  ghost predicate HasDirectory(fs: FileSystem, path: seq<Name>) {
    path != [] &&
    var d := Resolve(fs, ROOT, path[..|path| - 1]);
    d.Some? && IsDir(fs, d.value)
  }

  lemma ParentIsDirectory(fs: FileSystem, path: seq<Name>)
    ensures Parent(fs, path).Some? <==> HasDirectory(fs, path)
    ensures Parent(fs, path).Some? ==> Parent(fs, path) == Resolve(fs, ROOT, path[..|path| - 1])
  {}

  /** Create succeeds exactly if the directory exists and the name is free, or a file is asked for and there is one. */
  lemma CreateSucceeds(fs: FileSystem, path: seq<Name>, kind: Kind, x: nat)
    requires Inv(fs)
    ensures var y := Resolve(fs, ROOT, path);
      Create(fs, path, kind, x).answer.Ok? <==>
        HasDirectory(fs, path) && (y == None || (kind == T_FILE && y.value in fs && fs[y.value].File?))
    ensures !Create(fs, path, kind, x).answer.Ok? ==> Create(fs, path, kind, x) == Outcome(fs, Failed)
  {
    ParentIsDirectory(fs, path);
    hide Inv, Resolve, Parent, HasDirectory;
    if Parent(fs, path).Some? {
      ParentResolves(fs, path, Parent(fs, path).value);
    }
  }

  /** Link succeeds exactly if the old path leads to a file, and the new name is free in a directory of the device. */
  lemma LinkSucceeds(fs: FileSystem, old_: seq<Name>, new_: seq<Name>, sameDev: bool)
    requires Inv(fs)
    ensures var x := Resolve(fs, ROOT, old_);
      Link(fs, old_, new_, sameDev).answer.Ok? <==>
        x.Some? && !IsDir(fs, x.value) && HasDirectory(fs, new_) && Resolve(fs, ROOT, new_) == None && sameDev
    ensures !Link(fs, old_, new_, sameDev).answer.Ok? ==> Link(fs, old_, new_, sameDev) == Outcome(fs, Failed)
  {
    ParentIsDirectory(fs, new_);
    RootLinked(fs);
    if Resolve(fs, ROOT, old_).Some? {
      ResolvedLinked(fs, ROOT, old_);
    }
    hide Inv, Resolve, Parent, HasDirectory;
    if Parent(fs, new_).Some? {
      ParentResolves(fs, new_, Parent(fs, new_).value);
    }
  }

  /** No name but the dots leads anywhere. */
  ghost predicate NoNames(fs: FileSystem, d: nat) {
    forall n :: n != DOT && n != DOTDOT ==> Lookup(fs, d, n) == None
  }

  lemma EmptyIffNoNames(fs: FileSystem, d: nat)
    requires Inv(fs) && IsDir(fs, d)
    ensures IsEmpty(fs[d].slots) <==> NoNames(fs, d)
  {
    if IsEmpty(fs[d].slots) {
      forall n | n != DOT && n != DOTDOT ensures Lookup(fs, d, n) == None {
        if Find(fs[d].slots, n).Some? {
          DotsFirst(fs, d, Find(fs[d].slots, n).value);
        }
      }
    } else {
      var i :| 2 <= i < |fs[d].slots| && fs[d].slots[i].inum != 0;
      UniqueName(fs, d, i);
      assert Lookup(fs, d, fs[d].slots[i].name) != None;
    }
  }

  /**
   Unlink succeeds exactly if the path leads somewhere by a name that is no dot, and not to a directory in which a name
   leads somewhere.
   */
  lemma UnlinkSucceeds(fs: FileSystem, path: seq<Name>)
    requires Inv(fs)
    ensures var x := Resolve(fs, ROOT, path);
      Unlink(fs, path).answer.Ok? <==>
        && path != [] && path[|path| - 1] != DOT && path[|path| - 1] != DOTDOT && x.Some? && HasDirectory(fs, path)
        && !(IsDir(fs, x.value) && !NoNames(fs, x.value))
    ensures !Unlink(fs, path).answer.Ok? ==> Unlink(fs, path) == Outcome(fs, Failed)
  {
    ParentIsDirectory(fs, path);
    StepInv(fs, DoUnlink(path));
    RootLinked(fs);
    if Resolve(fs, ROOT, path).Some? {
      ResolvedLinked(fs, ROOT, path);
      if IsDir(fs, Resolve(fs, ROOT, path).value) {
        EmptyIffNoNames(fs, Resolve(fs, ROOT, path).value);
      }
    }
    hide Inv, Resolve, Parent, HasDirectory, Removed, IsEmpty, NoNames;
    if Parent(fs, path).Some? {
      ParentResolves(fs, path, Parent(fs, path).value);
    }
  }

  ghost predicate OfKind(i: Inode, kind: Kind) {
    match kind
    case T_FILE => i.File?
    case T_DEV => i.Dev?
    case T_DIR => i.Dir?
  }

  /**
   A create that succeeds on a free name makes exactly one inode, of the kind asked for and with one link; a new
   directory holds the two dots, for itself and for the directory it was made in.
   */
  lemma CreateMakes(fs: FileSystem, path: seq<Name>, kind: Kind, x: nat)
    requires Inv(fs) && x != 0 && x !in fs && Parent(fs, path).Some? && Resolve(fs, ROOT, path) == None
    ensures var fs' := Create(fs, path, kind, x).fs;
      && Create(fs, path, kind, x).answer == Ok(x) && fs'.Keys == fs.Keys + {x}
      && OfKind(fs'[x], kind) && fs'[x].nlink == 1
      && (kind == T_DIR ==>
            && Lookup(fs', x, DOT) == Some(x) && Lookup(fs', x, DOTDOT) == Parent(fs, path) && NoNames(fs', x))
  {
    hide Inv, Resolve, Parent, Create, Lookup, NoNames;
    var d := Parent(fs, path).value;
    OneOkNonzero(fs, d);
    ParentResolves(fs, path, d);
    CreateDone(fs, path, kind, x, d);
    if kind == T_DIR {
      TwoDots(Create(fs, path, kind, x).fs, x, d);
    }
  }

  lemma CreateDone(fs: FileSystem, path: seq<Name>, kind: Kind, x: nat, d: nat)
    requires path != [] && Parent(fs, path) == Some(d) && Lookup(fs, d, path[|path| - 1]) == None && x !in fs
    ensures var fs' := Create(fs, path, kind, x).fs;
      && Create(fs, path, kind, x).answer == Ok(x) && fs'.Keys == fs.Keys + {x}
      && fs'[x] == NewInode(kind, x, d, fs[d].depth + 1)
  {
    hide Parent, Find, SlotSet, FreeSlot, NewInode;
  }

  lemma TwoDots(fs: FileSystem, x: nat, d: nat)
    requires IsDir(fs, x) && x != 0 && d != 0 && fs[x].slots == [Slot(DOT, x), Slot(DOTDOT, d)]
    ensures Lookup(fs, x, DOT) == Some(x) && Lookup(fs, x, DOTDOT) == Some(d) && NoNames(fs, x)
  {
    var slots := fs[x].slots;
    assert slots[1..] == [slots[1]] && slots[1..][1..] == [];
  }

  /** A create of a file that is there already answers it and changes nothing: so does the second of two creates. */
  lemma CreateAgain(fs: FileSystem, path: seq<Name>, x: nat, y: nat)
    requires Inv(fs) && x != 0 && x !in fs && Parent(fs, path).Some? && Resolve(fs, ROOT, path) == None
    ensures var fs' := Create(fs, path, T_FILE, x).fs; Create(fs', path, T_FILE, y) == Outcome(fs', Ok(x))
  {
    CreateMakes(fs, path, T_FILE, x);
    CreateResolves(fs, path, T_FILE, x);
    StepInv(fs, DoCreate(path, T_FILE, x));
    hide Inv, Resolve, Parent, Grows;
    var fs' := Create(fs, path, T_FILE, x).fs;
    ParentStays(fs, path, T_FILE, x);
    CreateSucceeds(fs', path, T_FILE, y);
    ParentResolves(fs', path, Parent(fs', path).value);
  }

  lemma ParentStays(fs: FileSystem, path: seq<Name>, kind: Kind, x: nat)
    requires Inv(fs) && x != 0 && x !in fs && Parent(fs, path).Some? && Create(fs, path, kind, x).answer.Ok?
    ensures Parent(Create(fs, path, kind, x).fs, path) == Parent(fs, path)
  {
    CreateResolves(fs, path, kind, x);
    hide Inv, Resolve, Grows;
    assert IsDir(Create(fs, path, kind, x).fs, Parent(fs, path).value);
    ParentGrows(fs, Create(fs, path, kind, x).fs, path);
  }

  /** No call removes an inode or changes what it is. */
  lemma KindStays(fs: FileSystem, op: Op, y: nat, kind: Kind)
    requires Inv(fs) && Allowed(fs, op) && y in fs && OfKind(fs[y], kind)
    ensures y in Apply(fs, op).fs && OfKind(Apply(fs, op).fs[y], kind)
  {
    hide Inv, Resolve, Find, SlotSet, FreeSlot;
  }

  lemma {:induction false} KindsStay(fs: FileSystem, ops: seq<Op>, y: nat, kind: Kind)
    requires Inv(fs) && Possible(fs, ops) && y in fs && OfKind(fs[y], kind)
    ensures y in Run(fs, ops).fs && OfKind(Run(fs, ops).fs[y], kind)
    decreases |ops|
  {
    hide Inv, Apply, OfKind;
    if ops != [] {
      StepInv(fs, ops[0]);
      KindStays(fs, ops[0], y, kind);
      if ops[1..] != [] {
        KindsStay(Apply(fs, ops[0]).fs, ops[1..], y, kind);
      }
    }
  }

  /** A call to create that succeeds makes its path lead to the inode it returns. */
  lemma CreateResolves(fs: FileSystem, path: seq<Name>, kind: Kind, x: nat)
    requires Inv(fs) && x != 0 && x !in fs && Create(fs, path, kind, x).answer.Ok?
    ensures Resolve(Create(fs, path, kind, x).fs, ROOT, path) == Some(Create(fs, path, kind, x).answer.inum)
    ensures Grows(fs, Create(fs, path, kind, x).fs)
  {
    hide Inv;
    var r := Create(fs, path, kind, x);
    var d, name := Parent(fs, path).value, path[|path| - 1];
    if Find(fs[d].slots, name).None? {
      AddedName(fs, r.fs, d, name, x);
    }
    ParentGrows(fs, r.fs, path);
  }

  /** What a link that succeeds has found and done. */
  lemma LinkDone(fs: FileSystem, old_: seq<Name>, new_: seq<Name>)
    requires Link(fs, old_, new_, true).answer.Ok?
    ensures Resolve(fs, ROOT, old_).Some? && Parent(fs, new_).Some? && new_ != []
    ensures var x, d := Resolve(fs, ROOT, old_).value, Parent(fs, new_).value;
      && x in fs && !fs[x].Dir? && IsDir(fs, d) && x != d && Find(fs[d].slots, new_[|new_| - 1]) == None
      && Link(fs, old_, new_, true).fs == AddEntry(SetNlink(fs, x, fs[x].nlink + 1), d, new_[|new_| - 1], x)
  {
    hide Resolve, Parent, Find;
  }

  /** The path that a name is added to led nowhere before, and leads to the inode now. */
  lemma NewPath(fs: FileSystem, fs': FileSystem, path: seq<Name>, d: nat, x: nat)
    requires path != [] && Parent(fs, path) == Some(d) && IsDir(fs', d) && Grows(fs, fs')
      && OneName(fs, fs', d, path[|path| - 1], x)
    ensures Resolve(fs, ROOT, path) == None && Resolve(fs', ROOT, path) == Some(x) && Parent(fs', path) == Some(d)
  {
    hide Grows, Find;
    var k := |path| - 1;
    ParentGrows(fs, fs', path);
    ResolveLast(fs, ROOT, path[..k], path[k]);
    assert path == path[..k] + [path[k]];
  }

  lemma LinkKeepsParent(fs: FileSystem, fs1: FileSystem, new_: seq<Name>, d: nat, name: Name, x: nat)
    requires Parent(fs, new_) == Some(d) && name == new_[|new_| - 1] && x in fs && x != d && !fs[x].Dir? && x != 0
    requires Find(fs[d].slots, name) == None
    requires fs1 == AddEntry(SetNlink(fs, x, fs[x].nlink + 1), d, name, x)
    ensures IsDir(fs1, d) && Parent(fs1, new_) == Some(d) && OneName(fs, fs1, d, name, x) && Grows(fs, fs1)
  {
    hide Resolve;
    AddedName(fs, fs1, d, name, x);
    ParentGrows(fs, fs1, new_);
  }

  /** A link that succeeds makes both paths lead to the same inode, which is no directory. */
  lemma LinkResolves(fs: FileSystem, old_: seq<Name>, new_: seq<Name>)
    requires Inv(fs) && Link(fs, old_, new_, true).answer.Ok?
    ensures var fs' := Link(fs, old_, new_, true).fs;
      && Resolve(fs, ROOT, old_).Some? && Parent(fs, new_).Some? && new_ != []
      && Resolve(fs', ROOT, old_) == Resolve(fs, ROOT, old_) == Resolve(fs', ROOT, new_)
      && Resolve(fs, ROOT, new_) == None
      && OneName(fs, fs', Parent(fs, new_).value, new_[|new_| - 1], Resolve(fs, ROOT, old_).value)
  {
    hide Inv, Resolve, Parent, OneName, Grows, Link, AddEntry, SetNlink, Find;
    LinkDone(fs, old_, new_);
    var fs' := Link(fs, old_, new_, true).fs;
    var x, d, name := Resolve(fs, ROOT, old_).value, Parent(fs, new_).value, new_[|new_| - 1];
    OneOkNonzero(fs, x);
    LinkKeepsParent(fs, fs', new_, d, name, x);
    ResolveGrows(fs, fs', ROOT, old_);
    NewPath(fs, fs', new_, d, x);
  }

  lemma OneOkNonzero(fs: FileSystem, x: nat)
    requires Inv(fs) && x in fs
    ensures x != 0
  {
    OneOk(fs, x);
  }

  lemma RemovedSlots(fs: FileSystem, d: nat, i: nat, x: nat)
    requires IsDir(fs, d) && i < |fs[d].slots| && x in fs
    ensures var fs' := Removed(fs, d, i, x);
      && fs'.Keys == fs.Keys && IsDir(fs', d) && fs'[d].slots == fs[d].slots[i := Slot("", 0)]
      && forall e :: e != d ==> IsDir(fs', e) == IsDir(fs, e) && (IsDir(fs, e) ==> fs'[e].slots == fs[e].slots)
  {}

  lemma RemovedLookup(fs: FileSystem, d: nat, i: nat, x: nat, e: nat, n: Name)
    requires Inv(fs) && IsDir(fs, d) && 2 <= i < |fs[d].slots| && fs[d].slots[i].inum == x && x != 0 && x in fs
    ensures Lookup(Removed(fs, d, i, x), e, n) == if e == d && n == fs[d].slots[i].name then None else Lookup(fs, e, n)
  {
    hide Inv, Removed, Find;
    RemovedSlots(fs, d, i, x);
    if e == d {
      UniqueName(fs, d, i);
      LaterNames(fs, d, i);
      FindCleared(fs[d].slots, i, n);
    }
  }

  lemma RemovedName(fs: FileSystem, d: nat, i: nat, x: nat)
    requires Inv(fs) && IsDir(fs, d) && 2 <= i < |fs[d].slots| && fs[d].slots[i].inum == x && x != 0 && x in fs
    ensures IsDir(Removed(fs, d, i, x), d)
    ensures OneName(Removed(fs, d, i, x), fs, d, fs[d].slots[i].name, x)
    ensures Grows(Removed(fs, d, i, x), fs)
  {
    var fs', name := Removed(fs, d, i, x), fs[d].slots[i].name;
    RemovedSlots(fs, d, i, x);
    UniqueName(fs, d, i);
    assert Lookup(fs, d, name) == Some(x);
    hide Inv, Removed, Find, Lookup;
    forall e, n ensures Lookup(fs', e, n) == if e == d && n == name then None else Lookup(fs, e, n) {
      RemovedLookup(fs, d, i, x, e, n);
    }
  }

  lemma LaterNames(fs: FileSystem, d: nat, i: nat)
    requires Inv(fs) && IsDir(fs, d) && 2 <= i < |fs[d].slots| && fs[d].slots[i].inum != 0
    ensures forall j :: i < j < |fs[d].slots| && fs[d].slots[j].inum != 0 ==> fs[d].slots[j].name != fs[d].slots[i].name
  {
    OneOk(fs, d);
  }

  /** What an unlink that succeeds has found and done. */
  lemma UnlinkDone(fs: FileSystem, path: seq<Name>) returns (d: nat, i: nat, x: nat)
    requires Unlink(fs, path).answer.Ok?
    ensures path != [] && Parent(fs, path) == Some(d) && IsDir(fs, d) && Find(fs[d].slots, path[|path| - 1]) == Some(i)
    ensures fs[d].slots[i].inum == x && x != 0 && x in fs && fs[d].slots[i].name == path[|path| - 1]
    ensures path[|path| - 1] != DOT && path[|path| - 1] != DOTDOT
    ensures Unlink(fs, path).fs == Removed(fs, d, i, x)
  {
    hide Removed;
    d := Parent(fs, path).value;
    i := Find(fs[d].slots, path[|path| - 1]).value;
    x := fs[d].slots[i].inum;
  }

  /** After an unlink that succeeds its path leads nowhere, and no other name leads elsewhere. */
  lemma UnlinkResolves(fs: FileSystem, path: seq<Name>)
    requires Inv(fs) && Unlink(fs, path).answer.Ok?
    ensures var fs' := Unlink(fs, path).fs;
      && path != [] && Parent(fs, path).Some?
      && Resolve(fs, ROOT, path).Some? && Resolve(fs', ROOT, path) == None
      && OneName(fs', fs, Parent(fs, path).value, path[|path| - 1], Resolve(fs, ROOT, path).value)
  {
    hide Inv, Unlink, Removed, Resolve, Parent, Find, Grows;
    var d, i, x := UnlinkDone(fs, path);
    var k := |path| - 1;
    var fs' := Removed(fs, d, i, x);
    DotsFirst(fs, d, i);
    RemovedName(fs, d, i, x);
    ParentResolves(fs, path, d);
    ResolveLast(fs', ROOT, path[..k], path[k]);
    assert path == path[..k] + [path[k]];
    if Resolve(fs', ROOT, path[..k]).Some? {
      ResolveGrows(fs', fs, ROOT, path[..k]);
    }
  }

  lemma LinkedName(fs: FileSystem, old_: seq<Name>, new_: seq<Name>)
    requires Inv(fs) && Link(fs, old_, new_, true).answer.Ok?
    ensures var d, name, x := Parent(fs, new_).value, new_[|new_| - 1], Resolve(fs, ROOT, old_).value;
      && IsDir(fs, d) && x in fs && x != d && fs[x].nlink >= 0 && !fs[x].Dir? && name != DOT && name != DOTDOT
      && 2 <= FreeSlot(fs[d].slots) <= |fs[d].slots|
      && Find(SlotSet(fs[d].slots, FreeSlot(fs[d].slots), Slot(name, x)), name) == Some(FreeSlot(fs[d].slots))
  {
    var d, name, x := Parent(fs, new_).value, new_[|new_| - 1], Resolve(fs, ROOT, old_).value;
    OneOk(fs, x);
    OneOk(fs, d);
    ParentLinked(fs, new_);
    OwnParent(fs, d);
    DotNames(fs, d);
    FreeIsNamed(fs, d);
    FindFilled(fs[d].slots, FreeSlot(fs[d].slots), name, x, name);
  }

  /** The counts after one more link, and the entry for it, are gone again. */
  lemma CountsRestored(fs: FileSystem, fs1: FileSystem, d: nat, name: Name, x: nat, i: nat)
    requires IsDir(fs, d) && x in fs && x != d && !fs[x].Dir? && i == FreeSlot(fs[d].slots)
    requires fs1 == AddEntry(SetNlink(fs, x, fs[x].nlink + 1), d, name, x)
    ensures IsDir(fs1, d) && i < |fs1[d].slots| && fs1[d].slots[i] == Slot(name, x) && x in fs1
    ensures var fs2 := Removed(fs1, d, i, x);
      fs2.Keys == fs.Keys && (forall y :: y in fs ==> fs2[y].nlink == fs[y].nlink)
  {
    assert fs1.Keys == fs.Keys;
  }

  lemma UnlinkFinds(fs1: FileSystem, path: seq<Name>, d: nat, i: nat, x: nat)
    requires Parent(fs1, path) == Some(d) && i < |fs1[d].slots| && Find(fs1[d].slots, path[|path| - 1]) == Some(i)
    requires fs1[d].slots[i].inum == x && x in fs1 && fs1[x].nlink >= 1 && !fs1[x].Dir?
    requires path[|path| - 1] != DOT && path[|path| - 1] != DOTDOT
    ensures Unlink(fs1, path) == Outcome(Removed(fs1, d, i, x), Ok(d))
  {}

  lemma NamesRestored(fs: FileSystem, fs1: FileSystem, fs2: FileSystem, d: nat, name: Name, x: nat)
    requires OneName(fs, fs1, d, name, x) && OneName(fs2, fs1, d, name, x) && fs2.Keys == fs.Keys
    ensures forall e, n :: e in fs ==> Lookup(fs2, e, n) == Lookup(fs, e, n)
  {
    hide Lookup;
    forall e, n | e in fs ensures Lookup(fs2, e, n) == Lookup(fs, e, n) {
      assert e in fs2.Keys;
      if (e, n) != (d, name) {
        assert Lookup(fs1, e, n) == Lookup(fs, e, n);
      }
    }
  }

  /** Unlinking a name that was just linked gives back every link count and every name. */
  lemma UnlinkUndoesLink(fs: FileSystem, old_: seq<Name>, new_: seq<Name>)
    requires Inv(fs) && Link(fs, old_, new_, true).answer.Ok?
    ensures var r := Unlink(Link(fs, old_, new_, true).fs, new_);
      && r.answer == Link(fs, old_, new_, true).answer
      && r.fs.Keys == fs.Keys
      && (forall y :: y in fs ==> r.fs[y].nlink == fs[y].nlink)
      && (forall e, n :: e in fs ==> Lookup(r.fs, e, n) == Lookup(fs, e, n))
  {
    hide Inv, Resolve, Unlink, Removed, OneName, Lookup;
    var fs1 := Link(fs, old_, new_, true).fs;
    var d, name, x := Parent(fs, new_).value, new_[|new_| - 1], Resolve(fs, ROOT, old_).value;
    var i := FreeSlot(fs[d].slots);
    LinkedName(fs, old_, new_);
    StepInv(fs, DoLink(old_, new_, true));
    OneOkNonzero(fs, x);
    CountsRestored(fs, fs1, d, name, x, i);
    LinkKeepsParent(fs, fs1, new_, d, name, x);
    UnlinkFinds(fs1, new_, d, i, x);
    RemovedName(fs1, d, i, x);
    NamesRestored(fs, fs1, Removed(fs1, d, i, x), d, name, x);
  }
}
