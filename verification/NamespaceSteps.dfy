/** Every call keeps the invariant of the directory tree, and none panics. */
module NamespaceSteps {
  import opened Options
  import opened Namespace
  import opened NamespaceInvariant

  /** Slot `i` of directory `d` becomes `slot`; no other directory changes its slots, and new ones are empty. */
  ghost predicate OneSlot(fs: FileSystem, fs': FileSystem, d: nat, i: nat, slot: Slot) {
    && IsDir(fs, d) && IsDir(fs', d) && 2 <= i <= |fs[d].slots| && fs'[d].slots == SlotSet(fs[d].slots, i, slot)
    && (forall e :: e in fs ==> e in fs' && fs'[e].Dir? == fs[e].Dir? && (fs[e].Dir? ==> fs'[e].depth == fs[e].depth))
    && (forall e :: IsDir(fs, e) && e != d ==> fs'[e].slots == fs[e].slots)
    && (forall e :: IsDir(fs', e) && e !in fs ==> |fs'[e].slots| == 2)
  }

  ghost function Only(b: bool, e: (nat, nat)): set<(nat, nat)> {
    if b then {e} else {}
  }

  lemma EntriesAfter(fs: FileSystem, fs': FileSystem, d: nat, i: nat, slot: Slot, x: nat)
    requires OneSlot(fs, fs', d, i, slot)
    ensures Entries(fs', x) == Entries(fs, x) - {(d, i)} + Only(slot.inum == x, (d, i))
  {}

  lemma EntriesSame(fs: FileSystem, fs': FileSystem, d: nat, i: nat, slot: Slot, y: nat)
    requires OneSlot(fs, fs', d, i, slot) && slot.inum != y && (i < |fs[d].slots| ==> fs[d].slots[i].inum != y)
    ensures Entries(fs', y) == Entries(fs, y)
  {
    EntriesAfter(fs, fs', d, i, slot, y);
  }

  lemma ChildrenKept(fs: FileSystem, fs': FileSystem, d: nat, i: nat, slot: Slot, y: nat)
    requires OneSlot(fs, fs', d, i, slot) && IsDir(fs, y) && y != d && SlotsOk(fs, y, fs[y].slots)
    requires 0 !in fs'
    ensures IsDir(fs', y) && fs'[y].slots == fs[y].slots && fs'[y].depth == fs[y].depth
      && Children(fs', y) == Children(fs, y)
    ensures SlotsOk(fs', y, fs'[y].slots)
  {
    assert 0 !in fs;
  }

  /** If `y` is in the tree then so is still its parent. */
  ghost predicate ParentKept(fs: FileSystem, fs': FileSystem, y: nat) {
    IsDir(fs, y) && y != ROOT && fs[y].nlink > 0 && |fs[y].slots| >= 2 ==>
      var p := fs[y].slots[1].inum; Linked(fs, p) ==> Linked(fs', p)
  }

  /** Directory `y` keeps its slots, its link count and its one entry. */
  lemma DirKept(fs: FileSystem, fs': FileSystem, d: nat, i: nat, slot: Slot, y: nat)
    requires OneSlot(fs, fs', d, i, slot) && IsDir(fs, y) && y != d && DirOk(fs, y) && 0 !in fs'
    requires fs'[y].nlink == fs[y].nlink && Entries(fs', y) == Entries(fs, y)
    requires ParentKept(fs, fs', y)
    ensures IsDir(fs', y) && DirOk(fs', y)
  {
    hide Entries, Children, SlotsOk;
    assert |fs[y].slots| >= 2 by { SlotsLong(fs, y); }
    ChildrenKept(fs, fs', d, i, slot, y);
  }

  lemma SlotsLong(fs: FileSystem, d: nat)
    requires IsDir(fs, d) && SlotsOk(fs, d, fs[d].slots)
    ensures |fs[d].slots| >= 2 && fs[d].slots[0] == Slot(DOT, d)
  {}

  lemma DirLong(fs: FileSystem, d: nat)
    requires IsDir(fs, d) && DirOk(fs, d)
    ensures |fs[d].slots| >= 2
  {}

  /** Nothing that concerns inode `y` has changed. */
  lemma UntouchedInode(fs: FileSystem, fs': FileSystem, d: nat, i: nat, slot: Slot, y: nat)
    requires OneSlot(fs, fs', d, i, slot) && y in fs && InodeOk(fs, y) && y != d && fs'[y].nlink == fs[y].nlink
      && 0 !in fs'
    requires slot.inum != y && (i < |fs[d].slots| ==> fs[d].slots[i].inum != y)
    requires ParentKept(fs, fs', y)
    ensures InodeOk(fs', y)
  {
    hide DirOk, Children;
    hide Entries;
    EntriesSame(fs, fs', d, i, slot, y);
    if fs[y].Dir? {
      DirLong(fs, y);
      DirKept(fs, fs', d, i, slot, y);
    }
  }

  lemma FoundNowhere(slots: seq<Slot>, name: Name)
    requires Find(slots, name) == None
    ensures forall i :: 0 <= i < |slots| && slots[i].inum != 0 ==> slots[i].name != name
  {}

  lemma FreeIsNamed(fs: FileSystem, d: nat)
    requires IsDir(fs, d) && SlotsOk(fs, d, fs[d].slots) && d != 0
    ensures 2 <= FreeSlot(fs[d].slots) <= |fs[d].slots|
  {
    var slots := fs[d].slots;
    assert slots[1..][0] == slots[1];
  }

  /** The slots of the directory that gets a new entry. */
  lemma SlotsFilled(fs: FileSystem, fs': FileSystem, d: nat, i: nat, slot: Slot)
    requires OneSlot(fs, fs', d, i, slot) && SlotsOk(fs, d, fs[d].slots) && Find(fs[d].slots, slot.name) == None
    requires slot.inum in fs'
    ensures SlotsOk(fs', d, fs'[d].slots)
  {
    FoundNowhere(fs[d].slots, slot.name);
  }

  lemma ChildrenFilled(fs: FileSystem, fs': FileSystem, d: nat, i: nat, slot: Slot)
    requires OneSlot(fs, fs', d, i, slot) && SlotsOk(fs, d, fs[d].slots)
      && (i < |fs[d].slots| ==> fs[d].slots[i].inum == 0)
    requires 0 !in fs' && slot.inum in fs'
    ensures |Children(fs', d)| == |Children(fs, d)| + if fs'[slot.inum].Dir? then 1 else 0
  {
    assert 0 !in fs;
    var a, b := Children(fs, d), Children(fs', d);
    forall j: nat ensures j in b <==> j in a || (j == i && fs'[slot.inum].Dir?) {
      ChildAfter(fs, fs', d, i, slot, j);
    }
    assert i !in a;
    hide Children, OneSlot, SlotsOk;
    assert b == a + if fs'[slot.inum].Dir? then {i} else {};
  }

  lemma ChildAfter(fs: FileSystem, fs': FileSystem, d: nat, i: nat, slot: Slot, j: nat)
    requires OneSlot(fs, fs', d, i, slot) && SlotsOk(fs, d, fs[d].slots)
      && (i < |fs[d].slots| ==> fs[d].slots[i].inum == 0)
    requires 0 !in fs' && slot.inum in fs'
    ensures j in Children(fs', d) <==> j in Children(fs, d) || (j == i && fs'[slot.inum].Dir?)
  {
    var slots, slots' := fs[d].slots, fs'[d].slots;
    if j == i {
      assert slots'[i] == slot;
    } else if j < |slots| {
      assert slots'[j] == slots[j];
    }
  }

  /** The directory that gets a new entry is still in the tree. */
  lemma DirFilled(fs: FileSystem, fs': FileSystem, d: nat, i: nat, slot: Slot)
    requires OneSlot(fs, fs', d, i, slot) && InodeOk(fs, d) && fs[d].nlink > 0 && Find(fs[d].slots, slot.name) == None
    requires (i < |fs[d].slots| ==> fs[d].slots[i].inum == 0) && 0 !in fs' && slot.inum in fs' && slot.inum != d
    requires fs'[d].nlink == fs[d].nlink + if fs'[slot.inum].Dir? then 1 else 0
    requires d != ROOT ==> |fs[d].slots| >= 2 && fs[d].slots[1].inum != d && ParentKept(fs, fs', d)
    ensures InodeOk(fs', d)
  {
    hide Entries, Children, SlotsOk;
    EntriesSame(fs, fs', d, i, slot, d);
    SlotsFilled(fs, fs', d, i, slot);
    ChildrenFilled(fs, fs', d, i, slot);
    SlotsLong(fs, d);
  }

  lemma OneOk(fs: FileSystem, x: nat)
    requires Inv(fs) && x in fs
    ensures InodeOk(fs, x) && 0 !in fs && IsDir(fs, ROOT)
  {}

  /** A directory in the tree is not its own parent, unless it is the root. */
  lemma OwnParent(fs: FileSystem, d: nat)
    requires IsDir(fs, d) && InodeOk(fs, d) && fs[d].nlink > 0
    ensures SlotsOk(fs, d, fs[d].slots) && |fs[d].slots| >= 2 && (d != ROOT ==> fs[d].slots[1].inum != d)
  {}

  lemma NoEntries(fs: FileSystem, x: nat)
    requires Inv(fs) && x !in fs && x != 0
    ensures Entries(fs, x) == {}
  {
    forall d, i | IsDir(fs, d) && 2 <= i < |fs[d].slots| ensures fs[d].slots[i].inum != x {
      OneOk(fs, d);
    }
  }

  // ---------------------------------------------------------------- link

  lemma LinkAdds(fs: FileSystem, d: nat, name: Name, x: nat, fs': FileSystem)
    requires Inv(fs) && IsDir(fs, d) && Linked(fs, d) && x in fs && !fs[x].Dir? && Find(fs[d].slots, name) == None
    requires fs' == AddEntry(SetNlink(fs, x, fs[x].nlink + 1), d, name, x)
    ensures Inv(fs')
  {
    hide InodeOk, Entries;
    OneOk(fs, d);
    OneOk(fs, x);
    OwnParent(fs, d);
    FreeIsNamed(fs, d);
    var i, slot := FreeSlot(fs[d].slots), Slot(name, x);
    assert OneSlot(fs, fs', d, i, slot);
    forall y | y in fs' ensures InodeOk(fs', y) {
      OneOk(fs, y);
      if y == d {
        DirFilled(fs, fs', d, i, slot);
      } else if y == x {
        EntryGained(fs, fs', d, i, slot);
      } else {
        UntouchedInode(fs, fs', d, i, slot, y);
      }
    }
  }

  /** A file has one more entry and one more link. */
  lemma EntryGained(fs: FileSystem, fs': FileSystem, d: nat, i: nat, slot: Slot)
    requires OneSlot(fs, fs', d, i, slot) && slot.inum in fs && InodeOk(fs, slot.inum) && !fs[slot.inum].Dir?
    requires fs'[slot.inum].nlink == fs[slot.inum].nlink + 1 && (i < |fs[d].slots| ==> fs[d].slots[i].inum == 0)
    ensures InodeOk(fs', slot.inum)
  {
    var x := slot.inum;
    EntriesAfter(fs, fs', d, i, slot, x);
    assert (d, i) !in Entries(fs, x);
    assert Entries(fs', x) == Entries(fs, x) + {(d, i)};
  }

  // ---------------------------------------------------------------- create

  lemma CreateAdds(fs: FileSystem, d: nat, name: Name, kind: Kind, x: nat, fs': FileSystem)
    requires Inv(fs) && IsDir(fs, d) && Linked(fs, d) && x !in fs && x != 0 && Find(fs[d].slots, name) == None
    requires fs' == AddEntry(if kind == T_DIR then SetNlink(fs, d, fs[d].nlink + 1) else fs, d, name, x)
                      [x := NewInode(kind, x, d, fs[d].depth + 1)]
    ensures Inv(fs')
  {
    hide InodeOk, Entries;
    OneOk(fs, d);
    OwnParent(fs, d);
    FreeIsNamed(fs, d);
    var i, slot := FreeSlot(fs[d].slots), Slot(name, x);
    assert OneSlot(fs, fs', d, i, slot);
    forall y | y in fs' ensures InodeOk(fs', y) {
      if y == x {
        NewIsOk(fs, fs', d, i, slot, kind);
      } else {
        OneOk(fs, y);
        if y == d {
          DirFilled(fs, fs', d, i, slot);
        } else {
          UntouchedInode(fs, fs', d, i, slot, y);
        }
      }
    }
  }

  lemma NewIsOk(fs: FileSystem, fs': FileSystem, d: nat, i: nat, slot: Slot, kind: Kind)
    requires Inv(fs) && OneSlot(fs, fs', d, i, slot) && slot.inum !in fs && slot.inum != 0 && slot.inum in fs'
    requires Linked(fs', d) && fs'[slot.inum] == NewInode(kind, slot.inum, d, fs'[d].depth + 1) && d != 0
    ensures InodeOk(fs', slot.inum)
  {
    var x := slot.inum;
    NoEntries(fs, x);
    EntriesAfter(fs, fs', d, i, slot, x);
    assert Entries(fs', x) == {(d, i)};
    if kind == T_DIR {
      assert Children(fs', x) == {};
    }
  }

  // ---------------------------------------------------------------- unlink

  /** An empty directory that has an entry: exactly one link, no children, and the entry is in its parent. */
  lemma EmptyDir(fs: FileSystem, d: nat, i: nat, x: nat)
    requires Inv(fs) && IsDir(fs, d) && 2 <= i < |fs[d].slots| && fs[d].slots[i].inum == x && IsDir(fs, x)
      && IsEmpty(fs[x].slots)
    ensures x != ROOT && x != d && fs[x].nlink == 1 && Entries(fs, x) == {(d, i)}
    ensures |fs[x].slots| >= 2 && fs[x].slots[1].inum == d
    ensures forall y :: y in fs ==>
      !(IsDir(fs, y) && y != ROOT && fs[y].nlink > 0 && |fs[y].slots| >= 2 && fs[y].slots[1].inum == x)
  {
    OneOk(fs, x);
    assert (d, i) in Entries(fs, x);
    assert x != ROOT;
    assert Entries(fs, x) == {(d, i)} by {
      OnlyElement(Entries(fs, x), (d, i));
    }
    assert Children(fs, x) == {};
    forall y | y in fs && IsDir(fs, y) && y != ROOT && fs[y].nlink > 0 && |fs[y].slots| >= 2
      ensures fs[y].slots[1].inum != x
    {
      OneOk(fs, y);
      var e := AnElement(Entries(fs, y));
    }
  }

  lemma OnlyElement<T>(s: set<T>, x: T)
    requires x in s && |s| == 1
    ensures s == {x}
  {
    assert |s - {x}| == 0;
  }

  lemma AnElement<T>(s: set<T>) returns (x: T)
    requires |s| >= 1
    ensures x in s
  {
    x :| x in s;
  }

  lemma SlotsCleared(fs: FileSystem, fs': FileSystem, d: nat, i: nat)
    requires OneSlot(fs, fs', d, i, Slot("", 0)) && SlotsOk(fs, d, fs[d].slots)
    ensures SlotsOk(fs', d, fs'[d].slots)
  {}

  lemma ChildrenCleared(fs: FileSystem, fs': FileSystem, d: nat, i: nat)
    requires OneSlot(fs, fs', d, i, Slot("", 0)) && SlotsOk(fs, d, fs[d].slots) && 0 !in fs' && i < |fs[d].slots|
    ensures |Children(fs', d)| == |Children(fs, d)| - if IsDir(fs, fs[d].slots[i].inum) then 1 else 0
  {
    assert 0 !in fs;
    assert Children(fs', d) == Children(fs, d) - {i};
  }

  lemma DirCleared(fs: FileSystem, fs': FileSystem, d: nat, i: nat)
    requires OneSlot(fs, fs', d, i, Slot("", 0)) && InodeOk(fs, d) && fs[d].nlink > 0 && 0 !in fs'
    requires i < |fs[d].slots| && fs[d].slots[i].inum != d
    requires fs'[d].nlink == fs[d].nlink - if IsDir(fs, fs[d].slots[i].inum) then 1 else 0
    requires d != ROOT ==> ParentKept(fs, fs', d)
    ensures InodeOk(fs', d)
  {
    hide Entries, Children, SlotsOk;
    OwnParent(fs, d);
    EntriesSame(fs, fs', d, i, Slot("", 0), d);
    SlotsCleared(fs, fs', d, i);
    ChildrenCleared(fs, fs', d, i);
    SlotsLong(fs, d);
  }

  lemma FileLoses(fs: FileSystem, fs': FileSystem, d: nat, i: nat, x: nat)
    requires OneSlot(fs, fs', d, i, Slot("", 0)) && x in fs && InodeOk(fs, x) && !fs[x].Dir? && x != 0
    requires i < |fs[d].slots| && fs[d].slots[i].inum == x && fs'[x].nlink == fs[x].nlink - 1
    ensures InodeOk(fs', x)
  {
    EntriesAfter(fs, fs', d, i, Slot("", 0), x);
    assert (d, i) in Entries(fs, x);
    assert Entries(fs', x) == Entries(fs, x) - {(d, i)};
  }

  lemma DirGoes(fs: FileSystem, fs': FileSystem, d: nat, i: nat, x: nat)
    requires OneSlot(fs, fs', d, i, Slot("", 0)) && IsDir(fs, x) && InodeOk(fs, x) && IsEmpty(fs[x].slots) && 0 !in fs'
    requires x != ROOT && x != d && fs[x].nlink == 1 && Entries(fs, x) == {(d, i)} && fs'[x].nlink == 0
    ensures InodeOk(fs', x)
  {
    EntriesAfter(fs, fs', d, i, Slot("", 0), x);
    assert Entries(fs', x) == {};
    ChildrenKept(fs, fs', d, i, Slot("", 0), x);
  }

  lemma UnlinkRemoves(fs: FileSystem, d: nat, i: nat, x: nat, fs': FileSystem)
    requires Inv(fs) && IsDir(fs, d) && Linked(fs, d) && 2 <= i < |fs[d].slots| && fs[d].slots[i].inum == x && x in fs
      && fs[x].nlink >= 1
    requires fs[x].Dir? ==> IsEmpty(fs[x].slots)
    requires fs' == Removed(fs, d, i, x)
    ensures Inv(fs')
  {
    hide InodeOk, Entries;
    OneOk(fs, d);
    OneOk(fs, x);
    OwnParent(fs, d);
    if fs[x].Dir? {
      EmptyDir(fs, d, i, x);
    }
    assert x != d;
    assert OneSlot(fs, fs', d, i, Slot("", 0));
    forall y | y in fs' ensures InodeOk(fs', y) {
      OneOk(fs, y);
      if y == d {
        ParentsKept(fs, fs', d, i, x, d);
        DirCleared(fs, fs', d, i);
      } else if y == x {
        if fs[x].Dir? { DirGoes(fs, fs', d, i, x); } else { FileLoses(fs, fs', d, i, x); }
      } else {
        ParentsKept(fs, fs', d, i, x, y);
        UntouchedInode(fs, fs', d, i, Slot("", 0), y);
      }
    }
  }

  lemma ParentHasChild(fs: FileSystem, d: nat, i: nat)
    requires Inv(fs) && IsDir(fs, d) && fs[d].nlink > 0 && 2 <= i < |fs[d].slots| && IsDir(fs, fs[d].slots[i].inum)
    ensures fs[d].nlink >= 2
  {
    OneOk(fs, d);
    assert i in Children(fs, d);
    assert |Children(fs, d)| >= 1;
  }

  lemma RemovedCounts(fs: FileSystem, d: nat, i: nat, x: nat, p: nat)
    requires IsDir(fs, d) && i < |fs[d].slots| && x in fs && x != d && Linked(fs, p) && p != x
    requires fs[x].Dir? ==> fs[d].nlink >= 2
    ensures Linked(Removed(fs, d, i, x), p)
  {}

  lemma ParentsKept(fs: FileSystem, fs': FileSystem, d: nat, i: nat, x: nat, y: nat)
    requires Inv(fs) && IsDir(fs, d) && 2 <= i < |fs[d].slots| && x in fs && fs[d].slots[i].inum == x && y in fs
      && x != d
    requires fs[x].Dir? ==> IsEmpty(fs[x].slots)
    requires fs' == Removed(fs, d, i, x) && fs[d].nlink > 0
    ensures ParentKept(fs, fs', y)
  {
    hide Inv, IsEmpty, Entries, Removed, InodeOk;
    if fs[x].Dir? {
      EmptyDir(fs, d, i, x);
      ParentHasChild(fs, d, i);
    }
    ParentIsDir(fs, y);
    if IsDir(fs, y) && y != ROOT && fs[y].nlink > 0 && |fs[y].slots| >= 2 && Linked(fs, fs[y].slots[1].inum) {
      RemovedCounts(fs, d, i, x, fs[y].slots[1].inum);
    }
  }

  lemma ParentIsDir(fs: FileSystem, y: nat)
    requires Inv(fs) && y in fs
    ensures IsDir(fs, y) && y != ROOT && fs[y].nlink > 0 && |fs[y].slots| >= 2 ==> IsDir(fs, fs[y].slots[1].inum)
  {
    OneOk(fs, y);
  }

  // ---------------------------------------------------------------- every call, every run

  lemma ParentLinked(fs: FileSystem, path: seq<Name>)
    requires Inv(fs) && Parent(fs, path).Some?
    ensures IsDir(fs, Parent(fs, path).value) && Linked(fs, Parent(fs, path).value)
  {
    RootLinked(fs);
    ResolvedLinked(fs, ROOT, path[..|path| - 1]);
  }

  /** No call panics, and the tree and the link counts stay right. */
  lemma StepInv(fs: FileSystem, op: Op)
    requires Inv(fs) && Allowed(fs, op)
    ensures Apply(fs, op).answer != Panic && Inv(Apply(fs, op).fs)
  {
    hide Inv, Resolve;
    match op
    case DoCreate(path, kind, x) =>
      if Parent(fs, path).Some? {
        ParentLinked(fs, path);
        var d := Parent(fs, path).value;
        if Find(fs[d].slots, path[|path| - 1]).None? {
          CreateAdds(fs, d, path[|path| - 1], kind, x, Create(fs, path, kind, x).fs);
        }
      }
    case DoLink(old_, new_, sameDev) =>
      if Parent(fs, new_).Some? && Link(fs, old_, new_, sameDev).answer.Ok? {
        ParentLinked(fs, new_);
        LinkAdds(fs, Parent(fs, new_).value, new_[|new_| - 1], Resolve(fs, ROOT, old_).value,
            Link(fs, old_, new_, sameDev).fs);
      }
    case DoUnlink(path) =>
      if Parent(fs, path).Some? {
        UnlinkStep(fs, path, Parent(fs, path).value);
      }
  }

  lemma UnlinkStep(fs: FileSystem, path: seq<Name>, d: nat)
    requires Inv(fs) && Parent(fs, path) == Some(d)
    ensures Unlink(fs, path).answer != Panic && Inv(Unlink(fs, path).fs)
  {
    hide Inv, Resolve, Removed;
    ParentLinked(fs, path);
    var name := path[|path| - 1];
    if name != DOT && name != DOTDOT && Find(fs[d].slots, name).Some? {
      var i := Find(fs[d].slots, name).value;
      DotsFirst(fs, d, i);
      EntryLinked(fs, d, i);
      var x := fs[d].slots[i].inum;
      if !(fs[x].Dir? && !IsEmpty(fs[x].slots)) {
        UnlinkRemoves(fs, d, i, x, Removed(fs, d, i, x));
      }
    }
  }

  lemma DotsFirst(fs: FileSystem, d: nat, i: nat)
    requires Inv(fs) && IsDir(fs, d) && i < |fs[d].slots| && fs[d].slots[i].name != DOT && fs[d].slots[i].name != DOTDOT
    ensures i >= 2
  {
    hide InTree, Entries, IsEmpty;
    OneOk(fs, d);
    DotNames(fs, d);
  }

  lemma DotNames(fs: FileSystem, d: nat)
    requires IsDir(fs, d) && SlotsOk(fs, d, fs[d].slots)
    ensures |fs[d].slots| >= 2 && fs[d].slots[0].name == DOT && fs[d].slots[1].name == DOTDOT
  {}

  lemma {:induction false} RunInv(fs: FileSystem, ops: seq<Op>)
    requires Inv(fs) && Possible(fs, ops)
    ensures Run(fs, ops).answer != Panic && Inv(Run(fs, ops).fs)
    decreases |ops|
  {
    hide Inv, Apply;
    if ops != [] {
      StepInv(fs, ops[0]);
      if ops[1..] != [] {
        RunInv(Apply(fs, ops[0]).fs, ops[1..]);
      }
    }
  }

  lemma FormattedInv()
    ensures Inv(Formatted())
  {
    var fs := Formatted();
    assert Entries(fs, ROOT) == {};
    assert Children(fs, ROOT) == {};
  }
}
