/** What create, link and unlink keep: link counts, and the shape of the tree. */
module NamespaceInvariant {
  import opened Namespace

  /** The named entries for inode `x`: which directory, which slot. */
  ghost function Entries(fs: FileSystem, x: nat): set<(nat, nat)> {
    set d, i | d in fs && fs[d].Dir? && 2 <= i < |fs[d].slots| && fs[d].slots[i].inum == x :: (d, i)
  }

  /** The slots of directory `d` that name directories. */
  ghost function Children(fs: FileSystem, d: nat): set<nat>
    requires IsDir(fs, d)
  {
    set i: nat | 2 <= i < |fs[d].slots| && IsDir(fs, fs[d].slots[i].inum)
  }

  ghost predicate SlotsOk(fs: FileSystem, d: nat, slots: seq<Slot>) {
    && |slots| >= 2 && slots[0] == Slot(DOT, d) && slots[1].name == DOTDOT && slots[1].inum != 0
    && (forall i, j :: 0 <= i < j < |slots| && slots[i].inum != 0 && slots[j].inum != 0 ==>
          slots[i].name != slots[j].name)
    && (forall i :: 2 <= i < |slots| && slots[i].inum != 0 ==> slots[i].inum in fs)
  }

  /** The directory `d` is in the tree: one entry, in its parent, and one link more than it has child directories. */
  ghost predicate InTree(fs: FileSystem, d: nat)
    requires IsDir(fs, d) && |fs[d].slots| >= 2
  {
    var p := fs[d].slots[1].inum;
    && fs[d].nlink == 1 + |Children(fs, d)|
    && if d == ROOT then p == ROOT && fs[d].depth == 0 && Entries(fs, d) == {}
       else |Entries(fs, d)| == 1 && IsDir(fs, p) && fs[p].nlink > 0 && fs[d].depth == fs[p].depth + 1
            && forall e :: e in Entries(fs, d) ==> e.0 == p
  }

  ghost predicate DirOk(fs: FileSystem, d: nat)
    requires IsDir(fs, d)
  {
    && SlotsOk(fs, d, fs[d].slots)
    && if d == ROOT || fs[d].nlink > 0 then InTree(fs, d)
       else fs[d].nlink == 0 && Entries(fs, d) == {} && IsEmpty(fs[d].slots)
  }

  ghost predicate InodeOk(fs: FileSystem, x: nat)
    requires x in fs
  {
    x != 0 && if fs[x].Dir? then DirOk(fs, x) else fs[x].nlink == |Entries(fs, x)|
  }

  ghost predicate Inv(fs: FileSystem) {
    IsDir(fs, ROOT) && forall x :: x in fs ==> InodeOk(fs, x)
  }

  // ---------------------------------------------------------------- what paths lead to

  predicate Linked(fs: FileSystem, x: nat) {
    x in fs && fs[x].nlink > 0
  }

  lemma EntryLinked(fs: FileSystem, d: nat, i: nat)
    requires Inv(fs) && IsDir(fs, d) && 2 <= i < |fs[d].slots| && fs[d].slots[i].inum != 0
    ensures Linked(fs, fs[d].slots[i].inum)
  {
    var x := fs[d].slots[i].inum;
    assert InodeOk(fs, d) && InodeOk(fs, x);
    assert (d, i) in Entries(fs, x);
  }

  lemma RootLinked(fs: FileSystem)
    requires Inv(fs)
    ensures Linked(fs, ROOT)
  {
    assert InodeOk(fs, ROOT);
  }

  lemma {:induction false} ResolvedLinked(fs: FileSystem, at: nat, path: seq<Name>)
    requires Inv(fs) && Linked(fs, at) && Resolve(fs, at, path).Some?
    ensures Linked(fs, Resolve(fs, at, path).value)
    decreases |path|
  {
    if path != [] {
      var i := Find(fs[at].slots, path[0]).value;
      assert InodeOk(fs, at);
      if i >= 2 { EntryLinked(fs, at, i); } else { RootLinked(fs); }
      ResolvedLinked(fs, fs[at].slots[i].inum, path[1..]);
    }
  }
}
