/**
 The calls on directories as they are written: the inodes are updated one after the other, and a link that fails
 takes its first update back. Each is proved against the function of Namespace that says what it does as a whole.
 */
module DirectoryCalls {
  import opened Options
  import opened Namespace

  /** Paths do not depend on link counts. */
  lemma {:induction false} ResolveIgnoresCounts(fs: FileSystem, x: nat, nlink: int, at: nat, path: seq<Name>)
    requires x in fs
    ensures Resolve(SetNlink(fs, x, nlink), at, path) == Resolve(fs, at, path)
    decreases |path|
  {
    if path != [] && IsDir(fs, at) && Find(fs[at].slots, path[0]).Some? {
      ResolveIgnoresCounts(fs, x, nlink, fs[at].slots[Find(fs[at].slots, path[0]).value].inum, path[1..]);
    }
  }

  lemma CountsRestored(fs: FileSystem, x: nat)
    requires x in fs
    ensures SetNlink(SetNlink(fs, x, fs[x].nlink + 1), x, fs[x].nlink) == fs
  {}

  class Volume {
    var inodes: FileSystem

    constructor ()
      ensures inodes == Formatted()
    {
      inodes := Formatted();
    }

    method IsDirEmpty(d: nat) returns (empty: bool)
      requires IsDir(inodes, d)
      ensures empty == IsEmpty(inodes[d].slots)
    {
      var off := 2;
      while off < |inodes[d].slots|
        invariant 2 <= off && forall i :: 2 <= i < off && i < |inodes[d].slots| ==> inodes[d].slots[i].inum == 0
      {
        if inodes[d].slots[off].inum != 0 {
          return false;
        }
        off := off + 1;
      }
      return true;
    }

    /** dirlink: fails if the name is taken. */
    method DirLink(d: nat, name: Name, x: nat) returns (ok: bool)
      requires IsDir(inodes, d)
      modifies this
      ensures ok == Find(old(inodes)[d].slots, name).None?
      ensures inodes == if ok then AddEntry(old(inodes), d, name, x) else old(inodes)
    {
      if Find(inodes[d].slots, name).Some? {
        return false;
      }
      inodes := AddEntry(inodes, d, name, x);
      return true;
    }

    /** `x` is the number ialloc chooses. */
    method Create(path: seq<Name>, kind: Kind, x: nat) returns (r: Answer)
      requires x != 0 && x !in inodes
      modifies this
      ensures Outcome(inodes, r) == Namespace.Create(old(inodes), path, kind, x)
    {
      var dp := Parent(inodes, path);
      if dp == None {
        return Failed;
      }
      var d, name := dp.value, path[|path| - 1];
      var found := Find(inodes[d].slots, name);
      if found != None {
        var y := inodes[d].slots[found.value].inum;
        if kind == T_FILE && y in inodes && inodes[y].File? {
          return Ok(y);
        }
        return Failed;
      }
      inodes := inodes[x := NewInode(kind, x, d, inodes[d].depth + 1)];
      if kind == T_DIR {
        inodes := SetNlink(inodes, d, inodes[d].nlink + 1);
      }
      var ok := DirLink(d, name, x);
      if !ok {
        return Panic;
      }
      return Ok(x);
    }

    method Link(old_: seq<Name>, new_: seq<Name>, sameDev: bool) returns (r: Answer)
      modifies this
      ensures Outcome(inodes, r) == Namespace.Link(old(inodes), old_, new_, sameDev)
    {
      hide Resolve, Find;
      var ip := Resolve(inodes, ROOT, old_);
      if ip == None || ip.value !in inodes || inodes[ip.value].Dir? {
        return Failed;
      }
      var x := ip.value;
      CountsRestored(inodes, x);
      if new_ != [] {
        ResolveIgnoresCounts(inodes, x, inodes[x].nlink + 1, ROOT, new_[..|new_| - 1]);
      }
      inodes := SetNlink(inodes, x, inodes[x].nlink + 1);
      var dp := Parent(inodes, new_);
      if dp != None && sameDev {
        var ok := DirLink(dp.value, new_[|new_| - 1], x);
        if ok {
          return Ok(dp.value);
        }
      }
      inodes := SetNlink(inodes, x, inodes[x].nlink - 1);
      return Failed;
    }

    method Unlink(path: seq<Name>) returns (r: Answer)
      modifies this
      ensures Outcome(inodes, r) == Namespace.Unlink(old(inodes), path)
    {
      var dp := Parent(inodes, path);
      if dp == None {
        return Failed;
      }
      var d, name := dp.value, path[|path| - 1];
      if name == DOT || name == DOTDOT {
        return Failed;
      }
      var off := Find(inodes[d].slots, name);
      if off == None {
        return Failed;
      }
      var x := inodes[d].slots[off.value].inum;
      if x !in inodes || inodes[x].nlink < 1 {
        return Panic;
      }
      if inodes[x].Dir? {
        var empty := IsDirEmpty(x);
        if !empty {
          return Failed;
        }
      }
      var isDir := inodes[x].Dir?;
      inodes := PutSlot(inodes, d, off.value, Slot("", 0));
      if isDir {
        inodes := SetNlink(inodes, d, inodes[d].nlink - 1);
      }
      inodes := SetNlink(inodes, x, inodes[x].nlink - 1);
      return Ok(d);
    }
  }
}
