/**
 What the calls on the file system do, told by what a user finds afterwards:
 where the shell is, which names lead where, what files hold. Names and paths are
 followed by relations of their own, not by the loops of the source.
 */
module FileCalls {
  import opened Prelude
  import opened FileSystem

  // ------------------------------------------------------------- following names

  /** Among the entries of directory n, the first directory called `name` is m. */
  ghost predicate Goes(d: Disk, n: nat, name: string, m: nat) {
    exists i: nat :: IsFirst(EntriesAt(d, n), DirMode, name, i) && EntriesAt(d, n)[i].ino == m
  }

  /** Entry i is the first in use of this mode and name. */
  ghost predicate IsFirst(es: Entries, mode: Mode, name: string, i: nat) {
    && i < DENTRYS && es[i].ino != -1 && es[i].mode == mode && es[i].name == name
    && forall j: nat :: j < i ==> !(es[j].ino != -1 && es[j].mode == mode && es[j].name == name)
  }

  /** The path leads from n to m, name by name. */
  ghost predicate Leads(d: Disk, n: nat, path: seq<string>, m: nat)
    decreases |path|
  {
    if path == [] then n == m
    else exists k: nat {:trigger Goes(d, n, path[0], k)} :: Goes(d, n, path[0], k) && Leads(d, k, path[1..], m)
  }

  lemma FindIsFirst(es: Entries, mode: Mode, name: string)
    ensures Find(es, mode, name, 0) < DENTRYS ==> IsFirst(es, mode, name, Find(es, mode, name, 0))
    ensures forall i: nat :: IsFirst(es, mode, name, i) ==> i == Find(es, mode, name, 0)
  {
    forall i: nat | IsFirst(es, mode, name, i)
      ensures i == Find(es, mode, name, 0)
    {
      assert Named(es[i], mode, name);
    }
  }

  /** Looking a name up finds where it goes. */
  lemma EnterGoes(d: Disk, e: Inode, name: string)
    requires DiskOk(d) && Here(d, e)
    ensures Enter(d, e, name).Some? ==> Goes(d, e.ino, name, Enter(d, e, name).value.ino)
    ensures forall m: nat :: Goes(d, e.ino, name, m) ==> Enter(d, e, name).Some? && Enter(d, e, name).value.ino == m
  {
    var es := EntriesAt(d, e.ino);
    FindIsFirst(es, DirMode, name);
    var j := Find(es, DirMode, name, 0);
    if j < DENTRYS {
      EntryRecord(d, e, j);
    }
  }

  /** The record of an entry's inode has that number. */
  lemma EntryRecord(d: Disk, e: Inode, j: nat)
    requires DiskOk(d) && Here(d, e) && j < DENTRYS && EntriesAt(d, e.ino)[j].ino != -1
    ensures EntriesAt(d, e.ino)[j].ino >= 0 && InodeAt(d, EntriesAt(d, e.ino)[j].ino).ino == EntriesAt(d, e.ino)[j].ino
  {
    assert IsDir(d, e.ino);
    if j == 1 && e.ino != ROOT {
      var way :| WayTo(d, way, e.ino);
      UpReach(d, e.ino, way);
      assert way[|way| - 2] in d.used;
    } else if j >= 2 {
      assert Link(d, e.ino, j);
    } else {
      assert e.ino in d.used;
    }
  }

  /** Following a path ends where the path leads, and fails exactly when it leads nowhere. */
  lemma {:induction false} WalkLeads(d: Disk, e: Inode, path: seq<string>)
    requires DiskOk(d) && Here(d, e)
    ensures forall m: nat :: Leads(d, e.ino, path, m) <==> Walk(d, e, path).1 && m == Walk(d, e, path).0.ino
    decreases |path|
  {
    if path != [] {
      EnterGoes(d, e, path[0]);
      if Enter(d, e, path[0]).Some? {
        EnterReach(d, e, path[0]);
        hide DiskOk, Here, Enter, Goes;
        WalkLeads(d, Enter(d, e, path[0]).value, path[1..]);
      }
    }
  }

  // -------------------------------------------------------------------------- cd

  /** Where a path starts. */
  function Start(fs: Fs, absolute: bool): nat {
    if absolute then ROOT else fs.shell.ino
  }

  ghost predicate Resolves(fs: Fs, absolute: bool, path: seq<string>) {
    exists m: nat :: Leads(fs.disk, Start(fs, absolute), path, m)
  }

  /**
   cd: the shell goes where the path leads; if it leads nowhere the shell stays.
   Nothing on the disk changes.
   */
  lemma CdGoes(fs: Fs, absolute: bool, path: seq<string>)
    requires Consistent(fs)
    ensures var r := ChangeDir(fs, absolute, path);
      && (forall m: nat :: Leads(fs.disk, Start(fs, absolute), path, m) ==> r.shell.ino == m && r.shell == r.cur == InodeAt(fs.disk, m))
      && (!Resolves(fs, absolute, path) ==> r.shell == fs.shell)
      && r.disk == fs.disk && r.used == fs.used
  {
    RootReachable(fs.disk);
    assert ROOT in fs.disk.used;
    var start := InodeAt(fs.disk, Start(fs, absolute));
    assert Here(fs.disk, start);
    WalkLeads(fs.disk, start, path);
    WalkReach(fs.disk, start, path);
    var (cur, ok) := Walk(fs.disk, start, path);
    if ok {
      assert Leads(fs.disk, Start(fs, absolute), path, cur.ino);
    }
  }

  lemma OneStep(d: Disk, n: nat, name: string, m: nat)
    requires Goes(d, n, name, m)
    ensures Leads(d, n, [name], m)
  {
    assert [name][0] == name && Leads(d, m, [name][1..], m);
  }

  /** cd of a subdirectory: the shell is in that child. */
  lemma CdDown(fs: Fs, name: string, m: nat)
    requires Consistent(fs) && Goes(fs.disk, fs.shell.ino, name, m) && name != "." && name != ".."
    ensures ChangeDir(fs, false, [name]).shell.ino == m && Child(fs.disk, fs.shell.ino, m)
  {
    OneStep(fs.disk, fs.shell.ino, name, m);
    CdGoes(fs, false, [name]);
    EnterGoes(fs.disk, fs.shell, name);
    EnterCases(fs.disk, fs.shell, name);
  }

  /** cd "..": the shell is in the father; of the root, in the root. cd ".": it stays. */
  lemma CdUp(fs: Fs)
    requires Consistent(fs)
    ensures ChangeDir(fs, false, [".."]).shell.ino == fs.shell.father
    ensures fs.shell.ino != ROOT ==> Child(fs.disk, fs.shell.father, fs.shell.ino)
    ensures fs.shell.ino == ROOT ==> fs.shell.father == ROOT
    ensures ChangeDir(fs, false, ["."]).shell == fs.shell
  {
    var d, n := fs.disk, fs.shell.ino;
    DotsGo(d, n);
    OneStep(d, n, "..", fs.shell.father);
    OneStep(d, n, ".", n);
    CdGoes(fs, false, [".."]);
    CdGoes(fs, false, ["."]);
    if n != ROOT {
      var way :| WayTo(d, way, n);
      UpReach(d, n, way);
      assert Child(d, way[|way| - 2], way[|way| - 2 + 1]);
    }
  }

  lemma DotsGo(d: Disk, n: nat)
    requires DiskOk(d) && IsDir(d, n)
    ensures Goes(d, n, ".", n) && Goes(d, n, "..", InodeAt(d, n).father)
  {
    assert IsFirst(EntriesAt(d, n), DirMode, ".", 0);
    assert IsFirst(EntriesAt(d, n), DirMode, "..", 1);
  }

  /** A missing component anywhere in the path: the shell stays. */
  lemma CdMissing(fs: Fs, absolute: bool, p: seq<string>, name: string, q: seq<string>, n: nat)
    requires Consistent(fs) && Leads(fs.disk, Start(fs, absolute), p, n) && forall m: nat :: !Goes(fs.disk, n, name, m)
    ensures ChangeDir(fs, absolute, p + [name] + q).shell == fs.shell
  {
    CdGoes(fs, absolute, p + [name] + q);
    forall m: nat
      ensures !Leads(fs.disk, Start(fs, absolute), p + [name] + q, m)
    {
      assert p + [name] + q == p + ([name] + q);
      LeadsConcat(fs, Start(fs, absolute), p, [name] + q, m);
      FirstGoes(fs.disk, n, name, q, m);
    }
  }

  lemma FirstGoes(d: Disk, n: nat, name: string, q: seq<string>, m: nat)
    ensures Leads(d, n, [name] + q, m) ==> exists k: nat :: Goes(d, n, name, k)
  {
    assert ([name] + q)[0] == name;
  }

  /** A path in two parts leads where the second part leads from where the first does. */
  lemma LeadsConcat(fs: Fs, n: nat, p: seq<string>, q: seq<string>, m: nat)
    requires Consistent(fs) && (n == ROOT || n == fs.shell.ino)
    ensures Leads(fs.disk, n, p + q, m) ==> exists k: nat :: Leads(fs.disk, n, p, k) && Leads(fs.disk, k, q, m)
    ensures forall k: nat :: Leads(fs.disk, n, p, k) ==> (Leads(fs.disk, k, q, m) <==> Leads(fs.disk, n, p + q, m))
  {
    var d, e := fs.disk, InodeAt(fs.disk, n);
    RootReachable(d);
    assert ROOT in d.used;
    assert Here(d, e);
    WalkLeads(d, e, p);
    WalkLeads(d, e, p + q);
    WalkConcat(d, e, p, q);
    WalkReach(d, e, p);
    if Walk(d, e, p).1 {
      WalkLeads(d, Walk(d, e, p).0, q);
      assert Leads(d, n, p, Walk(d, e, p).0.ino);
    }
  }

  /** When p resolves, cd p and then cd q is cd p/q. */
  lemma CdConcat(fs: Fs, absolute: bool, p: seq<string>, q: seq<string>)
    requires Consistent(fs) && Resolves(fs, absolute, p)
    ensures ChangeDir(ChangeDir(fs, absolute, p), false, q).shell ==
      if Resolves(fs, absolute, p + q) then ChangeDir(fs, absolute, p + q).shell else ChangeDir(fs, absolute, p).shell
  {
    var n: nat :| Leads(fs.disk, Start(fs, absolute), p, n);
    var fs1 := ChangeDir(fs, absolute, p);
    CdGoes(fs, absolute, p);
    ChangeDirKeeps(fs, absolute, p);
    CdGoes(fs1, false, q);
    CdGoes(fs, absolute, p + q);
    hide ChangeDir, Consistent, Leads;
    if Resolves(fs, absolute, p + q) {
      var m: nat :| Leads(fs.disk, Start(fs, absolute), p + q, m);
      LeadsConcat(fs, Start(fs, absolute), p, q, m);
    } else {
      forall m: nat
        ensures !Leads(fs1.disk, Start(fs1, false), q, m)
      {
        LeadsConcat(fs, Start(fs, absolute), p, q, m);
      }
    }
  }

  /** cd into a subdirectory and cd ".." comes back. */
  lemma CdBack(fs: Fs, name: string, m: nat)
    requires Consistent(fs) && Goes(fs.disk, fs.shell.ino, name, m) && name != "." && name != ".."
    ensures ChangeDir(ChangeDir(fs, false, [name]), false, [".."]).shell == fs.shell
  {
    var fs1 := ChangeDir(fs, false, [name]);
    CdDown(fs, name, m);
    CdGoes(fs, false, [name]);
    ChangeDirKeeps(fs, false, [name]);
    CdUp(fs1);
    ChildFather(fs.disk, fs.shell.ino, m);
    DotsGo(fs1.disk, m);
    OneStep(fs1.disk, m, "..", fs.shell.ino);
    CdGoes(fs1, false, [".."]);
  }

  // ------------------------------------------------------------------------ mkfs

  /** mkfs on a formatted card mounts it: nothing on it changes, and the shell is in the root. */
  lemma MountKeepsAll(fs: Fs, now: nat, scratch: Bytes)
    requires fs.disk.formatted && DiskOk(fs.disk)
    ensures var r := MakeFs(fs, now, scratch); r.disk == fs.disk && r.used == fs.disk.used && r.shell.ino == ROOT
  {
    assert ROOT in fs.disk.used;
  }

  /** mkfs on any other lays out a root and nothing else. */
  lemma FormatIsEmpty(fs: Fs, now: nat, scratch: Bytes)
    requires !fs.disk.formatted
    ensures var r := MakeFs(fs, now, scratch);
      && r.disk.formatted && r.used == {ROOT} && r.disk.used == {ROOT} && r.shell.ino == ROOT && IsDir(r.disk, ROOT)
      && r.shell.timestamp == now && forall i: nat :: !Link(r.disk, ROOT, i)
  {
  }

  // ------------------------------------------------------------- mkdir and touch

  /** Inodes in use other than n keep their records, and all their blocks but the one at `here`. */
  ghost predicate RestSame(d: Disk, r: Disk, n: int, here: nat) {
    forall m: nat {:trigger m in d.used} :: m in d.used && m != n ==>
      InodeAt(r, m) == InodeAt(d, m) && (m != here ==> (m in r.blocks <==> m in d.blocks) && (m in d.blocks ==> r.blocks[m] == d.blocks[m]))
  }

  /**
   mkdir and touch: a free inode gets the name, a new directory holds only the
   dots, a new file reads as the empty string; the current directory gains one
   entry and everything else is as it was.
   */
  lemma CreateAdds(fs: Fs, mode: Mode, name: string, now: nat, scratch: Bytes)
    requires Consistent(fs) && CanCreate(fs, name)
    ensures var r, n := Create(fs, mode, name, now, scratch), LowestFree(fs.used, 0);
      var es, es' := EntriesAt(fs.disk, fs.shell.ino), EntriesAt(r.disk, fs.shell.ino);
      && n !in fs.used && r.used == fs.used + {n} && r.disk.used == r.used && r.shell == fs.shell && r.cur == fs.cur
      && InodeAt(r.disk, n) == Inode(name, n, mode, fs.shell.ino, now)
      && n in r.disk.blocks && (mode == DirMode ==> IsDir(r.disk, n) && forall i: nat :: !Link(r.disk, n, i))
      && (mode == FileMode ==> r.disk.blocks[n].FileBlock? && r.disk.blocks[n].bytes[0] == 0)
      && (exists i: nat :: i < DENTRYS && es[i].ino == -1 && es' == es[i := Dentry(n, mode, name)])
      && RestSame(fs.disk, r.disk, n, fs.shell.ino)
  {
    var here, n := fs.shell.ino, LowestFree(fs.used, 0);
    assert here in fs.disk.used;
    var es, i := EntriesAt(fs.disk, here), FirstFree(EntriesAt(fs.disk, here), 0);
    var r := Create(fs, mode, name, now, scratch);
    assert EntriesAt(r.disk, here) == es[i := Dentry(n, mode, name)];
    assert mode == DirMode ==> EntriesAt(r.disk, n) == FreshDir(n, here);
  }

  // ---------------------------------------------------------------- rm and rmdir

  /**
   rm and rmdir: the first entry of that name is free, its inode is free and no
   link to it is left; every other entry, record and block is as it was. With no
   such name nothing changes.
   */
  lemma RemoveTakes(fs: Fs, mode: Mode, name: string)
    requires Consistent(fs) && (mode == DirMode ==> name != "." && name != "..")
    ensures var r, es := if mode == DirMode then RemoveDir(fs, name) else Remove(fs, mode, name), EntriesAt(fs.disk, fs.shell.ino);
      && r.shell == fs.shell && r.cur == fs.cur && RestSame(fs.disk, r.disk, -1, fs.shell.ino) && r.disk.used == r.used
      && (forall i: nat :: IsFirst(es, mode, name, i) ==>
            && es[i].ino >= 0 && es[i].ino in fs.used && r.used == fs.used - {es[i].ino}
            && EntriesAt(r.disk, fs.shell.ino) == es[i := es[i].(ino := -1)]
            && (forall n: nat, j: nat :: Link(r.disk, n, j) ==> EntriesAt(r.disk, n)[j].ino != es[i].ino))
      && ((forall i: nat :: !IsFirst(es, mode, name, i)) ==> r.used == fs.used && EntriesAt(r.disk, fs.shell.ino) == es)
  {
    var es := EntriesAt(fs.disk, fs.shell.ino);
    FindIsFirst(es, mode, name);
    var i := Find(es, mode, name, 0);
    var r := Remove(fs, mode, name);
    assert fs.shell.ino in fs.disk.used && IsDir(fs.disk, fs.shell.ino);
    if i < DENTRYS {
      RemoveKeeps(fs, mode, name);
      assert Link(fs.disk, fs.shell.ino, i);
      forall n: nat, j: nat | Link(r.disk, n, j)
        ensures EntriesAt(r.disk, n)[j].ino != es[i].ino
      {
        assert EntriesAt(r.disk, n)[j].ino in r.disk.used;
      }
    }
  }

  /** rmdir refuses "." and "..". */
  lemma RmdirDots(fs: Fs, name: string)
    requires name == "." || name == ".."
    ensures RemoveDir(fs, name) == fs
  {
  }

  lemma FoundGoes(d: Disk, e: Inode, name: string)
    requires DiskOk(d) && Here(d, e)
    ensures var j := Find(EntriesAt(d, e.ino), DirMode, name, 0); j < DENTRYS ==> exists m: nat :: Goes(d, e.ino, name, m)
  {
    var es := EntriesAt(d, e.ino);
    FindIsFirst(es, DirMode, name);
    var j := Find(es, DirMode, name, 0);
    if j < DENTRYS {
      EntryRecord(d, e, j);
      assert Goes(d, e.ino, name, es[j].ino);
    }
  }

  /** rmdir of a directory just made gives back its inode and every directory as it was. */
  lemma MkdirThenRmdir(fs: Fs, name: string, now: nat, scratch: Bytes)
    requires Consistent(fs) && CanCreate(fs, name) && name != "." && name != ".."
    requires forall m: nat :: !Goes(fs.disk, fs.shell.ino, name, m)
    ensures var r := RemoveDir(Create(fs, DirMode, name, now, scratch), name);
      && r.used == fs.used && r.shell == fs.shell && RestSame(fs.disk, r.disk, -1, fs.shell.ino)
      && forall j: nat :: j < DENTRYS ==>
           EntriesAt(r.disk, fs.shell.ino)[j] == EntriesAt(fs.disk, fs.shell.ino)[j]
           || (EntriesAt(r.disk, fs.shell.ino)[j].ino == -1 && EntriesAt(fs.disk, fs.shell.ino)[j].ino == -1)
  {
    hide Create, Remove, RestSame, CanCreate, EntriesAt, LowestFree;
    NotFound(fs, name);
    var c, n := Create(fs, DirMode, name, now, scratch), LowestFree(fs.used, 0);
    CreateKeeps(fs, DirMode, name, now, scratch);
    CreateAdds(fs, DirMode, name, now, scratch);
    CreateThenRemove(fs, DirMode, name, now, scratch);
    RemoveTakes(c, DirMode, name);
    RestTrans(fs.disk, c.disk, RemoveDir(c, name).disk, n, fs.shell.ino);
    ShellUsed(fs);
    hide Consistent;
  }

  lemma ShellUsed(fs: Fs)
    requires Consistent(fs)
    ensures fs.shell.ino in fs.used && fs.used == fs.disk.used
  {
  }

  lemma NotFound(fs: Fs, name: string)
    requires Consistent(fs) && forall m: nat :: !Goes(fs.disk, fs.shell.ino, name, m)
    ensures Find(EntriesAt(fs.disk, fs.shell.ino), DirMode, name, 0) == DENTRYS
  {
    FoundGoes(fs.disk, fs.shell, name);
  }

  lemma RestTrans(d: Disk, c: Disk, r: Disk, n: nat, here: nat)
    requires n !in d.used && d.used <= c.used && RestSame(d, c, n, here) && RestSame(c, r, -1, here)
    ensures RestSame(d, r, -1, here)
  {
  }

  // ----------------------------------------------------------------------- files

  /** fwrite: byte k of the file is the one written there, or what it was; no other block changes. */
  lemma WriteStores(fs: Fs, ino: nat, pos: nat, buf: seq<Byte>)
    requires CanWrite(fs, ino, pos, buf)
    ensures var r := WriteFile(fs, ino, pos, buf);
      && ino in r.disk.blocks && r.disk.blocks[ino].FileBlock?
      && (forall k: nat :: k < |buf| ==> r.disk.blocks[ino].bytes[pos + k] == buf[k])
      && (forall k: nat :: k < pos || pos + |buf| <= k < BLOCK_BYTES ==> r.disk.blocks[ino].bytes[k] == fs.disk.blocks[ino].bytes[k])
      && r == fs.(disk := r.disk) && RestSame(fs.disk, r.disk, -1, ino)
  {
  }
}
