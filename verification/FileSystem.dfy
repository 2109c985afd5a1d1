/**
 The file system (kernel/fs/{fs,disk,path,text}.c): an inode map, an inode
 table and one block per inode, all on disk, with the map and the shell's
 directory cached in memory. How the disk holds these values byte by byte is
 in DiskLayout.dfy; how the map is searched is in Bitmap.dfy.
 */
module FileSystem {
  import opened Prelude

  const ROOT: nat := 0
  const INODES: nat := 0x8000
  const DENTRYS: nat := 16
  const BLOCK_BYTES: nat := 512

  type Byte = b: int | 0 <= b < 256

  datatype Mode = FileMode | DirMode

  /** A directory entry; ino == -1 marks a free one. */
  datatype Dentry = Dentry(ino: int, mode: Mode, name: string)

  datatype Inode = Inode(name: string, ino: nat, mode: Mode, father: nat, timestamp: nat)

  type Entries = s: seq<Dentry> | |s| == DENTRYS witness seq(DENTRYS, _ => Dentry(-1, FileMode, ""))

  type Bytes = s: seq<Byte> | |s| == BLOCK_BYTES witness seq(BLOCK_BYTES, _ => 0)

  datatype Block = DirBlock(entries: Entries) | FileBlock(bytes: Bytes)

  /** The disk: superblock magic, inode map, inode table, data blocks. */
  datatype Disk = Disk(formatted: bool, used: set<nat>, inodes: map<nat, Inode>, blocks: map<nat, Block>)

  /** The disk and what is kept in memory: inode_map, shell_path_inode, cur_dir. */
  datatype Fs = Fs(disk: Disk, used: set<nat>, shell: Inode, cur: Inode)

  // ------------------------------------------------------------------- access

  const NO_INODE: Inode := Inode("", 0, FileMode, 0, 0)

  function InodeAt(d: Disk, ino: nat): Inode {
    if ino in d.inodes then d.inodes[ino] else NO_INODE
  }

  /** dir_block_read; a block that is no directory reads as an empty one. */
  function EntriesAt(d: Disk, ino: nat): Entries {
    if ino in d.blocks && d.blocks[ino].DirBlock? then d.blocks[ino].entries
    else seq(DENTRYS, _ => Dentry(-1, FileMode, ""))
  }

  function PutBlock(d: Disk, ino: nat, b: Block): Disk {
    d.(blocks := d.blocks[ino := b])
  }

  function PutInode(d: Disk, e: Inode): Disk {
    d.(inodes := d.inodes[e.ino := e])
  }

  /** The lowest inode number at or after k that is not in use; INODES when there is none. */
  function LowestFree(used: set<nat>, k: nat): (r: nat)
    requires k <= INODES
    ensures k <= r <= INODES && (r < INODES ==> r !in used)
    ensures forall i :: k <= i < r ==> i in used
    decreases INODES - k
  {
    if k == INODES || k !in used then k else LowestFree(used, k + 1)
  }

  /** The first entry at or after i with ino == -1; DENTRYS when the block is full. */
  function FirstFree(es: Entries, i: nat): (r: nat)
    requires i <= DENTRYS
    ensures i <= r <= DENTRYS && (r < DENTRYS ==> es[r].ino == -1)
    ensures forall j :: i <= j < r ==> es[j].ino != -1
    decreases DENTRYS - i
  {
    if i == DENTRYS || es[i].ino == -1 then i else FirstFree(es, i + 1)
  }

  predicate Named(e: Dentry, mode: Mode, name: string) {
    e.ino != -1 && e.mode == mode && e.name == name
  }

  /** The first entry at or after i of this mode and name; DENTRYS when there is none. */
  function Find(es: Entries, mode: Mode, name: string, i: nat): (r: nat)
    requires i <= DENTRYS
    ensures i <= r <= DENTRYS && (r < DENTRYS ==> Named(es[r], mode, name))
    ensures forall j :: i <= j < r ==> !Named(es[j], mode, name)
    decreases DENTRYS - i
  {
    if i == DENTRYS || Named(es[i], mode, name) then i else Find(es, mode, name, i + 1)
  }

  // --------------------------------------------------------------- operations

  /** dir_init */
  function FreshDir(ino: nat, father: nat): Entries {
    seq(DENTRYS, i => if i == 0 then Dentry(ino, DirMode, ".")
                      else if i == 1 then Dentry(father, DirMode, "..")
                      else Dentry(-1, FileMode, ""))
  }

  /** inode_create; `scratch` is what file_init's stack buffer happened to hold. */
  function CreateInode(d: Disk, e: Inode, scratch: Bytes): Disk {
    var b := if e.mode == DirMode then DirBlock(FreshDir(e.ino, e.father)) else FileBlock(Splice(scratch, 0, [0, 0, 0, 0]));
    PutInode(PutBlock(d, e.ino, b), e)
  }

  /** Room for one more: a free inode, a free slot, a name that fits the entry. */
  predicate CanCreate(fs: Fs, name: string) {
    && LowestFree(fs.used, 0) < INODES
    && FirstFree(EntriesAt(fs.disk, fs.shell.ino), 0) < DENTRYS
    && |name| < 24
  }

  /** make_directory and touch_file */
  function Create(fs: Fs, mode: Mode, name: string, now: nat, scratch: Bytes): Fs
    requires CanCreate(fs, name)
  {
    var here := fs.shell.ino;
    var es := EntriesAt(fs.disk, here);
    var i := FirstFree(es, 0);
    var ino := LowestFree(fs.used, 0);
    var used := fs.used + {ino};
    var d1 := CreateInode(fs.disk.(used := used), Inode(name, ino, mode, here, now), scratch);
    fs.(used := used, disk := PutBlock(d1, here, DirBlock(es[i := Dentry(ino, mode, name)])))
  }

  /** remove_file, and remove_directory past its check for "." and ".." */
  function Remove(fs: Fs, mode: Mode, name: string): Fs {
    var here := fs.shell.ino;
    var es := EntriesAt(fs.disk, here);
    var i := Find(es, mode, name, 0);
    if i == DENTRYS then fs.(disk := PutBlock(fs.disk, here, DirBlock(es)))
    else
      var used := fs.used - {es[i].ino};
      fs.(used := used,
          disk := PutBlock(fs.disk.(used := used), here, DirBlock(es[i := es[i].(ino := -1)])))
  }

  function RemoveDir(fs: Fs, name: string): Fs {
    if name == "." || name == ".." then fs else Remove(fs, DirMode, name)
  }

  /** One component of decode_path: None when there is no such directory. */
  function Enter(d: Disk, cur: Inode, name: string): Option<Inode> {
    var es := EntriesAt(d, cur.ino);
    var j := Find(es, DirMode, name, 0);
    if j == DENTRYS || es[j].ino < 0 then None else Some(InodeAt(d, es[j].ino))
  }

  /** The walk of decode_path: where it stopped, and whether it got to the end. */
  function Walk(d: Disk, cur: Inode, path: seq<string>): (Inode, bool)
    decreases |path|
  {
    if path == [] then (cur, true)
    else match Enter(d, cur, path[0])
      case None => (cur, false)
      case Some(next) => Walk(d, next, path[1..])
  }

  /** change_directory on an already split path. */
  function ChangeDir(fs: Fs, absolute: bool, path: seq<string>): Fs {
    var start := InodeAt(fs.disk, if absolute then ROOT else fs.shell.ino);
    var (cur, ok) := Walk(fs.disk, start, path);
    var fs1 := fs.(cur := cur);
    if ok then fs1.(shell := InodeAt(fs.disk, cur.ino)) else fs1
  }

  /** do_makefs: mount what is there, or lay out an empty file system. */
  function MakeFs(fs: Fs, now: nat, scratch: Bytes): Fs {
    if fs.disk.formatted then
      fs.(used := fs.disk.used, shell := InodeAt(fs.disk, ROOT))
    else
      var d := CreateInode(fs.disk.(used := {ROOT}), Inode("~", ROOT, DirMode, ROOT, now), scratch);
      var d1 := d.(formatted := true);
      fs.(disk := d1, used := {ROOT}, shell := InodeAt(d1, ROOT))
  }

  /** The block of a directory entry's inode in use that is no directory. */
  predicate IsFile(d: Disk, ino: nat) {
    ino in d.used && InodeAt(d, ino).mode == FileMode
  }

  /** sys_fwrite: `buf` goes into the block of inode `ino` at `pos`. */
  function WriteFile(fs: Fs, ino: nat, pos: nat, buf: seq<Byte>): Fs
    requires ino in fs.disk.blocks && fs.disk.blocks[ino].FileBlock? && pos + |buf| <= BLOCK_BYTES
  {
    fs.(disk := PutBlock(fs.disk, ino, FileBlock(Splice(fs.disk.blocks[ino].bytes, pos, buf))))
  }

  predicate CanOpen(fs: Fs, name: string) {
    Find(EntriesAt(fs.disk, fs.shell.ino), FileMode, name, 0) < DENTRYS || CanCreate(fs, name)
  }

  /** sys_fopen: the inode of the file, which is created when there is none. */
  function Open(fs: Fs, name: string, now: nat, scratch: Bytes): (Fs, int)
    requires CanOpen(fs, name)
  {
    var es := EntriesAt(fs.disk, fs.shell.ino);
    var i := Find(es, FileMode, name, 0);
    if i < DENTRYS then (fs, es[i].ino)
    else
      var r := Create(fs, FileMode, name, now, scratch);
      var es' := EntriesAt(r.disk, r.shell.ino);
      var j := Find(es', FileMode, name, 0);
      (r, if j < DENTRYS then es'[j].ino else -1)
  }

  // ---------------------------------------------------------------- invariant

  predicate IsDir(d: Disk, ino: nat) {
    ino in d.used && InodeAt(d, ino).mode == DirMode
  }

  /** Every inode in use has a record of itself and a block of its kind. */
  ghost predicate Recorded(d: Disk) {
    && ROOT in d.used && InodeAt(d, ROOT).mode == DirMode && InodeAt(d, ROOT).father == ROOT
    && (forall n {:trigger n in d.used} :: n in d.used ==>
          && n < INODES && n in d.inodes && InodeAt(d, n).ino == n
          && n in d.blocks && (d.blocks[n].DirBlock? <==> InodeAt(d, n).mode == DirMode))
  }

  /** "." and ".." are the first two entries of every directory. */
  ghost predicate Dotted(d: Disk) {
    forall n: nat {:trigger IsDir(d, n)} :: IsDir(d, n) ==>
      && EntriesAt(d, n)[0] == Dentry(n, DirMode, ".")
      && EntriesAt(d, n)[1] == Dentry(InodeAt(d, n).father, DirMode, "..")
  }

  /** Slot i of directory n names an inode and is not "." or "..". */
  predicate Link(d: Disk, n: nat, i: nat) {
    IsDir(d, n) && 2 <= i < DENTRYS && EntriesAt(d, n)[i].ino != -1
  }

  /** A link leads to an inode in use whose record agrees with the entry. */
  ghost predicate Linked(d: Disk) {
    forall n: nat, i: nat {:trigger Link(d, n, i)} :: Link(d, n, i) ==>
      var e := EntriesAt(d, n)[i];
      && 0 <= e.ino && e.ino in d.used && e.ino != ROOT
      && InodeAt(d, e.ino).father == n && InodeAt(d, e.ino).mode == e.mode && InodeAt(d, e.ino).name == e.name
  }

  /** No inode has two links. */
  ghost predicate Unshared(d: Disk) {
    forall n: nat, i: nat, m: nat, j: nat {:trigger Link(d, n, i), Link(d, m, j)} ::
      Link(d, n, i) && Link(d, m, j) && EntriesAt(d, n)[i].ino == EntriesAt(d, m)[j].ino ==> n == m && i == j
  }

  ghost predicate DiskOk(d: Disk) {
    Recorded(d) && Dotted(d) && Linked(d) && Unshared(d)
  }

  /** m is a subdirectory of n. */
  ghost predicate Child(d: Disk, n: nat, m: nat) {
    IsDir(d, m) && exists i: nat :: Link(d, n, i) && EntriesAt(d, n)[i].ino == m
  }

  /** A way down the tree from the root to n. */
  ghost predicate WayTo(d: Disk, way: seq<nat>, n: nat) {
    && way != [] && way[0] == ROOT && way[|way| - 1] == n && NoDup(way)
    && forall i :: 0 <= i < |way| - 1 ==> Child(d, way[i], way[i + 1])
  }

  ghost predicate Reachable(d: Disk, n: nat) {
    exists way :: WayTo(d, way, n)
  }

  /** The file system is consistent, and memory agrees with the disk. */
  ghost predicate Consistent(fs: Fs) {
    && fs.disk.formatted && DiskOk(fs.disk)
    && fs.used == fs.disk.used
    && fs.shell == InodeAt(fs.disk, fs.shell.ino) && IsDir(fs.disk, fs.shell.ino)
    && Reachable(fs.disk, fs.shell.ino)
  }

  // -------------------------------------------------------------------- mkfs

  lemma RootReachable(d: Disk)
    requires IsDir(d, ROOT)
    ensures Reachable(d, ROOT)
  {
    assert WayTo(d, [ROOT], ROOT);
  }

  /** mkfs leaves a consistent file system, new or found on the disk. */
  lemma MakeFsKeeps(fs: Fs, now: nat, scratch: Bytes)
    requires fs.disk.formatted ==> DiskOk(fs.disk)
    ensures Consistent(MakeFs(fs, now, scratch))
  {
    RootReachable(MakeFs(fs, now, scratch).disk);
  }

  // ---------------------------------------------------------------- creation

  /** `r` is `d` with the new inode `e` linked from slot i of directory `here`. */
  ghost predicate Grown(d: Disk, r: Disk, here: nat, i: nat, e: Inode) {
    && IsDir(d, here) && e.ino !in d.used && e.ino < INODES && i < DENTRYS && EntriesAt(d, here)[i].ino == -1
    && r.used == d.used + {e.ino} && e.father == here && r.formatted
    && e.ino in r.inodes && e.ino in r.blocks && (r.blocks[e.ino].DirBlock? <==> e.mode == DirMode)
    && (forall n: nat {:trigger InodeAt(r, n)} :: InodeAt(r, n) == if n == e.ino then e else InodeAt(d, n))
    && (forall n {:trigger n in r.inodes} :: n != e.ino ==> (n in r.inodes <==> n in d.inodes))
    && (forall n {:trigger n in r.blocks} :: n in d.used && n in d.blocks ==>
          n in r.blocks && (r.blocks[n].DirBlock? <==> d.blocks[n].DirBlock?))
    && (forall n: nat {:trigger EntriesAt(r, n)} :: n in d.used ==>
          EntriesAt(r, n) == if n == here then EntriesAt(d, n)[i := Dentry(e.ino, e.mode, e.name)] else EntriesAt(d, n))
    && (e.mode == DirMode ==> EntriesAt(r, e.ino) == FreshDir(e.ino, here))
  }

  lemma CreateGrows(fs: Fs, mode: Mode, name: string, now: nat, scratch: Bytes)
    requires Consistent(fs) && CanCreate(fs, name)
    ensures var i, ino := FirstFree(EntriesAt(fs.disk, fs.shell.ino), 0), LowestFree(fs.used, 0);
      Grown(fs.disk, Create(fs, mode, name, now, scratch).disk, fs.shell.ino, i,
            Inode(name, ino, mode, fs.shell.ino, now))
  {
    assert fs.shell.ino in fs.disk.used;
  }

  lemma GrownLinks(d: Disk, r: Disk, here: nat, i: nat, e: Inode)
    requires DiskOk(d) && Grown(d, r, here, i, e)
    ensures forall n: nat {:trigger IsDir(r, n)} :: IsDir(r, n) <==> IsDir(d, n) || (n == e.ino && e.mode == DirMode)
    ensures forall n: nat, j: nat {:trigger Link(r, n, j)} :: Link(r, n, j) <==> Link(d, n, j) || (n == here && j == i)
    ensures i >= 2 && !Link(d, here, i)
  {
    assert IsDir(d, here);
  }

  lemma GrownOk(d: Disk, r: Disk, here: nat, i: nat, e: Inode)
    requires DiskOk(d) && Grown(d, r, here, i, e)
    ensures DiskOk(r)
  {
    GrownLinks(d, r, here, i, e);
    GrownUnshared(d, r, here, i, e);
    forall n: nat, j: nat | Link(r, n, j)
      ensures var f := EntriesAt(r, n)[j];
        && 0 <= f.ino && f.ino in r.used && f.ino != ROOT
        && InodeAt(r, f.ino).father == n && InodeAt(r, f.ino).mode == f.mode && InodeAt(r, f.ino).name == f.name
    {
      if n != here || j != i {
        assert Link(d, n, j);
      }
    }
  }

  lemma GrownUnshared(d: Disk, r: Disk, here: nat, i: nat, e: Inode)
    requires DiskOk(d) && Grown(d, r, here, i, e)
    ensures Unshared(r)
  {
    GrownLinks(d, r, here, i, e);
    forall n: nat, j: nat, m: nat, k: nat | Link(r, n, j) && Link(r, m, k) && EntriesAt(r, n)[j].ino == EntriesAt(r, m)[k].ino
      ensures n == m && j == k
    {
      assert (n == here && j == i) || Link(d, n, j);
      assert (m == here && k == i) || Link(d, m, k);
    }
  }

  lemma GrownReach(d: Disk, r: Disk, here: nat, i: nat, e: Inode, n: nat)
    requires DiskOk(d) && Grown(d, r, here, i, e) && Reachable(d, n)
    ensures Reachable(r, n)
  {
    GrownLinks(d, r, here, i, e);
    var way :| WayTo(d, way, n);
    forall k | 0 <= k < |way| - 1
      ensures Child(r, way[k], way[k + 1])
    {
      assert Child(d, way[k], way[k + 1]);
      var j: nat :| Link(d, way[k], j) && EntriesAt(d, way[k])[j].ino == way[k + 1];
      assert Link(r, way[k], j) && EntriesAt(r, way[k])[j].ino == way[k + 1];
    }
    assert WayTo(r, way, n);
  }

  /** mkdir and touch keep the file system consistent and take the lowest free inode. */
  lemma CreateKeeps(fs: Fs, mode: Mode, name: string, now: nat, scratch: Bytes)
    requires Consistent(fs) && CanCreate(fs, name)
    ensures var r := Create(fs, mode, name, now, scratch);
      && Consistent(r)
      && exists ino :: ino !in fs.used && r.used == fs.used + {ino} && (forall k: nat :: k < ino ==> k in fs.used)
                       && Named(EntriesAt(r.disk, r.shell.ino)[FirstFree(EntriesAt(fs.disk, fs.shell.ino), 0)], mode, name)
  {
    var r := Create(fs, mode, name, now, scratch);
    var here, ino := fs.shell.ino, LowestFree(fs.used, 0);
    var i := FirstFree(EntriesAt(fs.disk, here), 0);
    var e := Inode(name, ino, mode, here, now);
    CreateGrows(fs, mode, name, now, scratch);
    GrownOk(fs.disk, r.disk, here, i, e);
    GrownReach(fs.disk, r.disk, here, i, e, here);
    GrownLinks(fs.disk, r.disk, here, i, e);
    assert InodeAt(r.disk, here) == InodeAt(fs.disk, here);
    assert EntriesAt(r.disk, here)[i] == Dentry(ino, mode, name);
    assert ino !in fs.used && r.used == fs.used + {ino};
  }

  // ----------------------------------------------------------------- removal

  /** `r` is `d` after slot i of directory `here`, and the inode it named, were given up. */
  ghost predicate Shrunk(d: Disk, r: Disk, here: nat, i: nat, c: nat) {
    && Link(d, here, i) && EntriesAt(d, here)[i].ino == c
    && r.used == d.used - {c} && r.inodes == d.inodes && r.formatted == d.formatted
    && (forall n {:trigger n in r.blocks} :: n in d.blocks ==>
          n in r.blocks && (r.blocks[n].DirBlock? <==> d.blocks[n].DirBlock?))
    && (forall n: nat {:trigger EntriesAt(r, n)} ::
          EntriesAt(r, n) == if n == here then EntriesAt(d, n)[i := EntriesAt(d, n)[i].(ino := -1)] else EntriesAt(d, n))
  }

  lemma RemoveShrinks(fs: Fs, mode: Mode, name: string)
    requires Consistent(fs) && (mode == DirMode ==> name != "." && name != "..")
    ensures var es := EntriesAt(fs.disk, fs.shell.ino);
      var i := Find(es, mode, name, 0);
      if i == DENTRYS then Remove(fs, mode, name) == fs
      else es[i].ino >= 0 && Shrunk(fs.disk, Remove(fs, mode, name).disk, fs.shell.ino, i, es[i].ino)
  {
    var d, here := fs.disk, fs.shell.ino;
    var es := EntriesAt(d, here);
    var i := Find(es, mode, name, 0);
    assert IsDir(d, here) && here in d.used;
    if i == DENTRYS {
      assert d.blocks[here := DirBlock(es)] == d.blocks;
    } else {
      assert Link(d, here, i);
      RemovalShrinks(fs, mode, name, i);
    }
  }

  lemma RemovalShrinks(fs: Fs, mode: Mode, name: string, i: nat)
    requires Linked(fs.disk) && fs.used == fs.disk.used && fs.shell.ino in fs.disk.blocks
    requires fs.disk.blocks[fs.shell.ino].DirBlock? && Link(fs.disk, fs.shell.ino, i)
    requires i == Find(EntriesAt(fs.disk, fs.shell.ino), mode, name, 0)
    ensures var c := EntriesAt(fs.disk, fs.shell.ino)[i].ino;
      c >= 0 && Shrunk(fs.disk, Remove(fs, mode, name).disk, fs.shell.ino, i, c)
  {
  }

  /** Only one directory leads to an inode: its father. */
  lemma ChildFather(d: Disk, n: nat, m: nat)
    requires DiskOk(d) && Child(d, n, m)
    ensures InodeAt(d, m).father == n && m != ROOT && m in d.used
  {
    var i: nat :| Link(d, n, i) && EntriesAt(d, n)[i].ino == m;
  }

  /** What hangs below the end of a way is not on the way. */
  lemma NotOnTheWay(d: Disk, way: seq<nat>, n: nat, i: nat)
    requires DiskOk(d) && WayTo(d, way, n) && Link(d, n, i)
    ensures EntriesAt(d, n)[i].ino >= 0 && EntriesAt(d, n)[i].ino !in way
  {
    var c := EntriesAt(d, n)[i].ino;
    if c in way {
      var k :| 0 <= k < |way| && way[k] == c;
      assert k != 0;
      assert Child(d, way[k - 1], way[k - 1 + 1]);
      ChildFather(d, way[k - 1], c);
    }
  }

  lemma ShrunkLinks(d: Disk, r: Disk, here: nat, i: nat, c: nat)
    requires DiskOk(d) && Shrunk(d, r, here, i, c) && c != here
    ensures forall n: nat {:trigger IsDir(r, n)} :: IsDir(r, n) <==> IsDir(d, n) && n != c
    ensures forall n: nat, j: nat {:trigger Link(r, n, j)} ::
      Link(r, n, j) <==> Link(d, n, j) && n != c && !(n == here && j == i)
  {
  }

  lemma ShrunkOk(d: Disk, r: Disk, here: nat, i: nat, c: nat)
    requires DiskOk(d) && Shrunk(d, r, here, i, c) && c != here
    ensures DiskOk(r)
  {
    ShrunkLinks(d, r, here, i, c);
    forall n: nat, j: nat | Link(r, n, j)
      ensures Link(d, n, j) && EntriesAt(r, n)[j] == EntriesAt(d, n)[j] && EntriesAt(r, n)[j].ino != c
    {
      assert Link(d, n, j);
    }
    forall n: nat, j: nat, m: nat, k: nat | Link(r, n, j) && Link(r, m, k) && EntriesAt(r, n)[j].ino == EntriesAt(r, m)[k].ino
      ensures n == m && j == k
    {
      assert Link(d, n, j) && Link(d, m, k);
    }
  }

  lemma ShrunkReach(d: Disk, r: Disk, here: nat, i: nat, c: nat, way: seq<nat>)
    requires DiskOk(d) && Shrunk(d, r, here, i, c) && WayTo(d, way, here)
    ensures c != here && WayTo(r, way, here)
  {
    NotOnTheWay(d, way, here, i);
    assert way[|way| - 1] == here;
    ShrunkLinks(d, r, here, i, c);
    forall k | 0 <= k < |way| - 1
      ensures Child(r, way[k], way[k + 1])
    {
      assert Child(d, way[k], way[k + 1]);
      var j: nat :| Link(d, way[k], j) && EntriesAt(d, way[k])[j].ino == way[k + 1];
      assert way[k] in way && way[k + 1] in way;
      assert way[k] != here;
      assert Link(r, way[k], j);
    }
  }

  /** rm and rmdir keep the file system consistent, full subdirectories included. */
  lemma RemoveKeeps(fs: Fs, mode: Mode, name: string)
    requires Consistent(fs) && (mode == DirMode ==> name != "." && name != "..")
    ensures Consistent(Remove(fs, mode, name))
  {
    var d, here := fs.disk, fs.shell.ino;
    var es := EntriesAt(d, here);
    var i := Find(es, mode, name, 0);
    RemoveShrinks(fs, mode, name);
    if i != DENTRYS {
      var r := Remove(fs, mode, name).disk;
      var way :| WayTo(d, way, here);
      ShrunkReach(d, r, here, i, es[i].ino, way);
      ShrunkOk(d, r, here, i, es[i].ino);
      ShrunkLinks(d, r, here, i, es[i].ino);
    }
  }

  lemma RemoveDirKeeps(fs: Fs, name: string)
    requires Consistent(fs)
    ensures Consistent(RemoveDir(fs, name))
  {
    if name != "." && name != ".." {
      RemoveKeeps(fs, DirMode, name);
    }
  }

  // -------------------------------------------------------------------- paths

  ghost predicate Here(d: Disk, e: Inode) {
    IsDir(d, e.ino) && Reachable(d, e.ino) && e == InodeAt(d, e.ino)
  }

  /** The three kinds of step: stay, go up to the father, go down to a child. */
  lemma EnterCases(d: Disk, e: Inode, name: string)
    requires DiskOk(d) && Here(d, e) && Enter(d, e, name).Some?
    ensures var m := Enter(d, e, name).value;
      && (name == "." ==> m == e)
      && (name == ".." ==> m == InodeAt(d, e.father))
      && (name != "." && name != ".." ==> Child(d, e.ino, m.ino) && m == InodeAt(d, m.ino))
  {
    var es := EntriesAt(d, e.ino);
    var j := Find(es, DirMode, name, 0);
    assert IsDir(d, e.ino);
    assert Named(es[0], DirMode, ".") && Named(es[1], DirMode, "..");
    if name != "." && name != ".." {
      assert Link(d, e.ino, j);
    }
  }

  /** Above a directory other than the root there is one directory nearer to the root. */
  lemma UpReach(d: Disk, n: nat, way: seq<nat>)
    requires DiskOk(d) && WayTo(d, way, n) && n != ROOT
    ensures |way| >= 2 && InodeAt(d, n).father == way[|way| - 2] && way[|way| - 2] != n
    ensures WayTo(d, way[..|way| - 1], way[|way| - 2]) && IsDir(d, way[|way| - 2])
  {
    var k := |way| - 2;
    assert Child(d, way[k], way[k + 1]);
    ChildFather(d, way[k], n);
    var up := way[..k + 1];
    forall i | 0 <= i < |up| - 1
      ensures Child(d, up[i], up[i + 1])
    {
      assert Child(d, way[i], way[i + 1]);
    }
    var j: nat :| Link(d, way[k], j) && EntriesAt(d, way[k])[j].ino == n;
  }

  lemma DownReach(d: Disk, n: nat, m: nat)
    requires DiskOk(d) && Reachable(d, n) && Child(d, n, m)
    ensures Reachable(d, m)
  {
    var way :| WayTo(d, way, n);
    var i: nat :| Link(d, n, i) && EntriesAt(d, n)[i].ino == m;
    NotOnTheWay(d, way, n, i);
    var down := way + [m];
    forall k | 0 <= k < |down| - 1
      ensures Child(d, down[k], down[k + 1])
    {
      if k < |way| - 1 {
        assert Child(d, way[k], way[k + 1]);
      }
    }
    assert WayTo(d, down, m);
  }

  lemma EnterReach(d: Disk, e: Inode, name: string)
    requires DiskOk(d) && Here(d, e) && Enter(d, e, name).Some?
    ensures Here(d, Enter(d, e, name).value)
  {
    EnterCases(d, e, name);
    var m := Enter(d, e, name).value;
    if name == ".." {
      if e.ino != ROOT {
        var way :| WayTo(d, way, e.ino);
        UpReach(d, e.ino, way);
      }
    } else if name != "." {
      DownReach(d, e.ino, m.ino);
    }
  }

  /** Every directory a path leads to, even part of the way, is in the tree. */
  lemma {:induction false} WalkReach(d: Disk, e: Inode, path: seq<string>)
    requires DiskOk(d) && Here(d, e)
    ensures Here(d, Walk(d, e, path).0)
    decreases |path|
  {
    if path != [] && Enter(d, e, path[0]).Some? {
      EnterReach(d, e, path[0]);
      WalkReach(d, Enter(d, e, path[0]).value, path[1..]);
    }
  }

  /** cd keeps the file system consistent: the shell stays in a directory below the root. */
  lemma ChangeDirKeeps(fs: Fs, absolute: bool, path: seq<string>)
    requires Consistent(fs)
    ensures Consistent(ChangeDir(fs, absolute, path))
  {
    RootReachable(fs.disk);
    WalkReach(fs.disk, InodeAt(fs.disk, if absolute then ROOT else fs.shell.ino), path);
  }

  /** Resolving p/q is resolving q from where p leads. */
  lemma {:induction false} WalkConcat(d: Disk, e: Inode, p: seq<string>, q: seq<string>)
    ensures Walk(d, e, p + q) == if Walk(d, e, p).1 then Walk(d, Walk(d, e, p).0, q) else Walk(d, e, p)
    decreases |p|
  {
    if p == [] {
      assert p + q == q;
    } else {
      assert (p + q)[1..] == p[1..] + q;
      if Enter(d, e, p[0]).Some? {
        WalkConcat(d, Enter(d, e, p[0]).value, p[1..], q);
      }
    }
  }

  lemma DotDot(d: Disk, e: Inode)
    requires DiskOk(d) && Here(d, e)
    ensures Enter(d, e, "..") == Some(InodeAt(d, e.father)) && Enter(d, e, ".") == Some(e)
    ensures InodeAt(d, e.father).ino == e.ino <==> e.ino == ROOT
    ensures InodeAt(d, InodeAt(d, e.father).father).ino == e.ino <==> e.ino == ROOT
  {
    var es := EntriesAt(d, e.ino);
    assert IsDir(d, e.ino);
    assert Named(es[0], DirMode, ".") && Named(es[1], DirMode, "..");
    assert Find(es, DirMode, ".", 0) == 0 && Find(es, DirMode, "..", 0) == 1;
    assert ROOT in d.used;
    if e.ino != ROOT {
      var way :| WayTo(d, way, e.ino);
      UpReach(d, e.ino, way);
      var f := way[|way| - 2];
      assert InodeAt(d, f).ino == f;
      if f != ROOT {
        UpReach(d, f, way[..|way| - 1]);
        assert way[..|way| - 1][|way| - 3] == way[|way| - 3];
        assert InodeAt(d, way[|way| - 3]).ino == way[|way| - 3];
      }
    }
  }

  /** d/.. comes back exactly when d is a real subdirectory, or the start is the root. */
  lemma ThereAndBack(d: Disk, e: Inode, name: string)
    requires DiskOk(d) && Here(d, e) && Enter(d, e, name).Some?
    ensures Walk(d, e, [name, ".."]).1
    ensures Walk(d, e, [name, ".."]).0 == e <==> (name != "." && name != "..") || e.ino == ROOT
  {
    EnterCases(d, e, name);
    EnterReach(d, e, name);
    var m := Enter(d, e, name).value;
    DotDot(d, e);
    DotDot(d, m);
    assert [name, ".."][1..] == [".."] && [".."][1..] == [];
    assert Walk(d, m, [".."]) == Walk(d, InodeAt(d, m.father), []);
    if name != "." && name != ".." {
      ChildFather(d, e.ino, m.ino);
    }
  }

  // ------------------------------------------------------- create against remove

  /** A new name is found where it was put, with the inode it was given. */
  lemma CreateThenFind(fs: Fs, mode: Mode, name: string, now: nat, scratch: Bytes)
    requires Consistent(fs) && CanCreate(fs, name)
    requires Find(EntriesAt(fs.disk, fs.shell.ino), mode, name, 0) == DENTRYS
    ensures var r, i := Create(fs, mode, name, now, scratch), FirstFree(EntriesAt(fs.disk, fs.shell.ino), 0);
      && Find(EntriesAt(r.disk, r.shell.ino), mode, name, 0) == i
      && EntriesAt(r.disk, r.shell.ino)[i].ino == LowestFree(fs.used, 0)
  {
    var r := Create(fs, mode, name, now, scratch);
    var es := EntriesAt(fs.disk, fs.shell.ino);
    var i := FirstFree(es, 0);
    var es' := EntriesAt(r.disk, fs.shell.ino);
    assert es' == es[i := Dentry(LowestFree(fs.used, 0), mode, name)];
    assert Named(es'[i], mode, name);
    assert forall j :: 0 <= j < i ==> es'[j] == es[j] && !Named(es[j], mode, name);
  }

  /** Removing what was just created gives back its inode and every directory as it was. */
  lemma CreateThenRemove(fs: Fs, mode: Mode, name: string, now: nat, scratch: Bytes)
    requires Consistent(fs) && CanCreate(fs, name) && (mode == DirMode ==> name != "." && name != "..")
    requires Find(EntriesAt(fs.disk, fs.shell.ino), mode, name, 0) == DENTRYS
    ensures var r := Remove(Create(fs, mode, name, now, scratch), mode, name);
      && r.used == fs.used && r.shell == fs.shell
      && (forall n: nat :: n in fs.used ==> InodeAt(r.disk, n) == InodeAt(fs.disk, n))
      && (forall n: nat, j: nat :: n in fs.used && j < DENTRYS ==>
            EntriesAt(r.disk, n)[j] == EntriesAt(fs.disk, n)[j]
            || (EntriesAt(r.disk, n)[j].ino == -1 && EntriesAt(fs.disk, n)[j].ino == -1))
  {
    var c := Create(fs, mode, name, now, scratch);
    CreateKeeps(fs, mode, name, now, scratch);
    CreateThenFind(fs, mode, name, now, scratch);
    RemoveShrinks(c, mode, name);
    CreateGrows(fs, mode, name, now, scratch);
    var r := Remove(c, mode, name);
    forall n: nat | n in fs.used
      ensures InodeAt(r.disk, n) == InodeAt(c.disk, n) && InodeAt(c.disk, n) == InodeAt(fs.disk, n)
    {
    }
  }

  // -------------------------------------------------------------------- files

  /** Two disks with the same tree: the same records, directories and kinds of block. */
  ghost predicate SameTree(d: Disk, r: Disk) {
    && r.formatted == d.formatted && r.used == d.used && r.inodes == d.inodes
    && (forall n {:trigger n in r.blocks} :: n in d.blocks ==>
          n in r.blocks && (r.blocks[n].DirBlock? <==> d.blocks[n].DirBlock?))
    && (forall n: nat {:trigger EntriesAt(r, n)} :: EntriesAt(r, n) == EntriesAt(d, n))
  }

  /** The same tree as far as inodes in use go. */
  ghost predicate SameInUse(d: Disk, r: Disk) {
    && r.formatted == d.formatted && r.used == d.used && r.inodes == d.inodes
    && (forall n {:trigger n in r.blocks} :: n in d.used && n in d.blocks ==>
          n in r.blocks && (r.blocks[n].DirBlock? <==> d.blocks[n].DirBlock?))
    && (forall n: nat {:trigger EntriesAt(r, n)} :: n in d.used ==> EntriesAt(r, n) == EntriesAt(d, n))
  }

  lemma SameTreeOk(d: Disk, r: Disk, n: nat)
    requires DiskOk(d) && SameInUse(d, r) && Reachable(d, n)
    ensures DiskOk(r) && Reachable(r, n)
  {
    assert forall m: nat {:trigger IsDir(r, m)} :: IsDir(r, m) <==> IsDir(d, m);
    assert forall m: nat, i: nat {:trigger Link(r, m, i)} :: Link(r, m, i) <==> Link(d, m, i);
    var way :| WayTo(d, way, n);
    forall i | 0 <= i < |way| - 1
      ensures Child(r, way[i], way[i + 1])
    {
      assert Child(d, way[i], way[i + 1]);
      var j: nat :| Link(d, way[i], j) && EntriesAt(d, way[i])[j].ino == way[i + 1];
      assert Link(r, way[i], j);
    }
    assert WayTo(r, way, n);
  }

  /** Writing to a file keeps the file system consistent: the tree does not notice. */
  lemma WriteFileKeeps(fs: Fs, ino: nat, pos: nat, buf: seq<Byte>)
    requires Consistent(fs) && IsFile(fs.disk, ino) && pos + |buf| <= BLOCK_BYTES
    ensures ino in fs.disk.blocks && fs.disk.blocks[ino].FileBlock?
    ensures Consistent(WriteFile(fs, ino, pos, buf)) && SameTree(fs.disk, WriteFile(fs, ino, pos, buf).disk)
  {
    SameTreeOk(fs.disk, WriteFile(fs, ino, pos, buf).disk, fs.shell.ino);
  }

  /** Any bytes may go into the block of an inode that is a file or not in use. */
  lemma PutFileKeeps(fs: Fs, ino: nat, b: Bytes)
    requires Consistent(fs) && !IsDir(fs.disk, ino)
    ensures Consistent(fs.(disk := PutBlock(fs.disk, ino, FileBlock(b))))
  {
    SameTreeOk(fs.disk, PutBlock(fs.disk, ino, FileBlock(b)), fs.shell.ino);
  }

  /**
   fopen yields a file of that name in the shell's directory, old or new, and
   opening it again yields the same one and changes nothing.
   */
  lemma OpenFinds(fs: Fs, name: string, now: nat, scratch: Bytes, now': nat, scratch': Bytes)
    requires Consistent(fs) && CanOpen(fs, name)
    ensures var (r, ino) := Open(fs, name, now, scratch);
      && Consistent(r) && r.shell == fs.shell
      && ino >= 0 && IsFile(r.disk, ino) && InodeAt(r.disk, ino).name == name && InodeAt(r.disk, ino).father == r.shell.ino
      && (Find(EntriesAt(fs.disk, fs.shell.ino), FileMode, name, 0) < DENTRYS ==> r == fs)
      && CanOpen(r, name) && Open(r, name, now', scratch') == (r, ino)
  {
    var r := Open(fs, name, now, scratch).0;
    if Find(EntriesAt(fs.disk, fs.shell.ino), FileMode, name, 0) == DENTRYS {
      CreateThenFind(fs, FileMode, name, now, scratch);
      CreateKeeps(fs, FileMode, name, now, scratch);
    }
    hide Create;
    var i := Find(EntriesAt(r.disk, r.shell.ino), FileMode, name, 0);
    assert Link(r.disk, r.shell.ino, i);
  }

  // --------------------------------------------------------------------- runs

  datatype Op =
    | Mkfs(now: nat) | Mkdir(name: string, now: nat) | Touch(name: string, now: nat)
    | Rm(name: string) | Rmdir(name: string) | Cd(absolute: bool, path: seq<string>)
    | Fopen(name: string, now: nat) | Fwrite(ino: nat, pos: nat, buf: seq<Byte>)

  /** One call; None where the source would write past a buffer or to a removed file. */
  function Step(fs: Fs, op: Op, scratch: Bytes): Option<Fs> {
    match op
    case Mkfs(now) => Some(MakeFs(fs, now, scratch))
    case Mkdir(name, now) => if CanCreate(fs, name) then Some(Create(fs, DirMode, name, now, scratch)) else None
    case Touch(name, now) => if CanCreate(fs, name) then Some(Create(fs, FileMode, name, now, scratch)) else None
    case Rm(name) => Some(Remove(fs, FileMode, name))
    case Rmdir(name) => Some(RemoveDir(fs, name))
    case Cd(absolute, path) => Some(ChangeDir(fs, absolute, path))
    case Fopen(name, now) => if CanOpen(fs, name) then Some(Open(fs, name, now, scratch).0) else None
    case Fwrite(ino, pos, buf) => if CanWrite(fs, ino, pos, buf) then Some(WriteFile(fs, ino, pos, buf)) else None
  }

  /** The inode of a file that has not been removed, and a place inside its block. */
  predicate CanWrite(fs: Fs, ino: nat, pos: nat, buf: seq<Byte>) {
    && IsFile(fs.disk, ino) && pos + |buf| <= BLOCK_BYTES
    && ino in fs.disk.blocks && fs.disk.blocks[ino].FileBlock?
  }

  lemma StepKeeps(fs: Fs, op: Op, scratch: Bytes)
    requires Consistent(fs) && Step(fs, op, scratch).Some?
    ensures Consistent(Step(fs, op, scratch).value)
  {
    match op
    case Mkfs(now) => MakeFsKeeps(fs, now, scratch);
    case Mkdir(name, now) => CreateKeeps(fs, DirMode, name, now, scratch);
    case Touch(name, now) => CreateKeeps(fs, FileMode, name, now, scratch);
    case Rm(name) => RemoveKeeps(fs, FileMode, name);
    case Rmdir(name) => RemoveDirKeeps(fs, name);
    case Cd(absolute, path) => ChangeDirKeeps(fs, absolute, path);
    case Fopen(name, now) => OpenFinds(fs, name, now, scratch, now, scratch);
    case Fwrite(ino, pos, buf) => WriteFileKeeps(fs, ino, pos, buf);
  }

  ghost predicate IsRun(run: seq<Fs>, ops: seq<Op>, scratch: seq<Bytes>) {
    |run| == |ops| + 1 && |scratch| == |ops|
    && forall i :: 0 <= i < |ops| ==> Step(run[i], ops[i], scratch[i]) == Some(run[i + 1])
  }

  /**
   A file opened anew, removed, and a directory made: the directory has the
   inode of the file.
   */
  lemma InodeReused(fs: Fs, file: string, dir: string, now: nat, scratch: Bytes, now': nat, scratch': Bytes)
    requires Consistent(fs) && CanCreate(fs, file) && |dir| < 24
    requires Find(EntriesAt(fs.disk, fs.shell.ino), FileMode, file, 0) == DENTRYS
    ensures CanOpen(fs, file)
    ensures var (withFile, ino) := Open(fs, file, now, scratch);
      var without := Remove(withFile, FileMode, file);
      && ino == LowestFree(fs.used, 0) && Consistent(without) && CanCreate(without, dir)
      && IsDir(Create(without, DirMode, dir, now', scratch').disk, ino)
  {
    var withFile := Create(fs, FileMode, file, now, scratch);
    var without := Remove(withFile, FileMode, file);
    CreateKeeps(fs, FileMode, file, now, scratch);
    CreateThenFind(fs, FileMode, file, now, scratch);
    CreateThenRemove(fs, FileMode, file, now, scratch);
    RemoveKeeps(withFile, FileMode, file);
    hide Create, Remove;
    FreeAgain(EntriesAt(fs.disk, fs.shell.ino), EntriesAt(without.disk, without.shell.ino));
    CreateKeeps(without, DirMode, dir, now', scratch');
    CreateGrows(without, DirMode, dir, now', scratch');
  }

  lemma FreeAgain(es: Entries, es': Entries)
    requires FirstFree(es, 0) < DENTRYS
    requires forall j: nat :: j < DENTRYS ==> es'[j] == es[j] || (es'[j].ino == -1 && es[j].ino == -1)
    ensures FirstFree(es', 0) < DENTRYS
  {
    assert es'[FirstFree(es, 0)].ino == -1;
  }

  /**
   From a mount of any disk that is blank or consistent, every state of every
   run of mkfs, mkdir, touch, rm, rmdir, cd, fopen and fwrite is consistent.
   */
  lemma {:induction false} RunConsistent(fs: Fs, now: nat, s0: Bytes, run: seq<Fs>, ops: seq<Op>, scratch: seq<Bytes>, n: nat)
    requires fs.disk.formatted ==> DiskOk(fs.disk)
    requires IsRun(run, ops, scratch) && run[0] == MakeFs(fs, now, s0) && n <= |ops|
    ensures Consistent(run[n])
  {
    if n == 0 {
      MakeFsKeeps(fs, now, s0);
    } else {
      RunConsistent(fs, now, s0, run, ops, scratch, n - 1);
      assert Step(run[n - 1], ops[n - 1], scratch[n - 1]) == Some(run[n - 1 + 1]);
      StepKeeps(run[n - 1], ops[n - 1], scratch[n - 1]);
    }
  }
}
