/**
 The file system as the source writes it: the inode map as an array of words
 searched and changed in place, and the shell's globals updated by loops over
 directory entries and path components (kernel/fs/{path,text,fs,disk}.c).
 Every method is proved to do what the functions of FileSystem.dfy say.
 */
module FileSystemImpl {
  import opened Prelude
  import opened FileSystem
  import B = Bitmap
  import P = Paths

  const MAP_WORDS: nat := 0x400

  // --------------------------------------------------- the map as a set of inodes

  function Used(words: seq<bv32>): set<nat>
    requires |words| == MAP_WORDS
  {
    set k: nat | k < INODES && B.BitAt(words, k)
  }

  lemma UsedModified(words: seq<bv32>, t: bool, k: nat)
    requires |words| == MAP_WORDS && k < INODES
    ensures Used(B.Modified(words, t, k)) == if t then Used(words) + {k} else Used(words) - {k}
  {
    hide B.BitAt, B.Modified;
    forall n: nat | n < INODES
      ensures B.BitAt(B.Modified(words, t, k), n) == if n == k then t else B.BitAt(words, n)
    {
      B.ModifyOne(words, t, k, n);
    }
  }

  /** The word-skipping search finds the lowest free inode. */
  lemma {:induction false} ScanIsLowest(words: seq<bv32>, k: nat)
    requires |words| == MAP_WORDS && k <= INODES
    ensures var l := LowestFree(Used(words), k);
      B.Scan(words, false, k, INODES) == if l == INODES then -2 else l
    decreases INODES - k
  {
    if k < INODES {
      ScanIsLowest(words, k + 1);
      hide B.BitAt;
      assert k in Used(words) <==> B.BitAt(words, k);
    }
  }

  // ------------------------------------------------------------ scanning loops

  /** The loop of make_directory and touch_file that looks for a free entry. */
  method FreeEntry(es: Entries) returns (i: nat)
    ensures i == FirstFree(es, 0)
  {
    i := 0;
    while i < DENTRYS
      invariant i <= DENTRYS && FirstFree(es, i) == FirstFree(es, 0)
    {
      if es[i].ino == -1 {
        break;
      }
      i := i + 1;
    }
  }

  /** The loop of remove_directory, remove_file, sys_fopen and decode_path. */
  method FindEntry(es: Entries, mode: Mode, name: string) returns (i: nat)
    ensures i == Find(es, mode, name, 0)
  {
    i := 0;
    while i < DENTRYS
      invariant i <= DENTRYS && Find(es, mode, name, i) == Find(es, mode, name, 0)
    {
      if es[i].ino != -1 && es[i].mode == mode && es[i].name == name {
        break;
      }
      i := i + 1;
    }
  }

  /** The string at a pointer into the path buffer, as strcmp reads it. */
  method CString(buf: array<char>, a: nat, ghost t: string) returns (s: string)
    requires P.StringAt(buf[..], a, t)
    ensures s == t
  {
    s := [];
    var i := a;
    while buf[i] != '\0'
      invariant a <= i <= a + |t| && s == t[..i - a]
      invariant i < a + |t| ==> t[i - a] == buf[i] && buf[i] != '\0'
      decreases a + |t| - i
    {
      s := s + [buf[i]];
      i := i + 1;
      if i < a + |t| { assert t[i - a] == buf[i]; }
    }
  }

  class FileSys {
    const words: array<bv32>
    var disk: Disk
    var shell: Inode
    var cur: Inode

    ghost predicate Valid()
      reads this
    {
      words.Length == MAP_WORDS
    }

    ghost function Abs(): Fs
      reads this, words
      requires Valid()
    {
      Fs(disk, Used(words[..]), shell, cur)
    }

    constructor (disk: Disk, shell: Inode, cur: Inode)
      ensures Valid() && fresh(words) && this.disk == disk
    {
      words := new bv32[MAP_WORDS];
      this.disk, this.shell, this.cur := disk, shell, cur;
    }

    /** inode_alloc */
    method InodeAlloc() returns (ino: nat)
      requires Valid() && LowestFree(Abs().used, 0) < INODES
      modifies words, `disk
      ensures ino == LowestFree(old(Abs()).used, 0)
      ensures Abs().used == old(Abs()).used + {ino} && disk == old(disk).(used := Abs().used)
    {
      ScanIsLowest(words[..], 0);
      var r := B.Search(words, 0, INODES);
      ino := r;
      UsedModified(words[..], true, ino);
      r := B.Modify(words, 1, ino);
      disk := disk.(used := Used(words[..])); // inode_map_write
    }

    /** inode_delete */
    method InodeDelete(ino: nat)
      requires Valid() && ino < INODES
      modifies words, `disk
      ensures Abs().used == old(Abs()).used - {ino} && disk == old(disk).(used := Abs().used)
    {
      UsedModified(words[..], false, ino);
      var r := B.Modify(words, 0, ino);
      disk := disk.(used := Used(words[..])); // inode_map_write
    }

    /** make_directory and touch_file */
    method MakeNode(mode: Mode, name: string, now: nat, scratch: Bytes)
      requires Valid() && CanCreate(Abs(), name)
      modifies this, words
      ensures Abs() == Create(old(Abs()), mode, name, now, scratch)
    {
      var es := EntriesAt(disk, shell.ino);
      var i := FreeEntry(es);
      var ino := InodeAlloc();
      disk := CreateInode(disk, Inode(name, ino, mode, shell.ino, now), scratch);
      es := es[i := Dentry(ino, mode, name)];
      disk := PutBlock(disk, shell.ino, DirBlock(es));
    }

    /** sys_fopen, its fd table aside: look, and touch and look again when there is none. */
    method FOpen(name: string, now: nat, scratch: Bytes) returns (ino: int)
      requires Valid() && CanOpen(Abs(), name)
      modifies this, words
      ensures (Abs(), ino) == Open(old(Abs()), name, now, scratch)
    {
      var es := EntriesAt(disk, shell.ino);
      var i := FindEntry(es, FileMode, name);
      hide Create, Find, CanCreate, EntriesAt;
      if i < DENTRYS {
        return es[i].ino;
      }
      MakeNode(FileMode, name, now, scratch);
      es := EntriesAt(disk, shell.ino);
      i := FindEntry(es, FileMode, name);
      return if i < DENTRYS then es[i].ino else -1;
    }

    /** remove_file, and the loop of remove_directory */
    method RemoveNode(mode: Mode, name: string)
      requires Valid() && Consistent(Abs()) && (mode == DirMode ==> name != "." && name != "..")
      modifies this, words
      ensures Abs() == Remove(old(Abs()), mode, name)
    {
      hide Consistent, Find, EntriesAt, PutBlock;
      InUse(Abs(), mode, name);
      var es := EntriesAt(disk, shell.ino);
      var i := FindEntry(es, mode, name);
      if i < DENTRYS {
        InodeDelete(es[i].ino);
        es := es[i := es[i].(ino := -1)];
      }
      disk := PutBlock(disk, shell.ino, DirBlock(es));
    }

    method RemoveDirectory(name: string)
      requires Valid() && Consistent(Abs())
      modifies this, words
      ensures Abs() == RemoveDir(old(Abs()), name)
      ensures Consistent(Abs())
    {
      RemoveDirKeeps(Abs(), name);
      if name == "." || name == ".." {
        return;
      }
      RemoveNode(DirMode, name);
    }

    /** decode_path: -1 when a component is missing; cur_dir is where the walk stopped. */
    method DecodePath(path: string) returns (r: int)
      requires Valid() && P.IsCString(path) && |path| < P.BUF && DiskOk(disk)
      requires Here(disk, InodeAt(disk, shell.ino))
      modifies `cur
      ensures var start := InodeAt(disk, if path != [] && path[0] == '/' then ROOT else shell.ino);
        (cur, r == 1) == Walk(disk, start, P.Split(path)) && (r == 1 || r == -1)
    {
      RootHere(disk);
      hide DiskOk, Here, Walk, P.Split;
      var buf, args := new char[P.BUF], new nat[P.MAX_ARGS];
      var num := P.Tokenise(path, buf, args);
      cur := InodeAt(disk, if buf[0] == '/' then ROOT else shell.ino);
      r := Follow(buf, args, num, P.Split(path), |path|);
    }

    /** The outer loop of decode_path: follow the components from cur_dir. */
    method Follow(buf: array<char>, args: array<nat>, num: nat, ghost ts: seq<string>, ghost n: nat) returns (r: int)
      requires Valid() && DiskOk(disk) && Here(disk, cur)
      requires num <= args.Length && P.Tokens(buf[..], args[..num], ts, n)
      modifies `cur
      ensures (cur, r == 1) == Walk(disk, old(cur), ts) && (r == 1 || r == -1)
    {
      hide DiskOk, Here, P.StringAt;
      r := 1;
      var i := 0;
      assert ts[0..] == ts;
      while i < num
        invariant i <= num && Here(disk, cur)
        invariant Walk(disk, old(cur), ts) == Walk(disk, cur, ts[i..])
      {
        assert P.StringAt(buf[..], args[..num][i], ts[i]);
        var name := CString(buf, args[i], ts[i]);
        var found := EnterDir(name);
        assert ts[i..][0] == ts[i] && ts[i..][1..] == ts[i + 1..];
        if !found {
          return -1;
        }
        i := i + 1;
      }
      assert ts[num..] == [];
    }

    /** The inner loop of decode_path: one component. */
    method EnterDir(name: string) returns (found: bool)
      requires Valid() && DiskOk(disk) && Here(disk, cur)
      modifies `cur
      ensures found == Enter(disk, old(cur), name).Some?
      ensures cur == if found then Enter(disk, old(cur), name).value else old(cur)
      ensures Here(disk, cur)
    {
      hide DiskOk, Here, Find, EntriesAt, InodeAt;
      var es := EntriesAt(disk, cur.ino);
      var j := FindEntry(es, DirMode, name);
      EntryNumber(disk, cur, j);
      found := j < DENTRYS;
      if found {
        EnterReach(disk, cur, name);
        cur := InodeAt(disk, es[j].ino);
      }
    }

    /** change_directory */
    method ChangeDirectory(path: string)
      requires Valid() && P.IsCString(path) && |path| < P.BUF && Consistent(Abs())
      modifies `cur, `shell
      ensures Abs() == ChangeDir(old(Abs()), path != [] && path[0] == '/', P.Split(path))
      ensures Consistent(Abs())
    {
      ChangeDirKeeps(Abs(), path != [] && path[0] == '/', P.Split(path));
      var r := DecodePath(path);
      if r < 0 {
        return;
      }
      shell := InodeAt(disk, cur.ino);
    }
  }

  lemma RootHere(d: Disk)
    requires DiskOk(d)
    ensures Here(d, InodeAt(d, ROOT))
  {
    assert ROOT in d.used;
    RootReachable(d);
  }

  /** What an entry found in the shell's directory names is in use. */
  lemma InUse(fs: Fs, mode: Mode, name: string)
    requires Consistent(fs) && (mode == DirMode ==> name != "." && name != "..")
    ensures var es := EntriesAt(fs.disk, fs.shell.ino);
      var i := Find(es, mode, name, 0);
      i < DENTRYS ==> 0 <= es[i].ino < INODES
  {
    var es := EntriesAt(fs.disk, fs.shell.ino);
    var i := Find(es, mode, name, 0);
    if i < DENTRYS {
      RemoveShrinks(fs, mode, name);
      assert Link(fs.disk, fs.shell.ino, i);
    }
  }

  /** Entries of a directory are free or hold an inode number. */
  lemma EntryNumber(d: Disk, e: Inode, j: nat)
    requires DiskOk(d) && Here(d, e)
    ensures j < DENTRYS ==> EntriesAt(d, e.ino)[j].ino >= -1
  {
    assert IsDir(d, e.ino);
    if 2 <= j < DENTRYS && EntriesAt(d, e.ino)[j].ino != -1 {
      assert Link(d, e.ino, j);
    }
  }
}
