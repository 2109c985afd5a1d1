/**
 The file system calls on the bytes of the card, as the files of kernel/fs carry them
 out: sectors read into structures, fields changed, sectors written back. Each
 call is proved to be the call of FileSystem.dfy, so what holds of every run
 there holds of the card.
 */
module CardFs {
  import opened Prelude
  import opened FileSystem
  import opened DiskLayout
  import FileIo
  import B = Bitmap
  import I = FileSystemImpl

  const FS_MAGIC: nat := 0x0711

  // ------------------------------------------------------- the map, word by word

  /** inode_map in memory. */
  type Words = s: seq<bv32> | |s| == I.MAP_WORDS witness seq(I.MAP_WORDS, _ => 0)

  function WordNat(w: bv32): (n: nat)
    ensures n < WORD
  {
    w as nat
  }

  function NatWord(n: nat): bv32
    requires n < WORD
  {
    n as bv32
  }

  lemma NatRoundTrip(w: bv32)
    ensures NatWord(WordNat(w)) == w
  {
  }

  function WordBytes(ws: Words): (m: seq<Byte>)
    ensures |m| == MAP_BYTES
  {
    seq(MAP_BYTES, k requires 0 <= k < MAP_BYTES => U32(WordNat(ws[k / 4]))[k % 4])
  }

  function WordAt(m: seq<Byte>, i: nat): bv32
    requires |m| == MAP_BYTES && i < I.MAP_WORDS
  {
    NatWord(FromU32(m[4 * i..4 * i + 4]))
  }

  function BytesWords(m: seq<Byte>): Words
    requires |m| == MAP_BYTES
  {
    seq(I.MAP_WORDS, i requires 0 <= i < I.MAP_WORDS => WordAt(m, i))
  }

  lemma WordRoundTrip(ws: Words, i: nat)
    requires i < I.MAP_WORDS
    ensures WordAt(WordBytes(ws), i) == ws[i]
  {
    hide WordNat, NatWord, U32;
    var m, u := WordBytes(ws), U32(WordNat(ws[i]));
    Quarters(i);
    FourBytes(m, u, i);
    U32RoundTrip(WordNat(ws[i]));
    NatRoundTrip(ws[i]);
  }

  lemma Quarters(i: nat)
    ensures 4 * i / 4 == i && (4 * i + 1) / 4 == i && (4 * i + 2) / 4 == i && (4 * i + 3) / 4 == i
    ensures 4 * i % 4 == 0 && (4 * i + 1) % 4 == 1 && (4 * i + 2) % 4 == 2 && (4 * i + 3) % 4 == 3
  {
  }

  lemma FourBytes(m: seq<Byte>, u: seq<Byte>, i: nat)
    requires 4 * i + 4 <= |m| && |u| == 4
    requires m[4 * i] == u[0] && m[4 * i + 1] == u[1] && m[4 * i + 2] == u[2] && m[4 * i + 3] == u[3]
    ensures m[4 * i..4 * i + 4] == u
  {
  }

  lemma WordsRoundTrip(ws: Words)
    ensures BytesWords(WordBytes(ws)) == ws
  {
    forall i: nat | i < I.MAP_WORDS
      ensures BytesWords(WordBytes(ws))[i] == ws[i]
    {
      WordRoundTrip(ws, i);
    }
  }

  // -------------------------------------------------------- directory blocks

  /** An entry as it is read from a block. */
  function BytesEntry(b: seq<Byte>): Dentry
    requires |b| == FS_DENTRY_SIZE
  {
    var ino := FromU32(b[..4]);
    Dentry(if ino == WORD - 1 then -1 else ino, if FromU32(b[4..8]) == 1 then DirMode else FileMode, FieldName(b[8..]))
  }

  /** dir_block_read */
  function EntriesOn(c: Card, ino: nat): Entries {
    if ino < INODES then seq(DENTRYS, i requires 0 <= i < DENTRYS => BytesEntry(EntryPart(ReadSector(c, ino), i)))
    else seq(DENTRYS, _ => Dentry(-1, FileMode, ""))
  }

  /** Equal, or both free. */
  predicate Same(a: Dentry, b: Dentry) {
    a == b || (a.ino == -1 && b.ino == -1)
  }

  ghost predicate SameEntries(es: Entries, fs: Entries) {
    forall i: nat {:trigger es[i]} {:trigger fs[i]} :: i < DENTRYS ==> Same(es[i], fs[i])
  }

  /** Searches do not look into free entries. */
  lemma {:induction false} SearchSame(es: Entries, fs: Entries, mode: Mode, name: string, i: nat)
    requires SameEntries(es, fs) && i <= DENTRYS
    ensures FirstFree(es, i) == FirstFree(fs, i) && Find(es, mode, name, i) == Find(fs, mode, name, i)
    decreases DENTRYS - i
  {
    if i < DENTRYS {
      assert Same(es[i], fs[i]);
      SearchSame(es, fs, mode, name, i + 1);
    }
  }

  /** Entries that hold -1 or an inode number. */
  ghost predicate Numbered(es: Entries) {
    forall i: nat {:trigger es[i]} :: i < DENTRYS ==> -1 <= es[i].ino < INODES
  }

  lemma EntryDecodes(b: seq<Byte>, e: Dentry)
    requires EntryRep(b, e) && -1 <= e.ino < INODES
    ensures Same(BytesEntry(b), e)
  {
  }

  lemma EntriesDecode(c: Card, ino: nat, es: Entries)
    requires ino < INODES && BlockRep(ReadSector(c, ino), DirBlock(es)) && Numbered(es)
    ensures SameEntries(EntriesOn(c, ino), es)
  {
    forall i: nat | i < DENTRYS
      ensures Same(EntriesOn(c, ino)[i], es[i])
    {
      hide EntryRep, BytesEntry;
      EntryDecodes(EntryPart(ReadSector(c, ino), i), es[i]);
    }
  }

  /** Storing the three fields of entry i. */
  function PutEntry(b: seq<Byte>, i: nat, e: Dentry): (r: seq<Byte>)
    requires |b| == SECTOR_SIZE && i < DENTRYS && 0 <= e.ino < WORD && Plain(e.name) && |e.name| < 24
    ensures |r| == SECTOR_SIZE
  {
    Splice(b, FS_DENTRY_SIZE * i, EntryBytes(e, EntryPart(b, i)))
  }

  /** dentry[i].ino = -1 */
  function ClearEntry(b: seq<Byte>, i: nat): (r: seq<Byte>)
    requires |b| == SECTOR_SIZE && i < DENTRYS
    ensures |r| == SECTOR_SIZE
  {
    Splice(b, FS_DENTRY_SIZE * i, U32(WORD - 1))
  }

  lemma PartSplice(b: seq<Byte>, i: nat, src: seq<Byte>, j: nat)
    requires |b| == SECTOR_SIZE && i < DENTRYS && j < DENTRYS && |src| <= FS_DENTRY_SIZE
    ensures EntryPart(Splice(b, FS_DENTRY_SIZE * i, src), j) == if j == i then Splice(EntryPart(b, i), 0, src) else EntryPart(b, j)
  {
    var r := Splice(b, FS_DENTRY_SIZE * i, src);
    if j == i {
      assert EntryPart(r, i) == Splice(EntryPart(b, i), 0, src);
    } else {
      assert FS_DENTRY_SIZE * j + FS_DENTRY_SIZE <= FS_DENTRY_SIZE * i || FS_DENTRY_SIZE * i + FS_DENTRY_SIZE <= FS_DENTRY_SIZE * j;
      assert EntryPart(r, j) == EntryPart(b, j);
    }
  }

  lemma PutEntryRep(b: seq<Byte>, es: Entries, i: nat, e: Dentry)
    requires BlockRep(b, DirBlock(es)) && i < DENTRYS && 0 <= e.ino < WORD && Plain(e.name) && |e.name| < 24
    ensures BlockRep(PutEntry(b, i, e), DirBlock(es[i := e]))
  {
    var src := EntryBytes(e, EntryPart(b, i));
    EntryBytesRep(e, EntryPart(b, i));
    assert Splice(EntryPart(b, i), 0, src) == src;
    hide EntryRep, EntryBytes, EntryPart, Plain;
    forall j: nat | j < DENTRYS
      ensures EntryRep(EntryPart(PutEntry(b, i, e), j), es[i := e][j])
    {
      PartSplice(b, i, src, j);
    }
  }

  /** A free entry whatever else its bytes say. */
  lemma ClearedRep(p: seq<Byte>, e: Dentry)
    requires |p| == FS_DENTRY_SIZE && e.ino == -1
    ensures EntryRep(Splice(p, 0, U32(WORD - 1)), e)
  {
    U32RoundTrip(WORD - 1);
    assert Splice(p, 0, U32(WORD - 1))[..4] == U32(WORD - 1);
  }

  lemma ClearEntryRep(b: seq<Byte>, es: Entries, i: nat)
    requires BlockRep(b, DirBlock(es)) && i < DENTRYS
    ensures BlockRep(ClearEntry(b, i), DirBlock(es[i := es[i].(ino := -1)]))
  {
    ClearedRep(EntryPart(b, i), es[i].(ino := -1));
    hide EntryRep, EntryPart;
    forall j: nat | j < DENTRYS
      ensures EntryRep(EntryPart(ClearEntry(b, i), j), es[i := es[i].(ino := -1)][j])
    {
      PartSplice(b, i, U32(WORD - 1), j);
    }
  }

  /** The loop of dir_init from entry i on. */
  function Cleared(b: seq<Byte>, i: nat): (r: seq<Byte>)
    requires |b| == SECTOR_SIZE && i <= DENTRYS
    ensures |r| == SECTOR_SIZE
    decreases DENTRYS - i
  {
    if i == DENTRYS then b else Cleared(ClearEntry(b, i), i + 1)
  }

  const FREE: Dentry := Dentry(-1, FileMode, "")

  lemma {:induction false} ClearedPart(b: seq<Byte>, i: nat, j: nat)
    requires |b| == SECTOR_SIZE && i <= DENTRYS && j < DENTRYS
    requires j < i ==> EntryRep(EntryPart(b, j), FREE)
    ensures EntryRep(EntryPart(Cleared(b, i), j), FREE)
    decreases DENTRYS - i
  {
    if i < DENTRYS {
      ClearedRep(EntryPart(b, i), FREE);
      PartSplice(b, i, U32(WORD - 1), j);
      hide EntryRep, EntryPart;
      ClearedPart(ClearEntry(b, i), i + 1, j);
    }
  }

  /** dir_init; `scratch` is what its stack buffer happened to hold. */
  function FreshDirBytes(ino: nat, father: nat, scratch: Bytes): (b: seq<Byte>)
    requires ino < WORD && father < WORD
    ensures |b| == SECTOR_SIZE
  {
    PutEntry(PutEntry(Cleared(scratch, 0), 0, Dentry(ino, DirMode, ".")), 1, Dentry(father, DirMode, ".."))
  }

  /** The loop of dir_init, and its two entries, on the buffer itself. */
  method DirInit(db: array<Byte>, ino: nat, father: nat)
    requires db.Length == SECTOR_SIZE && ino < WORD && father < WORD
    modifies db
    ensures db[..] == FreshDirBytes(ino, father, old(db[..]))
    ensures BlockRep(db[..], DirBlock(FreshDir(ino, father)))
  {
    FreshDirRep(ino, father, db[..]);
    hide BlockRep, PutEntry, Cleared;
    ClearAll(db);
    StoreEntry(db, 0, Dentry(ino, DirMode, "."));
    StoreEntry(db, 1, Dentry(father, DirMode, ".."));
  }

  method ClearAll(db: array<Byte>)
    requires db.Length == SECTOR_SIZE
    modifies db
    ensures db[..] == Cleared(old(db[..]), 0)
  {
    hide U32;
    var i := 0;
    while i < DENTRYS
      invariant i <= DENTRYS && Cleared(db[..], i) == Cleared(old(db[..]), 0)
    {
      Store(db, FS_DENTRY_SIZE * i, U32(WORD - 1));
      i := i + 1;
    }
  }

  method StoreEntry(db: array<Byte>, i: nat, e: Dentry)
    requires db.Length == SECTOR_SIZE && i < DENTRYS && 0 <= e.ino < WORD && Plain(e.name) && |e.name| < 24
    modifies db
    ensures db[..] == PutEntry(old(db[..]), i, e)
  {
    hide EntryBytes;
    Store(db, FS_DENTRY_SIZE * i, EntryBytes(e, EntryPart(db[..], i)));
  }

  /** Assignments to fields of a buffer. */
  method Store(b: array<Byte>, pos: nat, src: seq<Byte>)
    requires pos + |src| <= b.Length
    modifies b
    ensures b[..] == Splice(old(b[..]), pos, src)
  {
    forall i | 0 <= i < |src| {
      b[pos + i] := src[i];
    }
    assert b[..] == Splice(old(b[..]), pos, src);
  }

  lemma FreshDirRep(ino: nat, father: nat, scratch: Bytes)
    requires ino < WORD && father < WORD
    ensures BlockRep(FreshDirBytes(ino, father, scratch), DirBlock(FreshDir(ino, father)))
  {
    var b := Cleared(scratch, 0);
    var free: Entries := seq(DENTRYS, _ => FREE);
    forall j: nat | j < DENTRYS
      ensures EntryRep(EntryPart(b, j), free[j])
    {
      ClearedPart(scratch, 0, j);
    }
    assert BlockRep(b, DirBlock(free));
    hide BlockRep, Cleared;
    var dot, dots := Dentry(ino, DirMode, "."), Dentry(father, DirMode, "..");
    PutEntryRep(b, free, 0, dot);
    PutEntryRep(PutEntry(b, 0, dot), free[0 := dot], 1, dots);
    assert free[0 := dot][1 := dots] == FreshDir(ino, father);
  }

  // ------------------------------------------------------------ the whole card

  /** superblock_read and the test for FS_MAGIC; root_dir_ino is the seventh word. */
  predicate SuperOk(super: seq<Byte>, formatted: bool)
    requires |super| == SECTOR_SIZE
  {
    && (FromU32(super[..4]) == FS_MAGIC <==> formatted)
    && (formatted ==> FromU32(super[24..28]) == ROOT)
  }

  /** inode_map_read */
  function MapOn(c: Card): Words {
    BytesWords(MapRead(c, 0))
  }

  /** The card holds the disk `d`: records, blocks, map and superblock. */
  ghost predicate Holds(c: Card, d: Disk) {
    Rep(c, d) && I.Used(MapOn(c)) == d.used && SuperOk(ReadSector(c, FS_SUPERBLOCK_BASE), d.formatted)
  }

  lemma {:induction false} MapFrame(c: Card, c': Card, i: nat)
    requires i <= FS_INODE_MAP_SIZE
    requires forall s :: FS_INODE_MAP_BASE <= s < FS_INODE_TABLE_BASE ==> ReadSector(c', s) == ReadSector(c, s)
    ensures MapRead(c', i) == MapRead(c, i)
    decreases FS_INODE_MAP_SIZE - i
  {
    if i < FS_INODE_MAP_SIZE {
      MapFrame(c, c', i + 1);
    }
  }

  /** A write outside superblock and map leaves both alone. */
  lemma MetaKept(c: Card, s: nat, b: seq<Byte>)
    requires s < SECTORS && |b| == SECTOR_SIZE && !(FS_SUPERBLOCK_BASE <= s < FS_INODE_TABLE_BASE)
    ensures MapOn(WriteSector(c, s, b)) == MapOn(c)
    ensures ReadSector(WriteSector(c, s, b), FS_SUPERBLOCK_BASE) == ReadSector(c, FS_SUPERBLOCK_BASE)
  {
    hide ReadSector, WriteSector, BytesWords;
    forall t: nat | FS_SUPERBLOCK_BASE <= t < FS_INODE_TABLE_BASE
      ensures ReadSector(WriteSector(c, s, b), t) == ReadSector(c, t)
    {
      SectorReadWrite(c, s, b, t);
    }
    MapFrame(c, WriteSector(c, s, b), 0);
  }

  lemma HoldsPutBlock(c: Card, d: Disk, ino: nat, k: Block, b: seq<Byte>)
    requires Holds(c, d) && ino < INODES && |b| == SECTOR_SIZE && BlockRep(b, k)
    ensures Holds(WriteSector(c, ino, b), PutBlock(d, ino, k)) && MapOn(WriteSector(c, ino, b)) == MapOn(c)
  {
    hide Rep, BlockRep, SuperOk, MapOn, ReadSector, WriteSector, I.Used;
    RepPutBlock(c, d, ino, k, b);
    MetaKept(c, ino, b);
  }

  lemma HoldsPutInode(c: Card, d: Disk, e: Inode, scratch: seq<Byte>)
    requires Holds(c, d) && InodeFits(e) && e.ino < INODES && |scratch| == FS_INODE_SIZE
    ensures Holds(InodeWrite(c, e.ino, InodeBytes(e, scratch)), PutInode(d, e))
    ensures MapOn(InodeWrite(c, e.ino, InodeBytes(e, scratch))) == MapOn(c)
  {
    RepPutInode(c, d, e, scratch);
    hide Rep, SuperOk, MapOn, I.Used, ReadSector, WriteSector, InodeFits, InodeBytes;
    var sector, k := e.ino / 8 + FS_INODE_TABLE_BASE, e.ino % 8 * FS_INODE_SIZE;
    var s := ReadSector(c, sector);
    MetaKept(c, sector, s[..k] + InodeBytes(e, scratch) + s[k + FS_INODE_SIZE..]);
  }

  /** The record of an inode lies in one sector of the table. */
  lemma RecordInSector(c: Card, n: nat)
    requires n < INODES
    ensures n / 8 + FS_INODE_TABLE_BASE < SECTORS
    ensures InodeRead(c, n) == ReadSector(c, n / 8 + FS_INODE_TABLE_BASE)[n % 8 * FS_INODE_SIZE..n % 8 * FS_INODE_SIZE + FS_INODE_SIZE]
  {
    assert n == 8 * (n / 8) + n % 8;
    var base, k := (n / 8 + FS_INODE_TABLE_BASE) * SECTOR_SIZE, n % 8 * FS_INODE_SIZE;
    assert base + k == FS_INODE_TABLE_BASE * SECTOR_SIZE + n * FS_INODE_SIZE;
    SliceOfRead(c, base, SECTOR_SIZE, k, FS_INODE_SIZE);
  }

  lemma SliceOfRead(c: Card, off: nat, n: nat, k: nat, m: nat)
    requires off + n <= SECTORS * SECTOR_SIZE && k + m <= n
    ensures Read(c, off, n)[k..k + m] == Read(c, off + k, m)
  {
    var a, b := Read(c, off, n)[k..k + m], Read(c, off + k, m);
    forall i | 0 <= i < m
      ensures a[i] == b[i]
    {
      assert a[i] == Read(c, off, n)[k + i] == c[off + k + i];
    }
    assert a == b;
  }

  /** Cards that agree on data and table agree on records and blocks. */
  ghost predicate SameData(c: Card, c': Card) {
    forall s: nat {:trigger ReadSector(c', s)} :: s < FS_SUPERBLOCK_BASE || FS_INODE_TABLE_BASE <= s < SECTORS ==>
      ReadSector(c', s) == ReadSector(c, s)
  }

  lemma DataKept(c: Card, c': Card, d: Disk)
    requires Rep(c, d) && SameData(c, c')
    ensures Rep(c', d)
  {
    forall n | n in d.inodes
      ensures n < INODES && InodeRead(c', n) == InodeRead(c, n)
    {
      RecordInSector(c, n);
      RecordInSector(c', n);
    }
    hide BlockRep, ReadSector, InodeRead, BytesInode;
    assert RepInodes(c', d.inodes);
    forall n | n in d.blocks
      ensures n < INODES && ReadSector(c', n) == ReadSector(c, n)
    {
      assert BlockRep(ReadSector(c, n), d.blocks[n]);
    }
    assert RepBlocks(c', d.blocks);
  }

  /** inode_map_write */
  function PutMap(c: Card, ws: Words): Card {
    MapWrite(c, WordBytes(ws), 0)
  }

  /** The map on the card becomes the map in memory, bit for bit, and nothing else changes. */
  lemma HoldsPutMap(c: Card, d: Disk, ws: Words)
    requires Holds(c, d)
    ensures Holds(PutMap(c, ws), d.(used := I.Used(ws))) && MapOn(PutMap(c, ws)) == ws
  {
    hide SuperOk, ReadSector, I.Used, BytesWords, WordBytes, Rep;
    var m := WordBytes(ws);
    forall s: nat | s < FS_INODE_MAP_BASE || FS_INODE_TABLE_BASE <= s < SECTORS
      ensures ReadSector(PutMap(c, ws), s) == ReadSector(c, s)
    {
      MapWriteSector(c, m, 0, s);
    }
    MapRoundTrip(c, m);
    WordsRoundTrip(ws);
    DataKept(c, PutMap(c, ws), d);
    RepIgnoresUsed(PutMap(c, ws), d, I.Used(ws), d.formatted);
  }

  lemma RepIgnoresUsed(c: Card, d: Disk, used: set<nat>, formatted: bool)
    requires Rep(c, d)
    ensures Rep(c, d.(used := used)) && Rep(c, d.(formatted := formatted))
  {
  }

  /** superblock_write */
  lemma HoldsPutSuper(c: Card, d: Disk, b: seq<Byte>)
    requires Holds(c, d) && |b| == SECTOR_SIZE && SuperOk(b, true)
    ensures Holds(WriteSector(c, FS_SUPERBLOCK_BASE, b), d.(formatted := true))
    ensures MapOn(WriteSector(c, FS_SUPERBLOCK_BASE, b)) == MapOn(c)
  {
    hide SuperOk, ReadSector, WriteSector, I.Used, BytesWords, Rep;
    var c' := WriteSector(c, FS_SUPERBLOCK_BASE, b);
    forall s: nat | s < SECTORS
      ensures ReadSector(c', s) == if s == FS_SUPERBLOCK_BASE then b else ReadSector(c, s)
    {
      SectorReadWrite(c, FS_SUPERBLOCK_BASE, b, s);
    }
    MapFrame(c, c', 0);
    DataKept(c, c', d);
    RepIgnoresUsed(c', d, d.used, true);
  }

  // ------------------------------------------------------------------ the calls

  type Record = s: seq<Byte> | |s| == FS_INODE_SIZE witness seq(FS_INODE_SIZE, _ => 0)

  /** What uninitialised structures, and the bytes after the superblock, happen to hold. */
  datatype Scratch = Scratch(inode: Record, block: Bytes, super: Bytes)

  /** The card, inode_map, superblock.root_dir_ino, shell_path_inode and cur_dir. */
  datatype State = State(card: Card, words: Words, root: nat, shell: Inode, cur: Inode)

  /** inode_read into a structure that held `was`; numbers out of range are ignored. */
  function RecordOr(c: Card, ino: int, was: Inode): Inode {
    if 0 <= ino < INODES then BytesInode(InodeRead(c, ino)) else was
  }

  /** inode_create */
  function MakeInode(c: Card, e: Inode, sc: Scratch): Card
    requires InodeFits(e) && e.ino < INODES
  {
    var b := if e.mode == DirMode then FreshDirBytes(e.ino, e.father, sc.block) else Splice(sc.block, 0, [0, 0, 0, 0]);
    InodeWrite(WriteSector(c, e.ino, b), e.ino, InodeBytes(e, sc.inode))
  }

  predicate CanMake(s: State, name: string, now: nat) {
    && s.shell.ino < INODES && B.Scan(s.words, false, 0, INODES) >= 0
    && FirstFree(EntriesOn(s.card, s.shell.ino), 0) < DENTRYS
    && |name| < 24 && Plain(name) && now < WORD
  }

  /** make_directory and touch_file */
  function Make(s: State, mode: Mode, name: string, now: nat, sc: Scratch): State
    requires CanMake(s, name, now)
  {
    var here := s.shell.ino;
    var dir := ReadSector(s.card, here);
    var i := FirstFree(EntriesOn(s.card, here), 0);
    var ino := B.Scan(s.words, false, 0, INODES);
    var words' := B.Modified(s.words, true, ino);
    var c1 := PutMap(s.card, words');
    var c2 := MakeInode(c1, Inode(name, ino, mode, here, now), sc);
    s.(words := words', card := WriteSector(c2, here, PutEntry(dir, i, Dentry(ino, mode, name))))
  }

  predicate CanUnmake(s: State, mode: Mode, name: string) {
    && s.shell.ino < INODES
    && var es := EntriesOn(s.card, s.shell.ino);
       var i := Find(es, mode, name, 0);
       i < DENTRYS ==> 0 <= es[i].ino < INODES
  }

  /** remove_file, and the loop of remove_directory */
  function Unmake(s: State, mode: Mode, name: string): State
    requires CanUnmake(s, mode, name)
  {
    var here := s.shell.ino;
    var dir := ReadSector(s.card, here);
    var es := EntriesOn(s.card, here);
    var i := Find(es, mode, name, 0);
    if i == DENTRYS then s.(card := WriteSector(s.card, here, dir))
    else
      var words' := B.Modified(s.words, false, es[i].ino);
      s.(words := words', card := WriteSector(PutMap(s.card, words'), here, ClearEntry(dir, i)))
  }

  /** One component of decode_path. */
  function EnterOn(c: Card, cur: Inode, name: string): Option<Inode> {
    var es := EntriesOn(c, cur.ino);
    var j := Find(es, DirMode, name, 0);
    if j == DENTRYS then None else Some(RecordOr(c, es[j].ino, cur))
  }

  function WalkOn(c: Card, cur: Inode, path: seq<string>): (Inode, bool)
    decreases |path|
  {
    if path == [] then (cur, true)
    else match EnterOn(c, cur, path[0])
      case None => (cur, false)
      case Some(next) => WalkOn(c, next, path[1..])
  }

  /** change_directory on an already split path */
  function GoTo(s: State, absolute: bool, path: seq<string>): State {
    var start := RecordOr(s.card, if absolute then s.root else s.shell.ino, s.cur);
    var (cur, ok) := WalkOn(s.card, start, path);
    s.(cur := cur, shell := if ok then RecordOr(s.card, cur.ino, s.shell) else s.shell)
  }

  function NoWords(): Words { seq(I.MAP_WORDS, _ => 0) }

  function SuperBytes(scratch: Bytes): (b: seq<Byte>)
    ensures |b| == SECTOR_SIZE
  {
    Splice(scratch, 0, U32(FS_MAGIC) + U32(0x20000000) + U32(FS_INODE_MAP_BASE) + U32(FS_INODE_MAP_SIZE)
                       + U32(FS_INODE_TABLE_BASE) + U32(FS_INODE_TABLE_SIZE) + U32(ROOT))
  }

  /** do_makefs; its "inode map error" is unreachable (NothingUsed). */
  function Format(s: State, now: nat, sc: Scratch): State
    requires now < WORD
  {
    var super := ReadSector(s.card, FS_SUPERBLOCK_BASE);
    if FromU32(super[..4]) == FS_MAGIC then
      var root := FromU32(super[24..28]);
      s.(words := MapOn(s.card), root := root, shell := RecordOr(s.card, root, s.shell))
    else
      var ino := B.Scan(NoWords(), false, 0, INODES);
      if ino != 0 then s
      else
        var words' := B.Modified(NoWords(), true, ino);
        var c1 := MakeInode(PutMap(s.card, words'), Inode("~", ROOT, DirMode, ROOT, now), sc);
        var c2 := PutMap(WriteSector(c1, FS_SUPERBLOCK_BASE, SuperBytes(sc.super)), words');
        s.(card := c2, words := words', root := ROOT, shell := RecordOr(c2, ROOT, s.shell))
  }

  // ------------------------------------------------------------ they are the same

  /** The bytes in memory and on the card stand for `fs`; the two maps are bit for bit the same. */
  ghost predicate Represents(s: State, fs: Fs) {
    && Holds(s.card, fs.disk) && MapOn(s.card) == s.words && I.Used(s.words) == fs.used
    && s.root == ROOT && s.shell == fs.shell && s.cur == fs.cur
  }

  lemma RecordIs(c: Card, d: Disk, n: nat, was: Inode)
    requires Rep(c, d) && n in d.inodes
    ensures RecordOr(c, n, was) == InodeAt(d, n)
  {
  }

  /** In a directory of the tree every entry is free or holds an inode number. */
  lemma HereNumbered(d: Disk, e: Inode)
    requires DiskOk(d) && Here(d, e)
    ensures e.ino < INODES && e.ino in d.blocks && d.blocks[e.ino] == DirBlock(EntriesAt(d, e.ino))
    ensures Numbered(EntriesAt(d, e.ino))
  {
    assert e.ino in d.used && IsDir(d, e.ino);
    forall i: nat | i < DENTRYS
      ensures -1 <= EntriesAt(d, e.ino)[i].ino < INODES
    {
      if i == 1 && e.ino != ROOT {
        var way :| WayTo(d, way, e.ino);
        UpReach(d, e.ino, way);
      } else if i >= 2 && EntriesAt(d, e.ino)[i].ino != -1 {
        assert Link(d, e.ino, i);
      }
    }
  }

  lemma DirOn(c: Card, d: Disk, e: Inode)
    requires Rep(c, d) && DiskOk(d) && Here(d, e)
    ensures e.ino < INODES && BlockRep(ReadSector(c, e.ino), DirBlock(EntriesAt(d, e.ino)))
    ensures Numbered(EntriesAt(d, e.ino)) && SameEntries(EntriesOn(c, e.ino), EntriesAt(d, e.ino))
  {
    HereNumbered(d, e);
    hide DiskOk, Here, Numbered, BlockRep, SameEntries, EntriesOn, ReadSector;
    assert e.ino in d.blocks;
    EntriesDecode(c, e.ino, EntriesAt(d, e.ino));
  }

  lemma ShellHere(fs: Fs)
    requires Consistent(fs)
    ensures DiskOk(fs.disk) && Here(fs.disk, fs.shell)
  {
  }

  lemma MakeInodeHolds(c: Card, d: Disk, e: Inode, sc: Scratch)
    requires Holds(c, d) && InodeFits(e) && e.ino < INODES
    ensures Holds(MakeInode(c, e, sc), CreateInode(d, e, sc.block)) && MapOn(MakeInode(c, e, sc)) == MapOn(c)
  {
    var b := if e.mode == DirMode then FreshDirBytes(e.ino, e.father, sc.block) else Splice(sc.block, 0, [0, 0, 0, 0]);
    var k := if e.mode == DirMode then DirBlock(FreshDir(e.ino, e.father)) else FileBlock(Splice(sc.block, 0, [0, 0, 0, 0]));
    FreshDirRep(e.ino, e.father, sc.block);
    hide Holds, MapOn, FreshDirBytes, WriteSector, InodeWrite, InodeBytes, InodeFits;
    HoldsPutBlock(c, d, e.ino, k, b);
    HoldsPutInode(WriteSector(c, e.ino, b), PutBlock(d, e.ino, k), e, sc.inode);
  }

  /** The search of the map, seen from the set of inodes in use. */
  lemma ScanFree(ws: Words)
    ensures var l := LowestFree(I.Used(ws), 0);
      B.Scan(ws, false, 0, INODES) == if l == INODES then -2 else l
  {
    I.ScanIsLowest(ws, 0);
  }

  /** The card has room exactly when the file system has. */
  lemma CanMakeIff(s: State, fs: Fs, name: string, now: nat)
    requires Represents(s, fs) && Consistent(fs)
    ensures CanMake(s, name, now) <==> CanCreate(fs, name) && Plain(name) && now < WORD
  {
    ShellHere(fs);
    hide Consistent, DiskOk, Here;
    DirOn(s.card, fs.disk, fs.shell);
    SearchSame(EntriesOn(s.card, s.shell.ino), EntriesAt(fs.disk, fs.shell.ino), DirMode, name, 0);
    ScanFree(s.words);
  }

  /** mkdir and touch on the card are mkdir and touch. */
  lemma MakeRefines(s: State, fs: Fs, mode: Mode, name: string, now: nat, sc: Scratch)
    requires Represents(s, fs) && Consistent(fs) && CanCreate(fs, name) && Plain(name) && now < WORD
    ensures CanMake(s, name, now) && Represents(Make(s, mode, name, now, sc), Create(fs, mode, name, now, sc.block))
  {
    CanMakeIff(s, fs, name, now);
    ShellHere(fs);
    hide Consistent, DiskOk, Here;
    var here, es := fs.shell.ino, EntriesAt(fs.disk, fs.shell.ino);
    DirOn(s.card, fs.disk, fs.shell);
    SearchSame(EntriesOn(s.card, here), es, mode, name, 0);
    ScanFree(s.words);
    var ino, i := LowestFree(fs.used, 0), FirstFree(es, 0);
    I.UsedModified(s.words, true, ino);
    MakeOnDisk(s.card, fs.disk, s.words, ino, here, es, i, mode, name, now, sc);
  }

  lemma MakeOnDisk(c: Card, d: Disk, ws: Words, ino: nat, here: nat, es: Entries, i: nat, mode: Mode, name: string, now: nat, sc: Scratch)
    requires Holds(c, d) && ino < INODES && here < INODES && i < DENTRYS && now < WORD
    requires |name| < 24 && Plain(name) && BlockRep(ReadSector(c, here), DirBlock(es))
    ensures var words', e := B.Modified(ws, true, ino), Inode(name, ino, mode, here, now);
      var c3 := WriteSector(MakeInode(PutMap(c, words'), e, sc), here, PutEntry(ReadSector(c, here), i, Dentry(ino, mode, name)));
      && MapOn(c3) == words'
      && Holds(c3, PutBlock(CreateInode(d.(used := I.Used(words')), e, sc.block), here, DirBlock(es[i := Dentry(ino, mode, name)])))
  {
    var words', e := B.Modified(ws, true, ino), Inode(name, ino, mode, here, now);
    PutEntryRep(ReadSector(c, here), es, i, Dentry(ino, mode, name));
    assert InodeFits(e);
    hide Holds, MapOn, B.Modified, MakeInode, PutMap, PutEntry, WriteSector, BlockRep, CreateInode, InodeFits, Plain, I.Used;
    HoldsPutMap(c, d, words');
    MakeInodeHolds(PutMap(c, words'), d.(used := I.Used(words')), e, sc);
    HoldsPutBlock(MakeInode(PutMap(c, words'), e, sc), CreateInode(d.(used := I.Used(words')), e, sc.block), here,
                  DirBlock(es[i := Dentry(ino, mode, name)]), PutEntry(ReadSector(c, here), i, Dentry(ino, mode, name)));
  }

  /** What a search for a name finds in a directory on the card is what it finds in the tree. */
  lemma FoundSame(c: Card, d: Disk, e: Inode, mode: Mode, name: string)
    requires Rep(c, d) && DiskOk(d) && Here(d, e)
    ensures var on, es := EntriesOn(c, e.ino), EntriesAt(d, e.ino);
      var i := Find(es, mode, name, 0);
      Find(on, mode, name, 0) == i && (i < DENTRYS ==> on[i] == es[i] && 0 <= es[i].ino < INODES)
  {
    hide Rep, DiskOk, Here, EntriesOn, EntriesAt, BlockRep;
    DirOn(c, d, e);
    var on, es := EntriesOn(c, e.ino), EntriesAt(d, e.ino);
    SearchSame(on, es, mode, name, 0);
    var i := Find(es, mode, name, 0);
    assert i < DENTRYS ==> Same(on[i], es[i]) && es[i].ino != -1;
  }

  lemma RepHere(s: State, fs: Fs)
    requires Represents(s, fs) && Consistent(fs)
    ensures Rep(s.card, fs.disk) && s.shell == fs.shell && DiskOk(fs.disk) && Here(fs.disk, fs.shell)
  {
    hide DiskOk, Rep;
  }

  /** rm and rmdir on the card are rm and rmdir. */
  lemma UnmakeRefines(s: State, fs: Fs, mode: Mode, name: string)
    requires Represents(s, fs) && Consistent(fs) && (mode == DirMode ==> name != "." && name != "..")
    ensures CanUnmake(s, mode, name) && Represents(Unmake(s, mode, name), Remove(fs, mode, name))
  {
    hide Consistent, Represents, DiskOk, Here, Rep, EntriesOn, EntriesAt, BlockRep, Numbered, SameEntries,
      Find, ReadSector, Unmake, Remove, CanUnmake;
    RepHere(s, fs);
    var here, es := fs.shell.ino, EntriesAt(fs.disk, fs.shell.ino);
    DirOn(s.card, fs.disk, fs.shell);
    FoundSame(s.card, fs.disk, fs.shell, mode, name);
    if Find(es, mode, name, 0) < DENTRYS {
      UnmakeFound(s, fs, mode, name);
    } else {
      UnmakeMissing(s, fs, mode, name);
    }
  }

  /** The shell's directory `here`, with the entries `es`, as the card and the tree have it. */
  ghost predicate At(s: State, fs: Fs, here: nat, es: Entries) {
    && here == s.shell.ino < INODES && es == EntriesAt(fs.disk, here)
    && BlockRep(ReadSector(s.card, here), DirBlock(es))
  }

  lemma UnmakeMissing(s: State, fs: Fs, mode: Mode, name: string)
    requires Represents(s, fs) && At(s, fs, fs.shell.ino, EntriesAt(fs.disk, fs.shell.ino))
    requires Find(EntriesOn(s.card, s.shell.ino), mode, name, 0) == DENTRYS == Find(EntriesAt(fs.disk, fs.shell.ino), mode, name, 0)
    ensures CanUnmake(s, mode, name) && Represents(Unmake(s, mode, name), Remove(fs, mode, name))
  {
    hide Holds, EntriesOn, EntriesAt, BlockRep, MapOn, I.Used, Find, WriteSector, ReadSector, PutBlock;
    UnmakeOnDisk(s.card, fs.disk, s.words, fs.shell.ino, EntriesAt(fs.disk, fs.shell.ino), DENTRYS);
  }

  lemma UnmakeFound(s: State, fs: Fs, mode: Mode, name: string)
    requires Represents(s, fs) && At(s, fs, fs.shell.ino, EntriesAt(fs.disk, fs.shell.ino))
    requires var on, es := EntriesOn(s.card, s.shell.ino), EntriesAt(fs.disk, fs.shell.ino);
      var i := Find(es, mode, name, 0);
      Find(on, mode, name, 0) == i && i < DENTRYS && on[i] == es[i] && 0 <= es[i].ino < INODES
    ensures CanUnmake(s, mode, name) && Represents(Unmake(s, mode, name), Remove(fs, mode, name))
  {
    hide Holds, EntriesOn, EntriesAt, BlockRep, MapOn, I.Used, B.Modified, Find, WriteSector, ReadSector, PutBlock, PutMap, ClearEntry;
    var es := EntriesAt(fs.disk, fs.shell.ino);
    var i := Find(es, mode, name, 0);
    I.UsedModified(s.words, false, es[i].ino);
    UnmakeOnDisk(s.card, fs.disk, s.words, fs.shell.ino, es, i);
  }

  lemma UnmakeOnDisk(c: Card, d: Disk, ws: Words, here: nat, es: Entries, i: nat)
    requires Holds(c, d) && here < INODES && i <= DENTRYS && BlockRep(ReadSector(c, here), DirBlock(es))
    requires i < DENTRYS ==> 0 <= es[i].ino < INODES
    ensures i == DENTRYS ==> var c1 := WriteSector(c, here, ReadSector(c, here));
      Holds(c1, PutBlock(d, here, DirBlock(es))) && MapOn(c1) == MapOn(c)
    ensures i < DENTRYS ==>
      var words' := B.Modified(ws, false, es[i].ino);
      var c1 := WriteSector(PutMap(c, words'), here, ClearEntry(ReadSector(c, here), i));
      && MapOn(c1) == words'
      && Holds(c1, PutBlock(d.(used := I.Used(words')), here, DirBlock(es[i := es[i].(ino := -1)])))
  {
    var dir := ReadSector(c, here);
    hide Holds, MapOn, B.Modified, PutMap, WriteSector, ClearEntry, BlockRep, I.Used;
    if i == DENTRYS {
      HoldsPutBlock(c, d, here, DirBlock(es), dir);
    } else {
      var words' := B.Modified(ws, false, es[i].ino);
      ClearEntryRep(dir, es, i);
      HoldsPutMap(c, d, words');
      HoldsPutBlock(PutMap(c, words'), d.(used := I.Used(words')), here, DirBlock(es[i := es[i].(ino := -1)]), ClearEntry(dir, i));
    }
  }

  /** Entering a directory on the card is entering it. */
  lemma EnterRefines(c: Card, d: Disk, cur: Inode, name: string)
    requires Rep(c, d) && DiskOk(d) && Here(d, cur)
    ensures EnterOn(c, cur, name) == Enter(d, cur, name)
  {
    hide Rep, DiskOk, Here, EntriesOn, EntriesAt, Find, RecordOr, InodeAt;
    FoundSame(c, d, cur, DirMode, name);
    var es := EntriesAt(d, cur.ino);
    var j := Find(es, DirMode, name, 0);
    if j < DENTRYS {
      EntryInUse(d, cur, j);
      RecordIs(c, d, es[j].ino, cur);
    }
  }

  /** Whatever an entry of a directory in the tree names has a record. */
  lemma EntryInUse(d: Disk, e: Inode, j: nat)
    requires DiskOk(d) && Here(d, e) && j < DENTRYS && EntriesAt(d, e.ino)[j].ino != -1
    ensures EntriesAt(d, e.ino)[j].ino >= 0 && EntriesAt(d, e.ino)[j].ino in d.inodes
  {
    assert e.ino in d.used && IsDir(d, e.ino) && ROOT in d.used;
    if j == 1 && e.ino != ROOT {
      var way :| WayTo(d, way, e.ino);
      UpReach(d, e.ino, way);
    } else if j >= 2 {
      assert Link(d, e.ino, j);
    }
  }

  lemma {:induction false} WalkRefines(c: Card, d: Disk, cur: Inode, path: seq<string>)
    requires Rep(c, d) && DiskOk(d) && Here(d, cur)
    ensures WalkOn(c, cur, path) == Walk(d, cur, path)
    decreases |path|
  {
    hide Rep, DiskOk, Here, EnterOn, Enter;
    if path != [] {
      EnterRefines(c, d, cur, path[0]);
      if Enter(d, cur, path[0]).Some? {
        EnterReach(d, cur, path[0]);
        WalkRefines(c, d, Enter(d, cur, path[0]).value, path[1..]);
      }
    }
  }

  lemma HereRecord(c: Card, d: Disk, e: Inode, was: Inode)
    requires Rep(c, d) && DiskOk(d) && Here(d, e)
    ensures RecordOr(c, e.ino, was) == InodeAt(d, e.ino) == e
  {
    assert e.ino in d.used;
    RecordIs(c, d, e.ino, was);
  }

  /** cd on the card is cd. */
  lemma GoToRefines(s: State, fs: Fs, absolute: bool, path: seq<string>)
    requires Represents(s, fs) && Consistent(fs)
    ensures Represents(GoTo(s, absolute, path), ChangeDir(fs, absolute, path))
  {
    hide Consistent, DiskOk, Here, Rep, RecordOr, WalkOn, Walk, InodeAt, MapOn, I.Used, Holds;
    RepHere(s, fs);
    I.RootHere(fs.disk);
    RootRecord(fs.disk);
    var at := if absolute then ROOT else fs.shell.ino;
    HereRecord(s.card, fs.disk, InodeAt(fs.disk, ROOT), s.cur);
    HereRecord(s.card, fs.disk, fs.shell, s.cur);
    var start := InodeAt(fs.disk, at);
    WalkRefines(s.card, fs.disk, start, path);
    WalkReach(fs.disk, start, path);
    HereRecord(s.card, fs.disk, Walk(fs.disk, start, path).0, s.shell);
  }

  lemma RootRecord(d: Disk)
    requires DiskOk(d)
    ensures InodeAt(d, ROOT).ino == ROOT
  {
    assert ROOT in d.used;
  }

  // ----------------------------------------------------------------------- mkfs

  lemma NothingUsed()
    ensures I.Used(NoWords()) == {} && B.Scan(NoWords(), false, 0, INODES) == 0
  {
    forall k: nat | k < INODES
      ensures !B.BitAt(NoWords(), k)
    {
      B.FlatWord(0, k % 32);
    }
    hide B.BitAt, B.Scan;
    assert I.Used(NoWords()) == {};
    ScanFree(NoWords());
  }

  lemma SuperBytesOk(scratch: Bytes)
    ensures SuperOk(SuperBytes(scratch), true)
  {
    var b := SuperBytes(scratch);
    U32RoundTrip(FS_MAGIC);
    U32RoundTrip(ROOT);
    hide U32, FromU32;
    assert b[..4] == U32(FS_MAGIC) && b[24..28] == U32(ROOT);
  }

  /** A card without the magic number holds some blank disk. */
  lemma BlankCard(c: Card)
    requires FromU32(ReadSector(c, FS_SUPERBLOCK_BASE)[..4]) != FS_MAGIC
    ensures Holds(c, Disk(false, I.Used(MapOn(c)), map[], map[]))
  {
    hide MapOn, I.Used, FromU32;
  }

  lemma FormatOnDisk(c: Card, d: Disk, words': Words, e: Inode, sc: Scratch)
    requires Holds(c, d) && InodeFits(e) && e.ino < INODES
    ensures var c2 := PutMap(WriteSector(MakeInode(PutMap(c, words'), e, sc), FS_SUPERBLOCK_BASE, SuperBytes(sc.super)), words');
      Holds(c2, CreateInode(d.(used := I.Used(words')), e, sc.block).(formatted := true)) && MapOn(c2) == words'
  {
    hide Holds, MapOn, MakeInode, PutMap, WriteSector, InodeFits, I.Used, SuperOk, SuperBytes;
    var d1 := d.(used := I.Used(words'));
    HoldsPutMap(c, d, words');
    MakeInodeHolds(PutMap(c, words'), d1, e, sc);
    SuperBytesOk(sc.super);
    var c1 := MakeInode(PutMap(c, words'), e, sc);
    var d2 := CreateInode(d1, e, sc.block);
    HoldsPutSuper(c1, d2, SuperBytes(sc.super));
    HoldsPutMap(WriteSector(c1, FS_SUPERBLOCK_BASE, SuperBytes(sc.super)), d2.(formatted := true), words');
    assert d2.(formatted := true).(used := I.Used(words')) == d2.(formatted := true);
  }

  /** mkfs on a card that holds a blank or a consistent disk is mkfs. */
  lemma FormatRefines(s: State, fs: Fs, now: nat, sc: Scratch)
    requires Holds(s.card, fs.disk) && s.cur == fs.cur && now < WORD
    requires fs.disk.formatted ==> DiskOk(fs.disk)
    ensures Represents(Format(s, now, sc), MakeFs(fs, now, sc.block))
  {
    if fs.disk.formatted {
      assert ROOT in fs.disk.used;
      RecordIs(s.card, fs.disk, ROOT, s.shell);
      hide Rep, MapOn, I.Used, DiskOk, RecordOr, ReadSector, FromU32;
    } else {
      FormatBlank(s, fs, now, sc);
    }
  }

  lemma FormatBlank(s: State, fs: Fs, now: nat, sc: Scratch)
    requires Holds(s.card, fs.disk) && s.cur == fs.cur && now < WORD && !fs.disk.formatted
    ensures Represents(Format(s, now, sc), MakeFs(fs, now, sc.block))
  {
    NothingUsed();
    I.UsedModified(NoWords(), true, 0);
    hide I.Used, MapOn, B.Scan, B.Modified, ReadSector, FromU32, Rep;
    var words', e := B.Modified(NoWords(), true, 0), Inode("~", ROOT, DirMode, ROOT, now);
    assert I.Used(words') == {ROOT};
    assert InodeFits(e);
    FormatOnDisk(s.card, fs.disk, words', e, sc);
    hide MakeInode, PutMap, WriteSector, SuperBytes, InodeFits;
    var r := Format(s, now, sc);
    RecordIs(r.card, CreateInode(fs.disk.(used := {ROOT}), e, sc.block).(formatted := true), ROOT, s.shell);
  }

  // ----------------------------------------------------------------------- runs

  /** Names are C strings and times are words. */
  predicate Wordly(op: Op) {
    match op
    case Mkfs(now) => now < WORD
    case Mkdir(name, now) => Plain(name) && now < WORD
    case Touch(name, now) => Plain(name) && now < WORD
    case Fopen(name, now) => Plain(name) && now < WORD
    case _ => true
  }

  /** One call on the card; None where the source would write past a buffer. */
  function StepOn(s: State, op: Op, sc: Scratch): Option<State>
    requires Wordly(op)
  {
    match op
    case Mkfs(now) => Some(Format(s, now, sc))
    case Mkdir(name, now) => if CanMake(s, name, now) then Some(Make(s, DirMode, name, now, sc)) else None
    case Touch(name, now) => if CanMake(s, name, now) then Some(Make(s, FileMode, name, now, sc)) else None
    case Rm(name) => if CanUnmake(s, FileMode, name) then Some(Unmake(s, FileMode, name)) else None
    case Rmdir(name) =>
      if name == "." || name == ".." then Some(s)
      else if CanUnmake(s, DirMode, name) then Some(Unmake(s, DirMode, name)) else None
    case Cd(absolute, path) => Some(GoTo(s, absolute, path))
    case Fopen(name, now) => OpenOn(s, name, now, sc)
    case Fwrite(ino, pos, buf) => WriteOn(s, ino, FileIo.Chunk(pos, buf))
  }

  /** sys_fopen, its fd table aside */
  function OpenOn(s: State, name: string, now: nat, sc: Scratch): Option<State> {
    if Find(EntriesOn(s.card, s.shell.ino), FileMode, name, 0) < DENTRYS then Some(s)
    else if CanMake(s, name, now) then Some(Make(s, FileMode, name, now, sc)) else None
  }

  /** sys_fwrite as FileIo has it */
  function WriteOn(s: State, ino: nat, w: FileIo.Chunk): Option<State> {
    if ino < INODES && FileIo.InRange(w) then Some(s.(card := FileIo.WriteAt(s.card, ino, w))) else None
  }

  lemma OpenRefines(s: State, fs: Fs, name: string, now: nat, sc: Scratch)
    requires Represents(s, fs) && Consistent(fs) && CanOpen(fs, name) && Plain(name) && now < WORD
    ensures var r := OpenOn(s, name, now, sc);
      r.Some? && Represents(r.value, Open(fs, name, now, sc.block).0)
  {
    hide Consistent, DiskOk, Here, Find, EntriesOn, EntriesAt, MapOn, Make, Create, CanMake, CanCreate, Plain, Rep, I.Used;
    ShellHere(fs);
    FoundSame(s.card, fs.disk, fs.shell, FileMode, name);
    hide Holds;
    if Find(EntriesAt(fs.disk, fs.shell.ino), FileMode, name, 0) == DENTRYS {
      MakeRefines(s, fs, FileMode, name, now, sc);
    }
  }

  /** The block of a file is its sector, byte for byte. */
  lemma FileOn(c: Card, d: Disk, ino: nat)
    requires Rep(c, d) && ino in d.blocks && d.blocks[ino].FileBlock?
    ensures ino < INODES && ReadSector(c, ino) == d.blocks[ino].bytes
  {
    hide ReadSector;
    assert BlockRep(ReadSector(c, ino), d.blocks[ino]);
  }

  /** fwrite on the card is fwrite: FileIo's chunk lands in the block of the file. */
  lemma WriteRefines(s: State, fs: Fs, ino: nat, pos: nat, buf: seq<Byte>)
    requires Represents(s, fs) && CanWrite(fs, ino, pos, buf)
    ensures var r := WriteOn(s, ino, FileIo.Chunk(pos, buf));
      r.Some? && Represents(r.value, WriteFile(fs, ino, pos, buf))
  {
    hide MapOn, I.Used, BlockRep, ReadSector, WriteSector, Rep, SuperOk;
    FileOn(s.card, fs.disk, ino);
    hide Holds, Splice;
    var b := Splice(fs.disk.blocks[ino].bytes, pos, buf);
    FileRep(b);
    HoldsPutBlock(s.card, fs.disk, ino, FileBlock(b), b);
  }

  lemma FileRep(b: Bytes)
    ensures BlockRep(b, FileBlock(b))
  {
  }

  lemma MountRefines(s: State, fs: Fs, now: nat, sc: Scratch)
    requires Represents(s, fs) && Consistent(fs) && now < WORD
    ensures Represents(Format(s, now, sc), MakeFs(fs, now, sc.block))
  {
    ShellHere(fs);
    FormatRefines(s, fs, now, sc);
  }

  /** Every call on the card is the call on the file system. */
  lemma StepRefines(s: State, fs: Fs, op: Op, sc: Scratch)
    requires Represents(s, fs) && Consistent(fs) && Wordly(op) && Step(fs, op, sc.block).Some?
    ensures StepOn(s, op, sc).Some? && Represents(StepOn(s, op, sc).value, Step(fs, op, sc.block).value)
  {
    hide Consistent, DiskOk, Holds, Represents, MapOn, Make, Create, CanMake, CanCreate, Unmake, Remove, CanUnmake, GoTo, ChangeDir,
      Format, MakeFs, Open, OpenOn, CanOpen, WriteFile, WriteOn, CanWrite, Plain, I.Used;
    match op
    case Mkfs(now) => MountRefines(s, fs, now, sc);
    case Mkdir(name, now) => MakeRefines(s, fs, DirMode, name, now, sc);
    case Touch(name, now) => MakeRefines(s, fs, FileMode, name, now, sc);
    case Rm(name) => UnmakeRefines(s, fs, FileMode, name);
    case Rmdir(name) => if name != "." && name != ".." { UnmakeRefines(s, fs, DirMode, name); }
    case Cd(absolute, path) => GoToRefines(s, fs, absolute, path);
    case Fopen(name, now) => OpenRefines(s, fs, name, now, sc);
    case Fwrite(ino, pos, buf) => WriteRefines(s, fs, ino, pos, buf);
  }

  ghost predicate IsCardRun(run: seq<State>, ops: seq<Op>, scs: seq<Scratch>) {
    && |run| == |ops| + 1 && |scs| == |ops|
    && forall i :: 0 <= i < |ops| ==> Wordly(ops[i]) && StepOn(run[i], ops[i], scs[i]) == Some(run[i + 1])
  }

  /** The file system after the first n calls; None once one of them was not allowed. */
  function Meaning(fs: Fs, ops: seq<Op>, scs: seq<Scratch>, n: nat): Option<Fs>
    requires n <= |ops| == |scs|
  {
    if n == 0 then Some(fs)
    else match Meaning(fs, ops, scs, n - 1)
      case None => None
      case Some(f) => Step(f, ops[n - 1], scs[n - 1].block)
  }

  /**
   From a mkfs on any card that holds a blank or a consistent disk: after any
   calls, the bytes of the card and of memory stand for the file system those
   calls mean, the file system is consistent, and the map on the card is bit
   for bit the map in memory.
   */
  lemma {:induction false} RunRefines(s0: State, fs: Fs, now: nat, sc: Scratch, run: seq<State>, ops: seq<Op>, scs: seq<Scratch>, n: nat)
    requires Holds(s0.card, fs.disk) && s0.cur == fs.cur && now < WORD && (fs.disk.formatted ==> DiskOk(fs.disk))
    requires IsCardRun(run, ops, scs) && run[0] == Format(s0, now, sc) && n <= |ops|
    requires Meaning(MakeFs(fs, now, sc.block), ops, scs, n).Some?
    ensures var f := Meaning(MakeFs(fs, now, sc.block), ops, scs, n).value;
      Represents(run[n], f) && Consistent(f) && MapOn(run[n].card) == run[n].words
  {
    hide Holds, DiskOk, Consistent, MapOn, Format, MakeFs, StepOn, Step, I.Used;
    if n == 0 {
      FormatRefines(s0, fs, now, sc);
      MakeFsKeeps(fs, now, sc.block);
    } else {
      RunRefines(s0, fs, now, sc, run, ops, scs, n - 1);
      var f := Meaning(MakeFs(fs, now, sc.block), ops, scs, n - 1).value;
      assert StepOn(run[n - 1], ops[n - 1], scs[n - 1]) == Some(run[n - 1 + 1]);
      StepRefines(run[n - 1], f, ops[n - 1], scs[n - 1]);
      StepKeeps(f, ops[n - 1], scs[n - 1].block);
    }
  }
}
