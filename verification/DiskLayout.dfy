/**
 kernel/fs/disk.c: where on the card each structure of FileSystem.dfy lives.
 The card is a row of bytes; sector 0 here is sector FS_BASE of the card.
 */
module DiskLayout {
  import opened Prelude
  import opened FileSystem

  const FS_BASE: nat := 0x100000
  const SECTOR_SIZE: nat := 0x200
  const FS_DATA_BASE: nat := 0
  const FS_SUPERBLOCK_BASE: nat := 0xfdff7
  const FS_INODE_MAP_BASE: nat := 0xfdff8
  const FS_INODE_MAP_SIZE: nat := 8
  const FS_INODE_TABLE_BASE: nat := 0xfe000
  const FS_INODE_TABLE_SIZE: nat := 0x1000
  const FS_INODE_SIZE: nat := 0x40
  const FS_DENTRY_SIZE: nat := 0x20
  const SECTORS: nat := FS_INODE_TABLE_BASE + FS_INODE_TABLE_SIZE

  type Card = s: seq<Byte> | |s| == SECTORS * SECTOR_SIZE witness seq(SECTORS * SECTOR_SIZE, _ => 0)

  function Read(c: Card, off: nat, n: nat): (r: seq<Byte>)
    requires off + n <= SECTORS * SECTOR_SIZE
    ensures |r| == n
  {
    c[off..off + n]
  }

  function Write(c: Card, off: nat, src: seq<Byte>): Card
    requires off + |src| <= SECTORS * SECTOR_SIZE
  {
    c[..off] + src + c[off + |src|..]
  }

  lemma ReadWrite(c: Card, off: nat, src: seq<Byte>, at: nat, n: nat)
    requires off + |src| <= SECTORS * SECTOR_SIZE && at + n <= SECTORS * SECTOR_SIZE
    ensures at == off && n == |src| ==> Read(Write(c, off, src), at, n) == src
    ensures at + n <= off || off + |src| <= at ==> Read(Write(c, off, src), at, n) == Read(c, at, n)
  {
    var w := Write(c, off, src);
    if at + n <= off || off + |src| <= at {
      assert forall i :: at <= i < at + n ==> w[i] == c[i];
    }
  }

  // ------------------------------------------------------------------ sectors

  function ReadSector(c: Card, s: nat): (r: seq<Byte>)
    requires s < SECTORS
    ensures |r| == SECTOR_SIZE
  {
    Read(c, s * SECTOR_SIZE, SECTOR_SIZE)
  }

  function WriteSector(c: Card, s: nat, src: seq<Byte>): Card
    requires s < SECTORS && |src| == SECTOR_SIZE
  {
    Write(c, s * SECTOR_SIZE, src)
  }

  /** Byte offsets of every sector fit a signed 32-bit int. */
  lemma OffsetsFit(s: nat)
    requires s < SECTORS
    ensures s * SECTOR_SIZE + FS_BASE * SECTOR_SIZE + SECTOR_SIZE <= 0x7fffffff
  {
  }

  /** Data blocks, superblock, map and table do not overlap. */
  lemma RegionsDisjoint(ino: nat, m: nat, t: nat)
    requires ino < INODES && m < FS_INODE_MAP_SIZE && t < FS_INODE_TABLE_SIZE
    ensures FS_DATA_BASE + ino < FS_SUPERBLOCK_BASE < FS_INODE_MAP_BASE + m < FS_INODE_TABLE_BASE + t < SECTORS
  {
  }

  // -------------------------------------------------------------- inode table

  /** inode_write: read the sector of eight, replace one, write it back. */
  function InodeWrite(c: Card, ino: int, e: seq<Byte>): Card
    requires |e| == FS_INODE_SIZE
  {
    if ino < 0 || ino >= FS_INODE_TABLE_SIZE * 8 then c
    else
      var sector, k := ino / 8 + FS_INODE_TABLE_BASE, ino % 8 * FS_INODE_SIZE;
      var s := ReadSector(c, sector);
      WriteSector(c, sector, s[..k] + e + s[k + FS_INODE_SIZE..])
  }

  /** inode_read: straight to the byte offset. */
  function InodeRead(c: Card, ino: nat): (r: seq<Byte>)
    requires ino < INODES
    ensures |r| == FS_INODE_SIZE
  {
    Read(c, FS_INODE_TABLE_BASE * SECTOR_SIZE + ino * FS_INODE_SIZE, FS_INODE_SIZE)
  }

  /** The read-modify-write of a sector is a write at the offset inode_read uses. */
  lemma InodeWriteIs(c: Card, ino: nat, e: seq<Byte>)
    requires ino < INODES && |e| == FS_INODE_SIZE
    ensures InodeWrite(c, ino, e) == Write(c, FS_INODE_TABLE_BASE * SECTOR_SIZE + ino * FS_INODE_SIZE, e)
  {
    var q, k := ino / 8, ino % 8 * FS_INODE_SIZE;
    var base := (q + FS_INODE_TABLE_BASE) * SECTOR_SIZE;
    assert base + k == FS_INODE_TABLE_BASE * SECTOR_SIZE + ino * FS_INODE_SIZE by {
      assert ino == 8 * q + ino % 8;
    }
    SpliceWithin(c, base, k, e);
  }

  lemma SpliceWithin(c: Card, base: nat, k: nat, e: seq<Byte>)
    requires base + SECTOR_SIZE <= SECTORS * SECTOR_SIZE && k + |e| <= SECTOR_SIZE
    ensures var s := Read(c, base, SECTOR_SIZE);
      Write(c, base, s[..k] + e + s[k + |e|..]) == Write(c, base + k, e)
  {
    var s := Read(c, base, SECTOR_SIZE);
    var t := s[..k] + e + s[k + |e|..];
    var a, b := Write(c, base, t), Write(c, base + k, e);
    forall i | 0 <= i < |a|
      ensures a[i] == b[i]
    {
      if base <= i < base + SECTOR_SIZE {
        assert a[i] == t[i - base];
      }
    }
  }

  /** For every inode: what was written is read back, and no other record changes. */
  lemma InodeRoundTrip(c: Card, ino: nat, e: seq<Byte>, j: nat)
    requires ino < INODES && j < INODES && |e| == FS_INODE_SIZE
    ensures InodeRead(InodeWrite(c, ino, e), j) == if j == ino then e else InodeRead(c, j)
  {
    InodeWriteIs(c, ino, e);
    var base := FS_INODE_TABLE_BASE * SECTOR_SIZE;
    ReadWrite(c, base + ino * FS_INODE_SIZE, e, base + j * FS_INODE_SIZE, FS_INODE_SIZE);
    if j < ino {
      assert j * FS_INODE_SIZE + FS_INODE_SIZE <= ino * FS_INODE_SIZE;
    } else if ino < j {
      assert ino * FS_INODE_SIZE + FS_INODE_SIZE <= j * FS_INODE_SIZE;
    }
  }

  lemma SectorApart(s: nat, t: nat)
    requires s < t
    ensures s * SECTOR_SIZE + SECTOR_SIZE <= t * SECTOR_SIZE
  {
  }

  lemma SectorReadWrite(c: Card, s: nat, src: seq<Byte>, t: nat)
    requires s < SECTORS && t < SECTORS && |src| == SECTOR_SIZE
    ensures ReadSector(WriteSector(c, s, src), t) == if t == s then src else ReadSector(c, t)
  {
    ReadWrite(c, s * SECTOR_SIZE, src, t * SECTOR_SIZE, SECTOR_SIZE);
    if s < t { SectorApart(s, t); }
    if t < s { SectorApart(t, s); }
  }

  /** Inode records and data blocks never touch each other. */
  lemma InodeBlockApart(c: Card, ino: nat, e: seq<Byte>, n: nat, b: seq<Byte>)
    requires ino < INODES && n < INODES && |e| == FS_INODE_SIZE && |b| == SECTOR_SIZE
    ensures ReadSector(InodeWrite(c, ino, e), n) == ReadSector(c, n)
    ensures InodeRead(WriteSector(c, n, b), ino) == InodeRead(c, ino)
  {
    var at := FS_INODE_TABLE_BASE * SECTOR_SIZE + ino * FS_INODE_SIZE;
    InodeWriteIs(c, ino, e);
    SectorApart(n, FS_INODE_TABLE_BASE);
    ReadWrite(c, at, e, n * SECTOR_SIZE, SECTOR_SIZE);
    ReadWrite(c, n * SECTOR_SIZE, b, at, FS_INODE_SIZE);
  }

  // ---------------------------------------------------------------- inode map

  const MAP_BYTES: nat := FS_INODE_MAP_SIZE * SECTOR_SIZE

  function MapPart(m: seq<Byte>, i: nat): seq<Byte>
    requires |m| == MAP_BYTES && i < FS_INODE_MAP_SIZE
  {
    m[SECTOR_SIZE * i..SECTOR_SIZE * i + SECTOR_SIZE]
  }

  /** inode_map_write from sector i of the map on */
  function MapWrite(c: Card, m: seq<Byte>, i: nat): Card
    requires |m| == MAP_BYTES && i <= FS_INODE_MAP_SIZE
    decreases FS_INODE_MAP_SIZE - i
  {
    if i == FS_INODE_MAP_SIZE then c
    else MapWrite(WriteSector(c, FS_INODE_MAP_BASE + i, MapPart(m, i)), m, i + 1)
  }

  /** inode_map_read from sector i of the map on */
  function MapRead(c: Card, i: nat): (m: seq<Byte>)
    requires i <= FS_INODE_MAP_SIZE
    ensures |m| == SECTOR_SIZE * (FS_INODE_MAP_SIZE - i)
    decreases FS_INODE_MAP_SIZE - i
  {
    if i == FS_INODE_MAP_SIZE then [] else ReadSector(c, FS_INODE_MAP_BASE + i) + MapRead(c, i + 1)
  }

  /** Writing the map touches its own sectors and puts in them what memory holds. */
  lemma {:induction false} MapWriteSector(c: Card, m: seq<Byte>, i: nat, s: nat)
    requires |m| == MAP_BYTES && i <= FS_INODE_MAP_SIZE && s < SECTORS
    ensures ReadSector(MapWrite(c, m, i), s) ==
      if FS_INODE_MAP_BASE + i <= s < FS_INODE_MAP_BASE + FS_INODE_MAP_SIZE then MapPart(m, s - FS_INODE_MAP_BASE)
      else ReadSector(c, s)
    decreases FS_INODE_MAP_SIZE - i
  {
    if i < FS_INODE_MAP_SIZE {
      var c1 := WriteSector(c, FS_INODE_MAP_BASE + i, MapPart(m, i));
      MapWriteSector(c1, m, i + 1, s);
      SectorReadWrite(c, FS_INODE_MAP_BASE + i, MapPart(m, i), s);
    }
  }

  /** The map read back after a write is the map in memory. */
  lemma MapRoundTrip(c: Card, m: seq<Byte>)
    requires |m| == MAP_BYTES
    ensures MapRead(MapWrite(c, m, 0), 0) == m
  {
    MapReadIs(MapWrite(c, m, 0), m, 0, c);
    assert m[0..] == m;
  }

  lemma {:induction false} MapReadIs(w: Card, m: seq<Byte>, i: nat, c: Card)
    requires |m| == MAP_BYTES && i <= FS_INODE_MAP_SIZE && w == MapWrite(c, m, 0)
    ensures MapRead(w, i) == m[SECTOR_SIZE * i..]
    decreases FS_INODE_MAP_SIZE - i
  {
    if i < FS_INODE_MAP_SIZE {
      MapWriteSector(c, m, 0, FS_INODE_MAP_BASE + i);
      MapReadIs(w, m, i + 1, c);
      assert m[SECTOR_SIZE * i..] == MapPart(m, i) + m[SECTOR_SIZE * (i + 1)..];
    }
  }

  // ------------------------------------------------------------------ records

  const WORD: nat := 0x1_0000_0000

  /** A little-endian 32-bit word. */
  function U32(n: nat): (b: seq<Byte>)
    requires n < WORD
    ensures |b| == 4
  {
    [n % 256, n / 256 % 256, n / 65536 % 256, n / 16777216]
  }

  function FromU32(b: seq<Byte>): nat
    requires |b| == 4
  {
    (b[0] as int) + 256 * (b[1] as int) + 65536 * (b[2] as int) + 16777216 * (b[3] as int)
  }

  lemma U32RoundTrip(n: nat)
    requires n < WORD
    ensures FromU32(U32(n)) == n
  {
    var a, b := n / 256, n / 65536;
    assert n == 256 * a + n % 256 && a == 256 * (a / 256) + a % 256 && b == 256 * (b / 256) + b % 256;
    assert a / 256 == b && b / 256 == n / 16777216;
  }

  /** Characters a char array can hold in a C string. */
  predicate Plain(name: string) {
    forall i :: 0 <= i < |name| ==> 0 < name[i] as int < 256
  }

  function Chars(name: string): (b: seq<Byte>)
    requires Plain(name)
    ensures |b| == |name|
  {
    seq(|name|, i requires 0 <= i < |name| => name[i] as int)
  }

  /** strcpy into a char array that held `scratch`. */
  function NameField(name: string, scratch: seq<Byte>): (b: seq<Byte>)
    requires Plain(name) && |name| < |scratch|
    ensures |b| == |scratch|
  {
    Chars(name) + [0] + scratch[|name| + 1..]
  }

  function FieldName(b: seq<Byte>): string {
    if b == [] || b[0] == 0 then "" else [b[0] as char] + FieldName(b[1..])
  }

  lemma {:induction false} NameRoundTrip(name: string, scratch: seq<Byte>)
    requires Plain(name) && |name| < |scratch|
    ensures FieldName(NameField(name, scratch)) == name
    decreases |name|
  {
    var b := NameField(name, scratch);
    if name != [] {
      NameRoundTrip(name[1..], scratch[1..]);
      assert b[1..] == NameField(name[1..], scratch[1..]);
    }
  }

  function ModeWord(m: Mode): nat {
    if m == DirMode then 1 else 0
  }

  /** inode_entry_t: name[32], ino, size, mode, timestamp, father_ino, ptr, unused[2]. */
  function InodeBytes(e: Inode, scratch: seq<Byte>): (b: seq<Byte>)
    requires InodeFits(e) && |scratch| == FS_INODE_SIZE
    ensures |b| == FS_INODE_SIZE
  {
    NameField(e.name, scratch[..32]) + U32(e.ino) + U32(1) + U32(ModeWord(e.mode)) + U32(e.timestamp)
    + U32(e.father) + U32(e.ino) + scratch[56..]
  }

  predicate InodeFits(e: Inode) {
    Plain(e.name) && |e.name| < 32 && e.ino < WORD && e.timestamp < WORD && e.father < WORD
  }

  function BytesInode(b: seq<Byte>): Inode
    requires |b| == FS_INODE_SIZE
  {
    Inode(FieldName(b[..32]), FromU32(b[32..36]), if FromU32(b[40..44]) == 1 then DirMode else FileMode,
          FromU32(b[48..52]), FromU32(b[44..48]))
  }

  lemma InodeBytesRoundTrip(e: Inode, scratch: seq<Byte>)
    requires InodeFits(e) && |scratch| == FS_INODE_SIZE
    ensures BytesInode(InodeBytes(e, scratch)) == e
  {
    var b := InodeBytes(e, scratch);
    assert b[..32] == NameField(e.name, scratch[..32]);
    NameRoundTrip(e.name, scratch[..32]);
    assert b[32..36] == U32(e.ino) && b[40..44] == U32(ModeWord(e.mode));
    assert b[44..48] == U32(e.timestamp) && b[48..52] == U32(e.father);
    U32RoundTrip(e.ino);
    U32RoundTrip(ModeWord(e.mode));
    U32RoundTrip(e.timestamp);
    U32RoundTrip(e.father);
  }

  /** dentry_t: ino, mode, name[24]; only ino matters in a free entry. */
  ghost predicate EntryRep(b: seq<Byte>, e: Dentry) {
    && |b| == FS_DENTRY_SIZE
    && FromU32(b[..4]) == (if e.ino < 0 then WORD - 1 else e.ino)
    && (e.ino != -1 ==> FromU32(b[4..8]) == ModeWord(e.mode) && FieldName(b[8..]) == e.name)
  }

  function EntryBytes(e: Dentry, scratch: seq<Byte>): (b: seq<Byte>)
    requires 0 <= e.ino < WORD && Plain(e.name) && |e.name| < 24 && |scratch| == FS_DENTRY_SIZE
    ensures |b| == FS_DENTRY_SIZE
  {
    U32(e.ino) + U32(ModeWord(e.mode)) + NameField(e.name, scratch[8..])
  }

  lemma EntryBytesRep(e: Dentry, scratch: seq<Byte>)
    requires 0 <= e.ino < WORD && Plain(e.name) && |e.name| < 24 && |scratch| == FS_DENTRY_SIZE
    ensures EntryRep(EntryBytes(e, scratch), e)
  {
    var b := EntryBytes(e, scratch);
    assert b[..4] == U32(e.ino) && b[4..8] == U32(ModeWord(e.mode)) && b[8..] == NameField(e.name, scratch[8..]);
    U32RoundTrip(e.ino);
    U32RoundTrip(ModeWord(e.mode));
    NameRoundTrip(e.name, scratch[8..]);
  }

  // ---------------------------------------------------------------- the whole

  function EntryPart(b: seq<Byte>, i: nat): seq<Byte>
    requires |b| == SECTOR_SIZE && i < DENTRYS
  {
    b[FS_DENTRY_SIZE * i..FS_DENTRY_SIZE * i + FS_DENTRY_SIZE]
  }

  ghost predicate BlockRep(b: seq<Byte>, k: Block) {
    && |b| == SECTOR_SIZE
    && match k
       case FileBlock(bytes) => b == bytes
       case DirBlock(es) => forall i: nat {:trigger es[i]} :: i < DENTRYS ==> EntryRep(EntryPart(b, i), es[i])
  }

  /** The inode records of `d` are in the table. */
  ghost predicate RepInodes(c: Card, inodes: map<nat, Inode>) {
    forall n {:trigger n in inodes} :: n in inodes ==> n < INODES && BytesInode(InodeRead(c, n)) == inodes[n]
  }

  /** The blocks of `d` are in the data sectors. */
  ghost predicate RepBlocks(c: Card, blocks: map<nat, Block>) {
    forall n {:trigger n in blocks} :: n in blocks ==> n < INODES && BlockRep(ReadSector(c, n), blocks[n])
  }

  ghost predicate Rep(c: Card, d: Disk) {
    RepInodes(c, d.inodes) && RepBlocks(c, d.blocks)
  }

  lemma InodesPut(c: Card, inodes: map<nat, Inode>, e: Inode, b: seq<Byte>)
    requires RepInodes(c, inodes) && e.ino < INODES && |b| == FS_INODE_SIZE && BytesInode(b) == e
    ensures RepInodes(InodeWrite(c, e.ino, b), inodes[e.ino := e])
  {
    forall n | n in inodes[e.ino := e]
      ensures n < INODES && BytesInode(InodeRead(InodeWrite(c, e.ino, b), n)) == inodes[e.ino := e][n]
    {
      assert n == e.ino || n in inodes;
      InodeRoundTrip(c, e.ino, b, n);
    }
  }

  lemma InodesKept(c: Card, inodes: map<nat, Inode>, ino: nat, b: seq<Byte>)
    requires RepInodes(c, inodes) && ino < INODES && |b| == SECTOR_SIZE
    ensures RepInodes(WriteSector(c, ino, b), inodes)
  {
    forall n | n in inodes
      ensures n < INODES && InodeRead(WriteSector(c, ino, b), n) == InodeRead(c, n)
    {
      InodeBlockApart(c, n, InodeRead(c, n), ino, b);
    }
  }

  lemma BlocksPut(c: Card, blocks: map<nat, Block>, ino: nat, k: Block, b: seq<Byte>)
    requires RepBlocks(c, blocks) && ino < INODES && |b| == SECTOR_SIZE && BlockRep(b, k)
    ensures RepBlocks(WriteSector(c, ino, b), blocks[ino := k])
  {
    hide BlockRep;
    forall n | n in blocks[ino := k]
      ensures n < INODES && BlockRep(ReadSector(WriteSector(c, ino, b), n), blocks[ino := k][n])
    {
      assert n == ino || n in blocks;
      SectorReadWrite(c, ino, b, n);
    }
  }

  lemma BlocksKept(c: Card, blocks: map<nat, Block>, ino: nat, b: seq<Byte>)
    requires RepBlocks(c, blocks) && ino < INODES && |b| == FS_INODE_SIZE
    ensures RepBlocks(InodeWrite(c, ino, b), blocks)
  {
    hide BlockRep;
    forall n | n in blocks
      ensures n < INODES && ReadSector(InodeWrite(c, ino, b), n) == ReadSector(c, n)
    {
      InodeBlockApart(c, ino, b, n, ReadSector(c, n));
    }
  }

  /** inode_write on the card is PutInode on the file system. */
  lemma RepPutInode(c: Card, d: Disk, e: Inode, scratch: seq<Byte>)
    requires Rep(c, d) && InodeFits(e) && e.ino < INODES && |scratch| == FS_INODE_SIZE
    ensures Rep(InodeWrite(c, e.ino, InodeBytes(e, scratch)), PutInode(d, e))
  {
    InodeBytesRoundTrip(e, scratch);
    hide RepInodes, RepBlocks, InodeBytes, BytesInode, InodeFits;
    InodesPut(c, d.inodes, e, InodeBytes(e, scratch));
    BlocksKept(c, d.blocks, e.ino, InodeBytes(e, scratch));
  }

  /** file_block_write and dir_block_write on the card are PutBlock on the file system. */
  lemma RepPutBlock(c: Card, d: Disk, ino: nat, k: Block, b: seq<Byte>)
    requires Rep(c, d) && ino < INODES && |b| == SECTOR_SIZE && BlockRep(b, k)
    ensures Rep(WriteSector(c, ino, b), PutBlock(d, ino, k))
  {
    hide RepInodes, RepBlocks, BlockRep;
    InodesKept(c, d.inodes, ino, b);
    BlocksPut(c, d.blocks, ino, k, b);
  }
}
