/** Reading and writing open files (kernel/fs/text.c:84-121), on the bytes of the card. */
module FileIo {
  import opened Prelude
  import opened FileSystem
  import opened DiskLayout
  import opened SdCard

  const FD_NUM: nat := 0x10

  datatype Fd = Fd(ino: nat, pos: nat)

  /** sys_fseek, then sys_fwrite of `buf` */
  datatype Chunk = Chunk(pos: nat, buf: seq<Byte>)

  predicate InRange(w: Chunk) {
    w.pos + |w.buf| <= SECTOR_SIZE
  }

  function WriteAt(c: Card, ino: nat, w: Chunk): Card
    requires ino < INODES && InRange(w)
  {
    WriteSector(c, FS_DATA_BASE + ino, Splice(ReadSector(c, FS_DATA_BASE + ino), w.pos, w.buf))
  }

  function WriteAll(c: Card, ino: nat, ws: seq<Chunk>): Card
    requires ino < INODES && forall w :: w in ws ==> InRange(w)
    decreases |ws|
  {
    if ws == [] then c else WriteAll(WriteAt(c, ino, ws[0]), ino, ws[1..])
  }

  /** The byte the last chunk covering offset k put there, or `b` if none does. */
  function LastByte(ws: seq<Chunk>, k: nat, b: Byte): Byte {
    if ws == [] then b
    else
      var w := ws[|ws| - 1];
      if w.pos <= k < w.pos + |w.buf| then w.buf[k - w.pos] else LastByte(ws[..|ws| - 1], k, b)
  }

  lemma {:induction false} LastByteFirst(ws: seq<Chunk>, k: nat, b: Byte)
    requires ws != []
    ensures LastByte(ws, k, b) ==
      LastByte(ws[1..], k, if ws[0].pos <= k < ws[0].pos + |ws[0].buf| then ws[0].buf[k - ws[0].pos] else b)
    decreases |ws|
  {
    var n := |ws| - 1;
    if n != 0 {
      assert ws[1..][n - 1] == ws[n] && ws[1..][..n - 1] == ws[..n][1..];
      LastByteFirst(ws[..n], k, b);
    }
  }

  /** After any writes, every byte of the file is what was last written there. */
  lemma {:induction false} LastWriteWins(c: Card, ino: nat, ws: seq<Chunk>, k: nat)
    requires ino < INODES && k < SECTOR_SIZE && forall w :: w in ws ==> InRange(w)
    ensures ReadSector(WriteAll(c, ino, ws), FS_DATA_BASE + ino)[k] == LastByte(ws, k, ReadSector(c, FS_DATA_BASE + ino)[k])
    decreases |ws|
  {
    if ws != [] {
      var c1 := WriteAt(c, ino, ws[0]);
      SectorReadWrite(c, ino, Splice(ReadSector(c, ino), ws[0].pos, ws[0].buf), ino);
      LastWriteWins(c1, ino, ws[1..], k);
      LastByteFirst(ws, k, ReadSector(c, ino)[k]);
    }
  }

  /** No other block, and no inode record, is changed by them. */
  lemma {:induction false} OthersUntouched(c: Card, ino: nat, ws: seq<Chunk>, n: nat)
    requires ino < INODES && n < INODES && forall w :: w in ws ==> InRange(w)
    ensures n != ino ==> ReadSector(WriteAll(c, ino, ws), FS_DATA_BASE + n) == ReadSector(c, FS_DATA_BASE + n)
    ensures InodeRead(WriteAll(c, ino, ws), n) == InodeRead(c, n)
    decreases |ws|
  {
    if ws != [] {
      assert ws[0] in ws;
      var b := Splice(ReadSector(c, ino), ws[0].pos, ws[0].buf);
      SectorReadWrite(c, ino, b, n);
      InodeBlockApart(c, n, InodeRead(c, n), ino, b);
      OthersUntouched(WriteAt(c, ino, ws[0]), ino, ws[1..], n);
    }
  }

  /** The fd table and the card it works on. */
  class Files {
    const card: Device
    const fd: array<Fd>
    var fdIndex: nat

    ghost predicate Valid()
      reads this, fd, card
    {
      && card.Valid() && fd.Length == FD_NUM
      && forall i :: 0 <= i < FD_NUM ==> fd[i].ino < INODES
    }

    ghost function Contents(): Card
      reads this, card, card.data, fd
      requires Valid()
    {
      card.Contents()
    }

    constructor ()
      ensures Valid() && fdIndex == 0 && fresh(card) && fresh(card.data) && fresh(fd)
    {
      card := new Device();
      fd := new Fd[FD_NUM](_ => Fd(0, 0));
      fdIndex := 0;
    }

    /** The end of sys_fopen: the next descriptor, at the start of the file. */
    method Attach(ino: nat) returns (index: nat)
      requires Valid() && fdIndex < FD_NUM && ino < INODES
      modifies fd, `fdIndex
      ensures Valid() && Contents() == old(Contents()) && index == old(fdIndex) && fdIndex == index + 1
      ensures fd[..] == old(fd[..])[index := Fd(ino, 0)]
    {
      fd[fdIndex] := Fd(ino, 0);
      fdIndex := fdIndex + 1;
      index := fdIndex - 1;
    }

    /** sys_fread: the bytes at the position, which moves on. */
    method FRead(index: nat, size: nat) returns (buf: seq<Byte>, r: nat)
      requires Valid() && index < FD_NUM && fd[index].pos + size <= SECTOR_SIZE
      modifies fd
      ensures Valid() && Contents() == old(Contents()) && r == size == |buf|
      ensures buf == ReadSector(Contents(), FS_DATA_BASE + fd[index].ino)[old(fd[index].pos)..old(fd[index].pos) + size]
      ensures fd[..] == old(fd[..])[index := Fd(old(fd[index].ino), old(fd[index].pos) + size)]
    {
      var f := fd[index];
      var fb := card.SectorRead(f.ino + FS_DATA_BASE);
      buf := fb[f.pos..f.pos + size];
      fd[index] := f.(pos := f.pos + size);
      r := size;
    }

    /** sys_fwrite: one chunk at the position, which moves on. */
    method FWrite(index: nat, buf: seq<Byte>) returns (r: nat)
      requires Valid() && index < FD_NUM && fd[index].pos + |buf| <= SECTOR_SIZE
      modifies card.data, fd
      ensures Valid() && r == |buf|
      ensures Contents() == WriteAt(old(Contents()), old(fd[index].ino), Chunk(old(fd[index].pos), buf))
      ensures fd[..] == old(fd[..])[index := Fd(old(fd[index].ino), old(fd[index].pos) + |buf|)]
    {
      var f := fd[index];
      var fb := card.SectorRead(f.ino + FS_DATA_BASE);
      card.SectorWrite(Splice(fb, f.pos, buf), f.ino + FS_DATA_BASE);
      fd[index] := f.(pos := f.pos + |buf|);
      r := |buf|;
    }

    /** sys_fseek */
    method FSeek(index: nat, pos: nat)
      requires Valid() && index < FD_NUM
      modifies fd
      ensures Valid() && Contents() == old(Contents())
      ensures fd[..] == old(fd[..])[index := Fd(old(fd[index].ino), pos)]
    {
      fd[index] := fd[index].(pos := pos);
    }

    /** sys_fclose: a terminating NUL at the position, which goes back to the start. */
    method FClose(index: nat)
      requires Valid() && index < FD_NUM && fd[index].pos + 1 <= SECTOR_SIZE
      modifies card.data, fd
      ensures Valid()
      ensures Contents() == WriteAt(old(Contents()), old(fd[index].ino), Chunk(old(fd[index].pos), [0]))
      ensures fd[..] == old(fd[..])[index := Fd(old(fd[index].ino), 0)]
    {
      var r := FWrite(index, [0]);
      fd[index] := fd[index].(pos := 0);
    }

    /** Writing at a position, seeking back and reading returns what was written. */
    method WriteThenRead(index: nat, buf: seq<Byte>) returns (back: seq<Byte>)
      requires Valid() && index < FD_NUM && fd[index].pos + |buf| <= SECTOR_SIZE
      modifies card.data, fd
      ensures Valid() && back == buf
    {
      var pos := fd[index].pos;
      ghost var c, ino := Contents(), fd[index].ino;
      var r := FWrite(index, buf);
      FSeek(index, pos);
      back, r := FRead(index, |buf|);
      SectorReadWrite(c, ino, Splice(ReadSector(c, ino), pos, buf), ino);
    }
  }
}
