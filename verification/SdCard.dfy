/**
 kernel/fs/disk.c as the source writes it: transfers of sectors and records to
 and from the card. sdread and sdwrite are the copy of a run of bytes.
 */
module SdCard {
  import opened FileSystem
  import opened DiskLayout

  class Device {
    const data: array<Byte>

    ghost predicate Valid()
      reads this
    {
      data.Length == SECTORS * SECTOR_SIZE
    }

    ghost function Contents(): Card
      reads this, data
      requires Valid()
    {
      data[..]
    }

    constructor ()
      ensures Valid() && fresh(data)
    {
      data := new Byte[SECTORS * SECTOR_SIZE](_ => 0);
    }

    /** do_sdwrite */
    method SdWrite(src: seq<Byte>, offset: nat)
      requires Valid() && offset + |src| <= SECTORS * SECTOR_SIZE
      modifies data
      ensures Contents() == Write(old(Contents()), offset, src)
    {
      forall i | 0 <= i < |src| {
        data[offset + i] := src[i];
      }
      assert data[..] == Write(old(data[..]), offset, src);
    }

    /** do_sdread */
    method SdRead(offset: nat, size: nat) returns (dest: seq<Byte>)
      requires Valid() && offset + size <= SECTORS * SECTOR_SIZE
      ensures dest == Read(Contents(), offset, size)
    {
      dest := data[offset..offset + size];
    }

    method SectorWrite(src: seq<Byte>, sector: nat)
      requires Valid() && sector < SECTORS && |src| == SECTOR_SIZE
      modifies data
      ensures Contents() == WriteSector(old(Contents()), sector, src)
    {
      SectorApart(sector, SECTORS);
      SdWrite(src, sector * SECTOR_SIZE);
    }

    method SectorRead(sector: nat) returns (dest: seq<Byte>)
      requires Valid() && sector < SECTORS
      ensures dest == ReadSector(Contents(), sector)
    {
      SectorApart(sector, SECTORS);
      dest := SdRead(sector * SECTOR_SIZE, SECTOR_SIZE);
    }

    /**
     inode_write: read eight records, replace one, write them back. The effect is
     a write of that record alone, at the offset inode_read uses; a number
     outside the table changes nothing.
     */
    method InodeStore(src: seq<Byte>, ino: int)
      requires Valid() && |src| == FS_INODE_SIZE
      modifies data
      ensures Contents() == InodeWrite(old(Contents()), ino, src)
      ensures 0 <= ino < INODES ==>
        Contents() == Write(old(Contents()), FS_INODE_TABLE_BASE * SECTOR_SIZE + ino * FS_INODE_SIZE, src)
    {
      if ino < 0 || ino >= FS_INODE_TABLE_SIZE * 8 {
        return;
      }
      InodeWriteIs(Contents(), ino, src);
      var sector, offset := ino / 8 + FS_INODE_TABLE_BASE, ino % 8 * FS_INODE_SIZE;
      var ie := SectorRead(sector);
      hide WriteSector, ReadSector, Write;
      SectorWrite(ie[..offset] + src + ie[offset + FS_INODE_SIZE..], sector);
    }

    /** inode_read; `was` is what the destination held. */
    method InodeLoad(ino: int, was: seq<Byte>) returns (dest: seq<Byte>)
      requires Valid() && |was| == FS_INODE_SIZE
      ensures dest == if 0 <= ino < INODES then InodeRead(Contents(), ino) else was
    {
      if ino < 0 || ino >= FS_INODE_TABLE_SIZE * 8 {
        return was;
      }
      dest := SdRead(FS_INODE_TABLE_BASE * SECTOR_SIZE + ino * FS_INODE_SIZE, FS_INODE_SIZE);
    }

    /** inode_map_write: eight sectors, after which the map reads back as `m`. */
    method InodeMapWrite(m: seq<Byte>)
      requires Valid() && |m| == MAP_BYTES
      modifies data
      ensures Contents() == MapWrite(old(Contents()), m, 0)
      ensures MapRead(Contents(), 0) == m
    {
      MapRoundTrip(Contents(), m);
      hide WriteSector, MapPart;
      var i := 0;
      while i < FS_INODE_MAP_SIZE
        invariant i <= FS_INODE_MAP_SIZE
        invariant MapWrite(Contents(), m, i) == MapWrite(old(Contents()), m, 0)
      {
        SectorWrite(m[SECTOR_SIZE * i..SECTOR_SIZE * i + SECTOR_SIZE], FS_INODE_MAP_BASE + i);
        i := i + 1;
      }
    }

    /** The body of the loop of inode_map_read. */
    method ReadPart(ghost c: Card, m: seq<Byte>, i: nat) returns (m': seq<Byte>)
      requires Valid() && c == Contents() && i < FS_INODE_MAP_SIZE && Gathered(c, m, i)
      ensures Gathered(c, m', i + 1)
    {
      GatheredStep(c, m, i);
      var part := SectorRead(FS_INODE_MAP_BASE + i);
      m' := m + part;
    }

    /** inode_map_read */
    method InodeMapRead() returns (m: seq<Byte>)
      requires Valid()
      ensures m == MapRead(Contents(), 0)
    {
      m := ReadParts();
      GatheredEnd(Contents(), m);
    }

    method ReadParts() returns (m: seq<Byte>)
      requires Valid()
      ensures Gathered(Contents(), m, FS_INODE_MAP_SIZE)
    {
      ghost var c := Contents();
      GatheredStart(c);
      hide MapRead, ReadSector, Gathered;
      m := [];
      var i := 0;
      while i < FS_INODE_MAP_SIZE
        invariant i <= FS_INODE_MAP_SIZE && Contents() == c && Gathered(c, m, i)
      {
        m := ReadPart(c, m, i);
        i := i + 1;
      }
    }
  }

  /** `m` is the map up to sector i. */
  ghost predicate Gathered(c: Card, m: seq<Byte>, i: nat)
    requires i <= FS_INODE_MAP_SIZE
  {
    m + MapRead(c, i) == MapRead(c, 0)
  }

  lemma GatheredStart(c: Card)
    ensures Gathered(c, [], 0)
  {
  }

  lemma GatheredStep(c: Card, m: seq<Byte>, i: nat)
    requires i < FS_INODE_MAP_SIZE && Gathered(c, m, i)
    ensures Gathered(c, m + ReadSector(c, FS_INODE_MAP_BASE + i), i + 1)
  {
    hide ReadSector;
    var part, rest := ReadSector(c, FS_INODE_MAP_BASE + i), MapRead(c, i + 1);
    assert m + (part + rest) == (m + part) + rest;
  }

  lemma GatheredEnd(c: Card, m: seq<Byte>)
    requires Gathered(c, m, FS_INODE_MAP_SIZE)
    ensures m == MapRead(c, 0)
  {
    assert MapRead(c, FS_INODE_MAP_SIZE) == [];
  }
}
