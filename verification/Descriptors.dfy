/**
 The table of open files (kernel/fs/text.c:53-121) over the card of CardFs.dfy.
 A descriptor keeps the inode number it was given by sys_fopen, whatever rm and
 mkdir do with that inode afterwards.
 */
module Descriptors {
  import opened Prelude
  import opened FileSystem
  import opened DiskLayout
  import C = CardFs
  import F = FileIo
  import I = FileSystemImpl

  type Table = t: seq<F.Fd> | |t| == F.FD_NUM witness seq(F.FD_NUM, _ => F.Fd(0, 0))

  /** The card and its caches, fd and fd_index. */
  datatype State = State(fs: C.State, fd: Table, next: nat)

  datatype Call =
    | Shell(op: Op)                         // mkfs, mkdir, touch, rm, rmdir, cd
    | Fopen(name: string, now: nat)
    | Fread(index: nat, size: nat)
    | Fwrite(index: nat, buf: seq<Byte>)
    | Fseek(index: nat, pos: nat)
    | Fclose(index: nat)

  predicate Proper(call: Call) {
    match call
    case Shell(op) => C.Wordly(op) && !op.Fopen? && !op.Fwrite?
    case Fopen(name, now) => Plain(name) && now < WORD
    case _ => true
  }

  /** One call; None where the source would leave the table, a block or another array. */
  function Do(s: State, call: Call, sc: C.Scratch): Option<State>
    requires Proper(call)
  {
    match call
    case Shell(op) => (match C.StepOn(s.fs, op, sc)
                       case None => None
                       case Some(r) => Some(s.(fs := r)))
    case Fopen(name, now) => (match C.OpenOn(s.fs, name, now, sc)
                              case None => None
                              case Some(r) => Attach(s.(fs := r), name))
    case Fread(index, size) =>
      if index < F.FD_NUM && s.fd[index].pos + size <= BLOCK_BYTES then Some(Advance(s, index, size)) else None
    case Fwrite(index, buf) => Put(s, index, buf)
    case Fseek(index, pos) =>
      if index < F.FD_NUM then Some(s.(fd := s.fd[index := s.fd[index].(pos := pos)])) else None
    case Fclose(index) => (match Put(s, index, [0])
                           case None => None
                           case Some(r) => Some(r.(fd := r.fd[index := r.fd[index].(pos := 0)])))
  }

  function Advance(s: State, index: nat, size: nat): State
    requires index < F.FD_NUM
  {
    s.(fd := s.fd[index := s.fd[index].(pos := s.fd[index].pos + size)])
  }

  /** The second loop of sys_fopen: the next descriptor is the file of that name. */
  function Attach(s: State, name: string): Option<State> {
    var es := C.EntriesOn(s.fs.card, s.fs.shell.ino);
    var j := Find(es, FileMode, name, 0);
    if j == DENTRYS then Some(s)
    else if s.next < F.FD_NUM && es[j].ino >= 0 then Some(s.(fd := s.fd[s.next := F.Fd(es[j].ino, 0)], next := s.next + 1))
    else None
  }

  /** sys_fwrite */
  function Put(s: State, index: nat, buf: seq<Byte>): Option<State> {
    if index >= F.FD_NUM then None
    else match C.WriteOn(s.fs, s.fd[index].ino, F.Chunk(s.fd[index].pos, buf))
      case None => None
      case Some(r) => Some(Advance(s, index, |buf|).(fs := r))
  }

  // ---------------------------------------------------------- what a write may hit

  /** The card and its caches stand for a consistent file system. */
  ghost predicate Ok(s: C.State) {
    exists fs :: C.Represents(s, fs) && Consistent(fs)
  }

  /** The card after sys_fwrite put a chunk into the block of inode n. */
  function Written(s: C.State, n: nat, w: F.Chunk): C.State
    requires n < INODES && F.InRange(w)
  {
    C.WriteOn(s, n, w).value
  }

  /** Inode n is in use and its record says directory. */
  predicate Directory(s: C.State, n: nat) {
    n < INODES && n in I.Used(s.words) && BytesInode(InodeRead(s.card, n)).mode == DirMode
  }

  lemma DirectoryIs(s: C.State, fs: Fs, n: nat)
    requires C.Represents(s, fs) && Consistent(fs)
    ensures Directory(s, n) <==> IsDir(fs.disk, n)
  {
    hide I.Used, C.MapOn, RepBlocks, InodeRead, BytesInode, ReadSector, C.SuperOk;
    if n in fs.disk.used {
      assert n in fs.disk.inodes;
    }
  }

  /** Bytes written to anything but a directory in use leave a consistent file system. */
  lemma WriteKeeps(s: C.State, fs: Fs, n: nat, w: F.Chunk) returns (r: Fs)
    requires C.Represents(s, fs) && Consistent(fs) && n < INODES && F.InRange(w) && !IsDir(fs.disk, n)
    ensures C.Represents(Written(s, n, w), r) && Consistent(r)
    ensures r.used == fs.used && r.disk.inodes == fs.disk.inodes
    ensures forall m: nat :: m in fs.used && m != n ==> m in r.disk.blocks && r.disk.blocks[m] == fs.disk.blocks[m]
  {
    hide C.MapOn, I.Used, BlockRep, ReadSector, WriteSector, Rep, C.SuperOk, Splice;
    var b := Splice(ReadSector(s.card, n), w.pos, w.buf);
    C.FileRep(b);
    C.HoldsPutBlock(s.card, fs.disk, n, FileBlock(b), b);
    PutFileKeeps(fs, n, b);
    r := fs.(disk := PutBlock(fs.disk, n, FileBlock(b)));
  }

  /** Four bytes that make the first entry of a directory read as free. */
  const NO_ENTRY: F.Chunk := F.Chunk(0, [255, 255, 255, 255])

  /** In a consistent file system the block of a directory starts with its own number. */
  lemma FirstEntry(s: C.State, fs: Fs, n: nat)
    requires C.Represents(s, fs) && Consistent(fs) && IsDir(fs.disk, n)
    ensures n < INODES && FromU32(ReadSector(s.card, n)[..4]) == n
  {
    hide I.Used, C.MapOn, RepInodes, C.SuperOk, ReadSector;
    assert n in fs.disk.used && n in fs.disk.blocks;
    var es := EntriesAt(fs.disk, n);
    assert BlockRep(ReadSector(s.card, n), DirBlock(es));
    assert EntryRep(EntryPart(ReadSector(s.card, n), 0), es[0]);
    assert EntryPart(ReadSector(s.card, n), 0)[..4] == ReadSector(s.card, n)[..4];
  }

  lemma DirectoryStays(s: C.State, n: nat, w: F.Chunk)
    requires Directory(s, n) && F.InRange(w)
    ensures Directory(Written(s, n, w), n)
    ensures ReadSector(Written(s, n, w).card, n) == Splice(ReadSector(s.card, n), w.pos, w.buf)
  {
    hide I.Used, BytesInode, Splice;
    var b := Splice(ReadSector(s.card, n), w.pos, w.buf);
    InodeBlockApart(s.card, n, InodeRead(s.card, n), n, b);
    SectorReadWrite(s.card, n, b, n);
  }

  lemma WriteBreaks(s: C.State, n: nat)
    requires Directory(s, n)
    ensures !Ok(Written(s, n, NO_ENTRY))
  {
    var r := Written(s, n, NO_ENTRY);
    DirectoryStays(s, n, NO_ENTRY);
    assert ReadSector(r.card, n)[..4] == NO_ENTRY.buf;
    assert FromU32(NO_ENTRY.buf) == WORD - 1;
    if Ok(r) {
      var fs :| C.Represents(r, fs) && Consistent(fs);
      DirectoryIs(r, fs, n);
      FirstEntry(r, fs, n);
    }
  }

  /** Writes to an inode are harmless, whatever they write, exactly when it is not a directory in use. */
  lemma WriteIff(s: C.State, n: nat)
    requires Ok(s) && n < INODES
    ensures (forall w :: F.InRange(w) ==> Ok(Written(s, n, w))) <==> !Directory(s, n)
  {
    hide Directory, C.Represents, Consistent, Written;
    var fs :| C.Represents(s, fs) && Consistent(fs);
    DirectoryIs(s, fs, n);
    if Directory(s, n) {
      WriteBreaks(s, n);
      assert F.InRange(NO_ENTRY);
    } else {
      forall w | F.InRange(w)
        ensures Ok(Written(s, n, w))
      {
        var r := WriteKeeps(s, fs, n, w);
      }
    }
  }

  // ----------------------------------------------------- what the calls read and write

  /** The bytes sys_fread copies out. */
  function Fetched(s: State, index: nat, size: nat): seq<Byte>
    requires index < F.FD_NUM && s.fd[index].ino < INODES && s.fd[index].pos + size <= BLOCK_BYTES
  {
    ReadSector(s.fs.card, s.fd[index].ino)[s.fd[index].pos..s.fd[index].pos + size]
  }

  /** Only the position of descriptor `index` differs. */
  ghost predicate MovedTo(s: State, r: State, index: nat, pos: nat) {
    && index < F.FD_NUM && r.next == s.next && r.fd[index] == F.Fd(s.fd[index].ino, pos)
    && forall i: nat {:trigger r.fd[i]} :: i < F.FD_NUM && i != index ==> r.fd[i] == s.fd[i]
  }

  /**
   fwrite: the bytes are in the file from the position on and the position is
   after them; no other byte of the file, no other block, no record and no other
   descriptor changes.
   */
  lemma FwriteStores(s: State, index: nat, buf: seq<Byte>, sc: C.Scratch, r: State)
    requires Do(s, Call.Fwrite(index, buf), sc) == Some(r)
    ensures index < F.FD_NUM && s.fd[index].ino < INODES && s.fd[index].pos + |buf| <= BLOCK_BYTES
    ensures var ino, pos := s.fd[index].ino, s.fd[index].pos;
      var was, now := ReadSector(s.fs.card, ino), ReadSector(r.fs.card, ino);
      && (forall k: nat :: k < |buf| ==> now[pos + k] == buf[k])
      && (forall k: nat :: k < pos || pos + |buf| <= k < BLOCK_BYTES ==> now[k] == was[k])
      && (forall n: nat :: n < INODES && n != ino ==> ReadSector(r.fs.card, n) == ReadSector(s.fs.card, n))
      && (forall n: nat :: n < INODES ==> InodeRead(r.fs.card, n) == InodeRead(s.fs.card, n))
      && r.fs == s.fs.(card := r.fs.card) && MovedTo(s, r, index, pos + |buf|)
  {
    var ino, pos := s.fd[index].ino, s.fd[index].pos;
    var b := Splice(ReadSector(s.fs.card, ino), pos, buf);
    hide ReadSector, WriteSector, InodeRead;
    assert r.fs.card == WriteSector(s.fs.card, ino, b);
    forall n: nat | n < INODES
      ensures ReadSector(r.fs.card, n) == if n == ino then b else ReadSector(s.fs.card, n)
      ensures InodeRead(r.fs.card, n) == InodeRead(s.fs.card, n)
    {
      SectorReadWrite(s.fs.card, ino, b, n);
      InodeBlockApart(s.fs.card, n, InodeRead(s.fs.card, n), ino, b);
    }
  }

  /** What was written is read back after a seek to where it was written. */
  lemma WriteSeekRead(s: State, index: nat, buf: seq<Byte>, sc: C.Scratch, r: State, r': State)
    requires Do(s, Call.Fwrite(index, buf), sc) == Some(r) && index < F.FD_NUM
    requires Do(r, Call.Fseek(index, s.fd[index].pos), sc) == Some(r')
    ensures MovedTo(s, r', index, s.fd[index].pos) && r'.fs == r.fs
    ensures s.fd[index].ino < INODES && s.fd[index].pos + |buf| <= BLOCK_BYTES && Fetched(r', index, |buf|) == buf
  {
    FwriteStores(s, index, buf, sc, r);
    hide ReadSector;
    var pos, now := s.fd[index].pos, ReadSector(r.fs.card, s.fd[index].ino);
    assert now[pos..pos + |buf|] == buf;
  }

  /** A read moves the position past what was read and changes nothing else. */
  lemma FreadMoves(s: State, index: nat, size: nat, sc: C.Scratch, r: State)
    requires Do(s, Call.Fread(index, size), sc) == Some(r)
    ensures index < F.FD_NUM && r.fs == s.fs && MovedTo(s, r, index, s.fd[index].pos + size)
  {
  }

  /** fclose: a NUL at the position, which is at the start again. */
  lemma FcloseEnds(s: State, index: nat, sc: C.Scratch, r: State)
    requires Do(s, Call.Fclose(index), sc) == Some(r)
    ensures index < F.FD_NUM && s.fd[index].ino < INODES && s.fd[index].pos < BLOCK_BYTES
    ensures ReadSector(r.fs.card, s.fd[index].ino)[s.fd[index].pos] == 0 && MovedTo(s, r, index, 0)
    ensures forall k: nat :: k < s.fd[index].pos ==>
      ReadSector(r.fs.card, s.fd[index].ino)[k] == ReadSector(s.fs.card, s.fd[index].ino)[k]
  {
    var w := Put(s, index, [0]).value;
    FwriteStores(s, index, [0], sc, w);
    hide ReadSector, Put;
    assert ReadSector(w.fs.card, s.fd[index].ino)[s.fd[index].pos + 0] == [0][0];
  }

  /** Two writes one after the other are one write of both. */
  lemma WritesAppend(s: State, index: nat, a: seq<Byte>, b: seq<Byte>, sc: C.Scratch, r: State, r': State)
    requires Do(s, Call.Fwrite(index, a), sc) == Some(r) && Do(r, Call.Fwrite(index, b), sc) == Some(r')
    requires index < F.FD_NUM
    ensures s.fd[index].ino < INODES && s.fd[index].pos + |a| + |b| <= BLOCK_BYTES
    ensures var pos := s.fd[index].pos;
      && ReadSector(r'.fs.card, s.fd[index].ino)[pos..pos + |a| + |b|] == a + b && MovedTo(s, r', index, pos + |a| + |b|)
  {
    FwriteStores(s, index, a, sc, r);
    FwriteStores(r, index, b, sc, r');
    hide ReadSector, InodeRead, Do;
    var pos, mid, now := s.fd[index].pos, ReadSector(r.fs.card, s.fd[index].ino), ReadSector(r'.fs.card, s.fd[index].ino);
    var both := now[pos..pos + |a| + |b|];
    forall k: nat | k < |a| + |b|
      ensures both[k] == (a + b)[k]
    {
      if k < |a| {
        assert now[pos + k] == mid[pos + k] == a[k];
      } else {
        assert now[pos + |a| + (k - |a|)] == b[k - |a|];
      }
    }
  }

  // -------------------------------------------------------------------------- runs

  /** The inode a call writes to, if any. */
  function Target(s: State, call: Call): Option<nat> {
    if call.Fwrite? && call.index < F.FD_NUM then Some(s.fd[call.index].ino)
    else if call.Fclose? && call.index < F.FD_NUM then Some(s.fd[call.index].ino)
    else None
  }

  /** The call does not write through a descriptor whose inode now is a directory's. */
  predicate Spares(s: State, call: Call) {
    match Target(s, call)
    case None => true
    case Some(n) => !Directory(s.fs, n)
  }

  lemma PutOk(s: State, index: nat, buf: seq<Byte>)
    requires Ok(s.fs) && Put(s, index, buf).Some? && !Directory(s.fs, s.fd[index].ino)
    ensures Ok(Put(s, index, buf).value.fs)
  {
    var n, w := s.fd[index].ino, F.Chunk(s.fd[index].pos, buf);
    hide Directory, C.Represents, Consistent, Ok;
    WriteIff(s.fs, n);
    assert Ok(Written(s.fs, n, w));
  }

  /** A shell command that the card can carry out, the file system can. */
  lemma ShellCan(s: C.State, fs: Fs, op: Op, sc: C.Scratch)
    requires C.Represents(s, fs) && Consistent(fs) && C.Wordly(op) && C.StepOn(s, op, sc).Some? && !op.Fwrite?
    ensures Step(fs, op, sc.block).Some?
  {
    hide Consistent, C.Represents, CanCreate, C.CanMake, C.Make, C.Unmake, C.Format, C.GoTo, Create, Remove, MakeFs, ChangeDir, Find,
      C.EntriesOn, EntriesAt, Plain, C.CanUnmake;
    match op
    case Mkdir(name, now) => C.CanMakeIff(s, fs, name, now);
    case Touch(name, now) => C.CanMakeIff(s, fs, name, now);
    case Fopen(name, now) =>
      C.CanMakeIff(s, fs, name, now);
      OpenSame(s, fs, name);
    case _ =>
  }

  lemma OpenSame(s: C.State, fs: Fs, name: string)
    requires C.Represents(s, fs) && Consistent(fs)
    ensures Find(C.EntriesOn(s.card, s.shell.ino), FileMode, name, 0) == Find(EntriesAt(fs.disk, fs.shell.ino), FileMode, name, 0)
    ensures C.SameEntries(C.EntriesOn(s.card, s.shell.ino), EntriesAt(fs.disk, fs.shell.ino))
  {
    C.ShellHere(fs);
    hide Consistent, DiskOk, Here;
    C.DirOn(s.card, fs.disk, fs.shell);
    C.SearchSame(C.EntriesOn(s.card, s.shell.ino), EntriesAt(fs.disk, fs.shell.ino), FileMode, name, 0);
  }

  lemma ShellOk(s: C.State, op: Op, sc: C.Scratch)
    requires Ok(s) && C.Wordly(op) && C.StepOn(s, op, sc).Some? && !op.Fwrite?
    ensures Ok(C.StepOn(s, op, sc).value)
  {
    hide Consistent, C.Represents, C.StepOn, Step;
    var fs :| C.Represents(s, fs) && Consistent(fs);
    ShellCan(s, fs, op, sc);
    C.StepRefines(s, fs, op, sc);
    StepKeeps(fs, op, sc.block);
  }

  /** Every call that spares directories keeps the card consistent. */
  lemma DoKeeps(s: State, call: Call, sc: C.Scratch)
    requires Ok(s.fs) && Proper(call) && Do(s, call, sc).Some? && Spares(s, call)
    ensures Ok(Do(s, call, sc).value.fs)
  {
    hide Ok, Directory, Attach;
    match call
    case Shell(op) => ShellOk(s.fs, op, sc);
    case Fopen(name, now) =>
      ShellOk(s.fs, FileSystem.Fopen(name, now), sc);
      AttachSame(s.(fs := C.OpenOn(s.fs, name, now, sc).value), name);
    case Fwrite(index, buf) => PutOk(s, index, buf);
    case Fclose(index) => PutOk(s, index, [0]);
    case _ =>
  }

  lemma AttachSame(s: State, name: string)
    requires Attach(s, name).Some?
    ensures Attach(s, name).value.fs == s.fs
  {
  }

  /** `run[i]` is the state before call i. */
  ghost predicate IsRun(run: seq<State>, calls: seq<Call>, scs: seq<C.Scratch>) {
    && |run| == |calls| + 1 && |scs| == |calls|
    && forall i :: 0 <= i < |calls| ==> Proper(calls[i]) && Do(run[i], calls[i], scs[i]) == Some(run[i + 1])
  }

  /**
   In every run with open files, from a mount of any consistent or blank card,
   the card stays consistent up to the first write through a descriptor whose
   inode has meanwhile become a directory's.
   */
  lemma {:induction false} RunOk(s0: C.State, fs: Fs, now: nat, sc: C.Scratch, run: seq<State>, calls: seq<Call>, scs: seq<C.Scratch>, n: nat)
    requires C.Holds(s0.card, fs.disk) && s0.cur == fs.cur && now < WORD && (fs.disk.formatted ==> DiskOk(fs.disk))
    requires IsRun(run, calls, scs) && run[0].fs == C.Format(s0, now, sc) && n <= |calls|
    requires forall i :: 0 <= i < n ==> Spares(run[i], calls[i])
    ensures Ok(run[n].fs)
  {
    hide C.Holds, DiskOk, Consistent, C.Represents, C.Format, MakeFs, Do, Spares;
    if n == 0 {
      C.FormatRefines(s0, fs, now, sc);
      MakeFsKeeps(fs, now, sc.block);
    } else {
      RunOk(s0, fs, now, sc, run, calls, scs, n - 1);
      assert Spares(run[n - 1], calls[n - 1]);
      assert Do(run[n - 1], calls[n - 1], scs[n - 1]) == Some(run[n - 1 + 1]);
      DoKeeps(run[n - 1], calls[n - 1], scs[n - 1]);
    }
  }

  // ------------------------------------------------------------- the stale descriptor

  /** fopen; rm; mkdir; fwrite through the descriptor. */
  function StaleCalls(file: string, dir: string, index: nat, now: nat): seq<Call> {
    [Call.Fopen(file, now), Shell(Rm(file)), Shell(Mkdir(dir, now)), Call.Fwrite(index, NO_ENTRY.buf)]
  }

  ghost predicate Yields(s: C.State, op: Op, sc: C.Scratch, r: C.State) {
    C.Wordly(op) && C.StepOn(s, op, sc) == Some(r)
  }

  lemma Steps(s: C.State, fs: Fs, op: Op, sc: C.Scratch) returns (r: C.State)
    requires C.Represents(s, fs) && Consistent(fs) && C.Wordly(op) && Step(fs, op, sc.block).Some?
    ensures Yields(s, op, sc, r)
    ensures C.Represents(r, Step(fs, op, sc.block).value) && Consistent(Step(fs, op, sc.block).value)
  {
    hide Consistent, C.Represents, C.StepOn, Step;
    C.StepRefines(s, fs, op, sc);
    StepKeeps(fs, op, sc.block);
    r := C.StepOn(s, op, sc).value;
  }

  lemma EntryFound(s: C.State, fs: Fs, name: string, now: nat, b: Bytes, ino: int)
    requires C.Represents(s, fs) && Consistent(fs) && CanOpen(fs, name) && Open(fs, name, now, b) == (fs, ino) && ino >= 0
    requires Find(EntriesAt(fs.disk, fs.shell.ino), FileMode, name, 0) < DENTRYS
    ensures var es := C.EntriesOn(s.card, s.shell.ino);
      var j := Find(es, FileMode, name, 0); j < DENTRYS && es[j].ino == ino
  {
    OpenSame(s, fs, name);
    hide Consistent, C.Represents, C.EntriesOn, EntriesAt, CanCreate;
    var j := Find(EntriesAt(fs.disk, fs.shell.ino), FileMode, name, 0);
    assert C.Same(C.EntriesOn(s.card, s.shell.ino)[j], EntriesAt(fs.disk, fs.shell.ino)[j]);
  }

  /**
   sys_fopen of an old or a new file: the next descriptor is at the start of a
   file of that name in the current directory.
   */
  lemma Opens(s: State, fs: Fs, name: string, now: nat, sc: C.Scratch) returns (r: State)
    requires C.Represents(s.fs, fs) && Consistent(fs) && CanOpen(fs, name) && s.next < F.FD_NUM && Plain(name) && now < WORD
    ensures Do(s, Call.Fopen(name, now), sc) == Some(r)
    ensures var (f, ino) := Open(fs, name, now, sc.block);
      && C.Represents(r.fs, f) && Consistent(f) && ino >= 0 && r.fd == s.fd[s.next := F.Fd(ino, 0)] && r.next == s.next + 1
      && IsFile(f.disk, ino) && InodeAt(f.disk, ino).name == name && InodeAt(f.disk, ino).father == fs.shell.ino
  {
    hide Consistent, C.Represents, CanCreate, C.CanMake, C.Make, Create, C.EntriesOn, EntriesAt, Plain;
    OpenFinds(fs, name, now, sc.block, now, sc.block);
    C.OpenRefines(s.fs, fs, name, now, sc);
    if Find(EntriesAt(fs.disk, fs.shell.ino), FileMode, name, 0) == DENTRYS {
      CreateThenFind(fs, FileMode, name, now, sc.block);
    }
    var f, ino := Open(fs, name, now, sc.block).0, Open(fs, name, now, sc.block).1;
    var c := C.OpenOn(s.fs, name, now, sc).value;
    EntryFound(c, f, name, now, sc.block, ino);
    r := State(c, s.fd[s.next := F.Fd(ino, 0)], s.next + 1);
  }

  lemma DirectoryNumber(s: C.State, n: nat)
    requires Directory(s, n)
    ensures n < INODES
  {
  }

  /** InodeReused on the card. */
  lemma ReusedOn(c1: C.State, fs: Fs, fs1: Fs, ino: nat, file: string, dir: string, now: nat, sc: C.Scratch) returns (c2: C.State, c3: C.State)
    requires Consistent(fs) && CanCreate(fs, file) && Plain(dir) && |dir| < 24 && now < WORD && CanOpen(fs, file)
    requires Find(EntriesAt(fs.disk, fs.shell.ino), FileMode, file, 0) == DENTRYS
    requires Open(fs, file, now, sc.block) == (fs1, ino) && C.Represents(c1, fs1) && Consistent(fs1)
    ensures Yields(c1, Rm(file), sc, c2) && Yields(c2, Mkdir(dir, now), sc, c3)
    ensures Ok(c3) && Directory(c3, ino)
  {
    hide Yields, Consistent, C.Represents, CanCreate, Find, EntriesAt, Plain, Directory, Open, CanOpen, Remove, Create, IsDir;
    InodeReused(fs, file, dir, now, sc.block, now, sc.block);
    c2 := Steps(c1, fs1, Rm(file), sc);
    var fs2 := Remove(fs1, FileMode, file);
    c3 := Steps(c2, fs2, Mkdir(dir, now), sc);
    DirectoryIs(c3, Create(fs2, DirMode, dir, now, sc.block), ino);
  }

  /** From any consistent card with room for a new file, the last of these calls ruins the directory just made. */
  lemma StaleDescriptor(s: State, fs: Fs, file: string, dir: string, now: nat, sc: C.Scratch) returns (run: seq<State>)
    requires C.Represents(s.fs, fs) && Consistent(fs) && CanCreate(fs, file) && s.next < F.FD_NUM
    requires Find(EntriesAt(fs.disk, fs.shell.ino), FileMode, file, 0) == DENTRYS
    requires Plain(file) && Plain(dir) && |dir| < 24 && now < WORD
    ensures IsRun(run, StaleCalls(file, dir, s.next, now), [sc, sc, sc, sc]) && run[0] == s
    ensures Ok(run[3].fs) && !Spares(run[3], StaleCalls(file, dir, s.next, now)[3]) && !Ok(run[4].fs)
  {
    hide Consistent, C.Represents, C.StepOn, CanCreate, Find, EntriesAt, Plain, Directory, Ok, C.OpenOn, Attach;
    var s1 := Opens(s, fs, file, now, sc);
    var ino := s1.fd[s.next].ino;
    var c2, c3 := ReusedOn(s1.fs, fs, Open(fs, file, now, sc.block).0, ino, file, dir, now, sc);
    DirectoryNumber(c3, ino);
    WriteBreaks(c3, ino);
    var s4 := Advance(s1, s.next, 4).(fs := Written(c3, ino, NO_ENTRY));
    run := [s, s1, s1.(fs := c2), s1.(fs := c3), s4];
    hide Do;
    var calls := StaleCalls(file, dir, s.next, now);
    assert Do(run[0], calls[0], sc) == Some(run[1]);
  }
}
