/** kernel/fs/bitmap.c: the inode bitmap, 32 flags to a word. */
module Bitmap {

  /** 0x01 << j */
  function Mask(j: nat): bv32 {
    if j == 0 then 1 else Mask(j - 1) << 1
  }

  /** w >> j */
  function Shr(w: bv32, j: nat): bv32 {
    if j == 0 then w else Shr(w >> 1, j - 1)
  }

  /** Flag j of a word; that bitmap_getbit's shift reads it is ShiftReads. */
  predicate Bit(w: bv32, j: nat) {
    w & Mask(j) != 0
  }

  /** Flag k of the whole map. */
  predicate BitAt(words: seq<bv32>, k: nat)
    requires k < 32 * |words|
  {
    Bit(words[k / 32], k % 32)
  }

  // -------------------------------------------------------------- bit by bit

  lemma TopMask()
    ensures Mask(31) == 0x80000000
  {
    assert Mask(4) == 0x10 && Mask(8) == 0x100;
    assert Mask(12) == 0x1000 && Mask(16) == 0x10000;
    assert Mask(20) == 0x100000 && Mask(24) == 0x1000000;
    assert Mask(28) == 0x10000000;
  }

  lemma {:induction false} LostBit(j: nat)
    requires j <= 31 && Mask(j) == 0
    ensures Mask(31) == 0
    decreases 31 - j
  {
    if j < 31 {
      assert Mask(j + 1) == Mask(j) << 1;
      LostBit(j + 1);
    }
  }

  /** No shift by less than 32 loses the bit. */
  lemma MaskNonzero(j: nat)
    requires j < 32
    ensures Mask(j) != 0
  {
    TopMask();
    if Mask(j) == 0 {
      LostBit(j);
    }
  }

  predicate Single(m: bv32) {
    m != 0 && m & (m - 1) == 0
  }

  lemma SingleDoubles(m: bv32)
    requires Single(m) && m << 1 != 0
    ensures Single(m << 1) && m < m << 1 && (m << 1) >> 1 == m
  {
  }

  lemma {:induction false} MaskSingle(j: nat)
    requires j < 32
    ensures Single(Mask(j))
  {
    if j != 0 {
      MaskSingle(j - 1);
      MaskNonzero(j);
      SingleDoubles(Mask(j - 1));
    }
  }

  lemma {:induction false} MasksDiffer(i: nat, j: nat)
    requires i < j < 32
    ensures Mask(i) < Mask(j)
    decreases j
  {
    MaskSingle(j - 1);
    MaskNonzero(j);
    SingleDoubles(Mask(j - 1));
    if i < j - 1 {
      MasksDiffer(i, j - 1);
    }
  }

  lemma HalfReads(w: bv32, m: bv32)
    requires (m << 1) >> 1 == m
    ensures (w >> 1) & m != 0 <==> w & (m << 1) != 0
  {
  }

  /** (w >> j) & 1 is flag j. */
  lemma {:induction false} ShiftReads(w: bv32, j: nat)
    requires j < 32
    ensures Shr(w, j) & 1 == if Bit(w, j) then 1 else 0
    decreases j
  {
    if j != 0 {
      ShiftReads(w >> 1, j - 1);
      MaskSingle(j - 1);
      MaskNonzero(j);
      SingleDoubles(Mask(j - 1));
      HalfReads(w, Mask(j - 1));
    }
  }

  /** On single bits, masking yields everything or nothing, whichever side the mask is on. */
  lemma SingleBit(w: bv32, m: bv32)
    requires Single(m)
    ensures m & w == m <==> w & m != 0
    ensures m & w == 0 <==> w & m == 0
  {
  }

  lemma SingleBitsDisjoint(m: bv32, n: bv32)
    requires Single(m) && Single(n) && m != n
    ensures m & n == 0
  {
  }

  lemma DisjointKeeps(w: bv32, m: bv32, n: bv32)
    requires m & n == 0
    ensures ((w & !m) | m) & n == w & n && ((w & !m) | 0) & n == w & n
  {
  }

  lemma OwnBit(w: bv32, m: bv32)
    requires m != 0
    ensures ((w & !m) | m) & m != 0 && ((w & !m) | 0) & m == 0
  {
  }

  /** The tests of the inner loop of bitmap_search find exactly the target bit. */
  lemma TestOne(w: bv32, j: nat)
    requires j < 32
    ensures Mask(j) & w == Mask(j) <==> Bit(w, j)
  {
    MaskSingle(j);
    SingleBit(w, Mask(j));
  }

  lemma TestZero(w: bv32, j: nat)
    requires j < 32
    ensures Mask(j) & w == 0 <==> !Bit(w, j)
  {
    MaskSingle(j);
    SingleBit(w, Mask(j));
  }

  /** ((uint32_t)(0x01 << j) & w) == (target << j) */
  predicate Hit(w: bv32, t: bool, j: nat) {
    if t then Mask(j) & w == Mask(j) else Mask(j) & w == 0
  }

  lemma HitIsBit(w: bv32, t: bool, j: nat)
    requires j < 32
    ensures Hit(w, t, j) <==> Bit(w, j) == t
  {
    if t {
      TestOne(w, j);
    } else {
      TestZero(w, j);
    }
  }

  /** A word equal to `flat` has no bit worth looking at. */
  lemma FlatWord(w: bv32, j: nat)
    requires j < 32
    ensures w == 0xffffffff ==> Bit(w, j)
    ensures w == 0 ==> !Bit(w, j)
  {
    MaskSingle(j);
    hide Mask;
  }

  /** Setting or clearing one flag of a word, as bitmap_modify writes it. */
  function WithBit(w: bv32, t: bool, j: nat): bv32
    requires j < 32
  {
    (w & !Mask(j)) | (if t then Mask(j) else 0)
  }

  lemma WithBitOwn(w: bv32, t: bool, j: nat)
    requires j < 32
    ensures Bit(WithBit(w, t, j), j) == t
  {
    MaskNonzero(j);
    OwnBit(w, Mask(j));
  }

  lemma WithBitOther(w: bv32, t: bool, j: nat, i: nat)
    requires j < 32 && i < 32 && i != j
    ensures Bit(WithBit(w, t, j), i) == Bit(w, i)
  {
    MaskSingle(i);
    MaskSingle(j);
    if i < j { MasksDiffer(i, j); } else { MasksDiffer(j, i); }
    SingleBitsDisjoint(Mask(j), Mask(i));
    DisjointKeeps(w, Mask(j), Mask(i));
  }

  // ---------------------------------------------------------------- the calls

  /** The plain search: the first index in [k, n) whose flag is `target`, or -2. */
  function Scan(words: seq<bv32>, target: bool, k: nat, n: nat): (r: int)
    requires n <= 32 * |words|
    ensures r == -2 || k <= r < n
    ensures r != -2 ==> BitAt(words, r) == target
    ensures forall i: nat :: k <= i < (if r == -2 then n else r) ==> BitAt(words, i) != target
    decreases n - k
  {
    if k >= n then -2
    else if BitAt(words, k) == target then k
    else Scan(words, target, k + 1, n)
  }

  /** A stretch without the target can be skipped. */
  lemma {:induction false} ScanSkip(words: seq<bv32>, target: bool, k: nat, m: nat, n: nat)
    requires k <= m <= n <= 32 * |words|
    requires forall i: nat :: k <= i < m ==> BitAt(words, i) != target
    ensures Scan(words, target, k, n) == Scan(words, target, m, n)
    decreases m - k
  {
    if k < m {
      ScanSkip(words, target, k + 1, m, n);
    }
  }

  lemma WordFlat(words: seq<bv32>, target: bool, i: nat)
    requires i < |words| && words[i] == if target then 0 else 0xffffffff
    ensures forall k: nat :: 32 * i <= k < 32 * i + 32 ==> BitAt(words, k) != target
  {
    forall k: nat | 32 * i <= k < 32 * i + 32
      ensures BitAt(words, k) != target
    {
      assert k / 32 == i;
      FlatWord(words[i], k % 32);
    }
  }

  /** bitmap_search: skipping whole words refines the plain scan. */
  method Search(words: array<bv32>, target: int, bound: nat) returns (r: int)
    requires bound / 32 <= words.Length
    ensures target != 0 && target != 1 ==> r == -1
    ensures target == 0 || target == 1 ==> r == Scan(words[..], target == 1, 0, bound / 32 * 32)
  {
    var flat: bv32;
    if target == 1 {
      flat := 0;
    } else if target == 0 {
      flat := 0xffffffff;
    } else {
      return -1;
    }
    ghost var t, n, ws := target == 1, bound / 32 * 32, words[..];
    var i := 0;
    while i < bound / 32
      invariant 0 <= i <= bound / 32
      invariant Scan(ws, t, 0, n) == Scan(ws, t, 32 * i, n)
    {
      if words[i] != flat {
        var j := SearchWord(words[i], target);
        SearchedWord(ws, t, i, j);
        if j < 32 {
          WordHit(ws, t, i, j, n);
          return 32 * i + j;
        }
      } else {
        WordFlat(ws, t, i);
      }
      ScanSkip(ws, t, 32 * i, 32 * i + 32, n);
      i := i + 1;
    }
    return -2;
  }

  /** The inner loop: the first flag of the word with the target value, or 32. */
  method SearchWord(w: bv32, target: int) returns (j: nat)
    requires target == 0 || target == 1
    ensures j <= 32 && forall i: nat :: i < j ==> Bit(w, i) != (target == 1)
    ensures j < 32 ==> Bit(w, j) == (target == 1)
  {
    hide Hit, Bit;
    j := 0;
    while j < 32
      invariant j <= 32 && forall i: nat :: i < j ==> Bit(w, i) != (target == 1)
    {
      HitIsBit(w, target == 1, j);
      if Hit(w, target == 1, j) {
        return;
      }
      j := j + 1;
    }
  }

  lemma SearchedWord(words: seq<bv32>, t: bool, i: nat, j: nat)
    requires i < |words| && j <= 32 && forall k: nat :: k < j ==> Bit(words[i], k) != t
    ensures forall k: nat :: 32 * i <= k < 32 * i + j ==> BitAt(words, k) != t
  {
    forall k: nat | 32 * i <= k < 32 * i + j
      ensures BitAt(words, k) != t
    {
      assert k / 32 == i && k % 32 == k - 32 * i;
      assert Bit(words[i], k - 32 * i) != t;
    }
  }

  lemma WordHit(words: seq<bv32>, t: bool, i: nat, j: nat, n: nat)
    requires 32 * i + j < n <= 32 * |words| && j < 32 && Bit(words[i], j) == t
    requires forall k: nat :: 32 * i <= k < 32 * i + j ==> BitAt(words, k) != t
    ensures Scan(words, t, 32 * i, n) == 32 * i + j
  {
    assert (32 * i + j) / 32 == i && (32 * i + j) % 32 == j;
    ScanSkip(words, t, 32 * i, 32 * i + j, n);
  }

  /** bitmap_getbit */
  method GetBit(words: array<bv32>, offset: nat) returns (r: bv32)
    requires offset < 32 * words.Length
    ensures r == if BitAt(words[..], offset) then 1 else 0
  {
    var i, j := offset / 32, offset % 32;
    ShiftReads(words[i], j);
    r := Shr(words[i], j) & 0x0001;
  }

  /** The map with flag `k` set to `t`. */
  function Modified(words: seq<bv32>, t: bool, k: nat): (r: seq<bv32>)
    requires k < 32 * |words|
    ensures |r| == |words|
  {
    words[k / 32 := WithBit(words[k / 32], t, k % 32)]
  }

  /** Exactly one flag of the map changes. */
  lemma ModifyOne(words: seq<bv32>, t: bool, offset: nat, k: nat)
    requires offset < 32 * |words| && k < 32 * |words|
    ensures BitAt(Modified(words, t, offset), k) == if k == offset then t else BitAt(words, k)
  {
    if k / 32 == offset / 32 {
      if k == offset {
        WithBitOwn(words[k / 32], t, k % 32);
      } else {
        WithBitOther(words[k / 32], t, offset % 32, k % 32);
      }
    }
  }

  /** bitmap_modify */
  method Modify(words: array<bv32>, target: int, offset: nat) returns (r: int)
    requires offset < 32 * words.Length
    modifies words
    ensures target != 0 && target != 1 ==> r == -1 && words[..] == old(words[..])
    ensures target == 0 || target == 1 ==> r == 0 && words[..] == Modified(old(words[..]), target == 1, offset)
  {
    if target != 0 && target != 1 {
      return -1;
    }
    var i, j := offset / 32, offset % 32;
    hide Mask;
    words[i] := WithBit(words[i], target == 1, j);
    hide WithBit;
    assert words[..] == Modified(old(words[..]), target == 1, offset);
    return 0;
  }
}
