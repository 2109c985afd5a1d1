/**
 kernel/mm/memory.c: demand paging with a bump allocator of frames, and the
 TLB as a cache of the page table.
 */
module Paging {
  import opened Prelude

  const PAGE_ENTRY_NUMBER: nat := 0x2000
  const TLB_ENTRY_NUMBER: nat := 32
  const PTE_VALID: nat := 0xb
  const FIRST: nat := 0xb0001000        // what the first page fault stores

  type PageTable = s: seq<nat> | |s| == PAGE_ENTRY_NUMBER witness seq(PAGE_ENTRY_NUMBER, _ => 0)

  /** An index of the TLB. */
  type TlbSlot = i: int | 0 <= i < TLB_ENTRY_NUMBER witness 0

  /** The registers written by tlbwr. */
  datatype TlbEntry = TlbEntry(hi: nat, lo0: nat, lo1: nat)

  datatype State = State(table: PageTable, count: nat, tlb: map<TlbSlot, TlbEntry>)

  function Init(): State {
    State(seq(PAGE_ENTRY_NUMBER, _ => 0), 0, map[])
  }

  predicate Valid(e: nat) {
    e / 0x10000000 == PTE_VALID
  }

  /** The frame number the hardware is given: the low 13 bits. */
  function Frame(e: nat): nat {
    e % 0x2000
  }

  /** do_page_fault */
  function PageFault(st: State, vpn: nat): State
    requires vpn < PAGE_ENTRY_NUMBER
  {
    st.(table := st.table[vpn := FIRST + st.count], count := st.count + 1)
  }

  function Fill(st: State, vpn: nat): State
    requires vpn < PAGE_ENTRY_NUMBER
  {
    if Valid(st.table[vpn]) then st else PageFault(st, vpn)
  }

  /** vpn2 << 13 | (pid & 0xff) */
  function EntryHi(vpn2: nat, pid: nat): nat {
    vpn2 * 0x2000 + pid % 0x100
  }

  /** pfn << 6 | coherency << 3 | dirt << 2 | valid << 1 | global */
  function EntryLo(pfn: nat): nat {
    pfn * 0x40 + 2 * 8 + 1 * 4 + 1 * 2 + 1
  }

  /** do_TLB_Refill; `slot` is the random index tlbwr picks. */
  function Refill(st: State, badvaddr: nat, pid: nat, slot: TlbSlot): State
    requires badvaddr / 0x1000 < PAGE_ENTRY_NUMBER
  {
    RefillPair(st, badvaddr / 0x1000 / 2, pid, slot)
  }

  function RefillPair(st: State, vpn2: nat, pid: nat, slot: TlbSlot): State
    requires vpn2 * 2 + 1 < PAGE_ENTRY_NUMBER
  {
    var st1 := Fill(Fill(st, vpn2 * 2), vpn2 * 2 + 1);
    var e := TlbEntry(EntryHi(vpn2, pid), EntryLo(Frame(st1.table[vpn2 * 2])), EntryLo(Frame(st1.table[vpn2 * 2 + 1])));
    st1.(tlb := st1.tlb[slot := e])
  }

  // ------------------------------------------------------------ register layout

  /** The fields are disjoint, so the ORs of the source are sums. */
  lemma OrsAreSums(p: bv32, v: bv32, a: bv32)
    requires p < 0x2000 && v < 0x80000 && a < 0x100
    ensures (p << 6) | ((2 as bv32) << 3) | ((1 as bv32) << 2) | ((1 as bv32) << 1) | 1 == p * 0x40 + 23
    ensures (v << 13) | a == v * 0x2000 + a
  {
  }

  /** EntryLo: PFN at bit 6, C at bits 5..3, D, V and G. */
  function LoPfn(lo: nat): nat { lo / 0x40 }
  function LoC(lo: nat): nat { lo / 8 % 8 }
  function LoD(lo: nat): nat { lo / 4 % 2 }
  function LoV(lo: nat): nat { lo / 2 % 2 }
  function LoG(lo: nat): nat { lo % 2 }

  /** EntryHi: VPN2 from bit 13, ASID in the low byte. */
  function HiVpn2(hi: nat): nat { hi / 0x2000 }
  function HiAsid(hi: nat): nat { hi % 0x100 }

  lemma LoDecodes(pfn: nat)
    ensures LoPfn(EntryLo(pfn)) == pfn
    ensures LoC(EntryLo(pfn)) == 2 && LoD(EntryLo(pfn)) == 1 && LoV(EntryLo(pfn)) == 1 && LoG(EntryLo(pfn)) == 1
  {
    assert EntryLo(pfn) / 8 == 8 * pfn + 2;
    assert EntryLo(pfn) / 4 == 16 * pfn + 5;
    assert EntryLo(pfn) / 2 == 32 * pfn + 11;
  }

  lemma HiDecodes(vpn2: nat, pid: nat)
    ensures HiVpn2(EntryHi(vpn2, pid)) == vpn2 && HiAsid(EntryHi(vpn2, pid)) == pid % 0x100
  {
  }

  // ----------------------------------------------------------------- invariant

  /** The pages that have a frame. */
  function Mapped(t: PageTable): set<nat> {
    set v: nat | v < PAGE_ENTRY_NUMBER && Valid(t[v])
  }

  ghost predicate TableOk(st: State) {
    && |Mapped(st.table)| == st.count <= PAGE_ENTRY_NUMBER
    && (forall v: nat {:trigger st.table[v]} :: v < PAGE_ENTRY_NUMBER && Valid(st.table[v]) ==>
          FIRST <= st.table[v] < FIRST + st.count)
    && (forall v: nat, w: nat {:trigger st.table[v], st.table[w]} ::
          v < w < PAGE_ENTRY_NUMBER && Valid(st.table[v]) && Valid(st.table[w]) ==> st.table[v] != st.table[w])
    && (forall c: nat {:trigger Owned(st.table, c)} :: c < st.count ==> Owned(st.table, c))
  }

  /** Some page has the frame handed out by fault number c. */
  ghost predicate Owned(t: PageTable, c: nat) {
    exists v: nat :: v < PAGE_ENTRY_NUMBER && t[v] == FIRST + c
  }

  function Below(n: nat): (s: set<nat>)
    ensures |s| == n && forall v: nat :: v in s <==> v < n
  {
    if n == 0 then {} else Below(n - 1) + {n - 1}
  }

  lemma SubsetCard(a: set<nat>, b: set<nat>)
    requires a <= b
    ensures |a| <= |b|
    decreases a
  {
    if a != {} {
      var x :| x in a;
      SubsetCard(a - {x}, b - {x});
    }
  }

  lemma MappedBound(t: PageTable)
    ensures |Mapped(t)| <= PAGE_ENTRY_NUMBER
  {
    SubsetCard(Mapped(t), Below(PAGE_ENTRY_NUMBER));
  }

  lemma FreshIsValid(count: nat)
    requires count <= PAGE_ENTRY_NUMBER
    ensures Valid(FIRST + count)
  {
  }

  lemma FaultKeeps(st: State, vpn: nat)
    requires TableOk(st) && vpn < PAGE_ENTRY_NUMBER && !Valid(st.table[vpn])
    ensures TableOk(PageFault(st, vpn))
  {
    var r := PageFault(st, vpn);
    FreshIsValid(st.count);
    assert Mapped(r.table) == Mapped(st.table) + {vpn};
    MappedBound(r.table);
    forall c: nat | c < r.count
      ensures Owned(r.table, c)
    {
      if c == st.count {
        assert r.table[vpn] == FIRST + c;
      } else {
        assert Owned(st.table, c);
        var v: nat :| v < PAGE_ENTRY_NUMBER && st.table[v] == FIRST + c;
        FreshIsValid(c);
        assert r.table[v] == FIRST + c;
      }
    }
  }

  /** Every page mapped before keeps its entry. */
  ghost predicate Extends(t: PageTable, t': PageTable) {
    forall v: nat {:trigger t[v]} {:trigger t'[v]} :: v < PAGE_ENTRY_NUMBER && Valid(t[v]) ==> t'[v] == t[v]
  }

  lemma FillKeeps(st: State, vpn: nat)
    requires TableOk(st) && vpn < PAGE_ENTRY_NUMBER
    ensures TableOk(Fill(st, vpn)) && Extends(st.table, Fill(st, vpn).table) && Valid(Fill(st, vpn).table[vpn])
  {
    if !Valid(st.table[vpn]) {
      FaultKeeps(st, vpn);
      FreshIsValid(st.count);
    }
  }

  /** A TLB entry decodes to the current page-table pair of its virtual page number. */
  ghost predicate EntryOk(t: PageTable, e: TlbEntry) {
    var v := HiVpn2(e.hi) * 2;
    && v + 1 < PAGE_ENTRY_NUMBER && Valid(t[v]) && Valid(t[v + 1])
    && LoPfn(e.lo0) == Frame(t[v]) && LoPfn(e.lo1) == Frame(t[v + 1])
    && LoV(e.lo0) == 1 && LoV(e.lo1) == 1 && LoG(e.lo0) == 1 && LoG(e.lo1) == 1
    && LoC(e.lo0) == 2 && LoC(e.lo1) == 2 && LoD(e.lo0) == 1 && LoD(e.lo1) == 1
  }

  ghost predicate Ok(st: State) {
    TableOk(st) && forall s: TlbSlot {:trigger s in st.tlb} :: s in st.tlb ==> EntryOk(st.table, st.tlb[s])
  }

  lemma EntryStays(t: PageTable, t': PageTable, e: TlbEntry)
    requires EntryOk(t, e) && Extends(t, t')
    ensures EntryOk(t', e)
  {
    var v := HiVpn2(e.hi) * 2;
    assert t'[v] == t[v] && t'[v + 1] == t[v + 1];
  }

  lemma NewEntryOk(t: PageTable, vpn2: nat, pid: nat)
    requires vpn2 * 2 + 1 < PAGE_ENTRY_NUMBER && Valid(t[vpn2 * 2]) && Valid(t[vpn2 * 2 + 1])
    ensures EntryOk(t, TlbEntry(EntryHi(vpn2, pid), EntryLo(Frame(t[vpn2 * 2])), EntryLo(Frame(t[vpn2 * 2 + 1]))))
  {
    HiDecodes(vpn2, pid);
    LoDecodes(Frame(t[vpn2 * 2]));
    LoDecodes(Frame(t[vpn2 * 2 + 1]));
    hide EntryHi, EntryLo, HiVpn2, LoPfn, LoV, LoG, LoC, LoD, Frame, Valid;
  }

  lemma FillPair(st: State, vpn2: nat)
    requires TableOk(st) && vpn2 * 2 + 1 < PAGE_ENTRY_NUMBER
    ensures var r := Fill(Fill(st, vpn2 * 2), vpn2 * 2 + 1);
      && TableOk(r) && Extends(st.table, r.table) && r.tlb == st.tlb
      && Valid(r.table[vpn2 * 2]) && Valid(r.table[vpn2 * 2 + 1])
  {
    FillKeeps(st, vpn2 * 2);
    FillKeeps(Fill(st, vpn2 * 2), vpn2 * 2 + 1);
  }

  lemma PairKeeps(st: State, vpn2: nat, pid: nat, slot: TlbSlot)
    requires Ok(st) && vpn2 * 2 + 1 < PAGE_ENTRY_NUMBER
    ensures var r := RefillPair(st, vpn2, pid, slot);
      && Ok(r) && Extends(st.table, r.table) && Valid(r.table[vpn2 * 2]) && Valid(r.table[vpn2 * 2 + 1])
      && slot in r.tlb && HiVpn2(r.tlb[slot].hi) == vpn2 && HiAsid(r.tlb[slot].hi) == pid % 0x100
      && r.tlb == st.tlb[slot := r.tlb[slot]]
  {
    var st2 := Fill(Fill(st, vpn2 * 2), vpn2 * 2 + 1);
    FillPair(st, vpn2);
    NewEntryOk(st2.table, vpn2, pid);
    HiDecodes(vpn2, pid);
    hide TableOk, Fill, EntryOk, EntryHi, EntryLo, HiVpn2, HiAsid, Frame, Valid;
    forall s: TlbSlot | s in st.tlb
      ensures EntryOk(st2.table, st.tlb[s])
    {
      EntryStays(st.table, st2.table, st.tlb[s]);
    }
    var r := RefillPair(st, vpn2, pid, slot);
    assert TableOk(r) by { TableFrame(st2, r); }
  }

  lemma TableFrame(st: State, r: State)
    requires TableOk(st) && r.table == st.table && r.count == st.count
    ensures TableOk(r)
  {
  }

  /**
   A refill keeps the invariant, changes no mapping and maps the faulting page;
   it puts the pair into one TLB slot, under the pid, and leaves the others alone.
   */
  lemma RefillKeeps(st: State, badvaddr: nat, pid: nat, slot: TlbSlot)
    requires Ok(st) && badvaddr / 0x1000 < PAGE_ENTRY_NUMBER
    ensures var r := Refill(st, badvaddr, pid, slot);
      && Ok(r) && Extends(st.table, r.table) && Valid(r.table[badvaddr / 0x1000])
      && slot in r.tlb && HiVpn2(r.tlb[slot].hi) == badvaddr / 0x1000 / 2 && HiAsid(r.tlb[slot].hi) == pid % 0x100
      && r.tlb == st.tlb[slot := r.tlb[slot]]
  {
    var vpn := badvaddr / 0x1000;
    var vpn2 := vpn / 2;
    assert vpn == vpn2 * 2 || vpn == vpn2 * 2 + 1;
    PairKeeps(st, vpn2, pid, slot);
    hide Ok, RefillPair, HiVpn2, HiAsid, Valid;
  }

  // ---------------------------------------------------------------------- runs

  datatype Access = Access(badvaddr: nat, pid: nat, slot: TlbSlot)

  ghost predicate IsRun(run: seq<State>, accesses: seq<Access>) {
    && |run| == |accesses| + 1 && run[0] == Init()
    && forall i :: 0 <= i < |accesses| ==> Follows(run[i], accesses[i], run[i + 1])
  }

  ghost predicate Follows(st: State, a: Access, r: State) {
    a.badvaddr / 0x1000 < PAGE_ENTRY_NUMBER && r == Refill(st, a.badvaddr, a.pid, a.slot)
  }

  lemma InitOk()
    ensures Ok(Init())
  {
    assert Mapped(Init().table) == {};
  }

  lemma {:induction false} RunOk(run: seq<State>, accesses: seq<Access>, n: nat)
    requires IsRun(run, accesses) && n <= |accesses|
    ensures Ok(run[n])
  {
    if n == 0 {
      InitOk();
    } else {
      RunOk(run, accesses, n - 1);
      var a := accesses[n - 1];
      assert Follows(run[n - 1], a, run[n - 1 + 1]);
      RefillKeeps(run[n - 1], a.badvaddr, a.pid, a.slot);
    }
  }

  /** In every run distinct pages have distinct frames, whatever the number of faults. */
  lemma FramesDistinct(run: seq<State>, accesses: seq<Access>, n: nat, v: nat, w: nat)
    requires IsRun(run, accesses) && n <= |accesses|
    requires v < w < PAGE_ENTRY_NUMBER && Valid(run[n].table[v]) && Valid(run[n].table[w])
    ensures Frame(run[n].table[v]) != Frame(run[n].table[w])
  {
    RunOk(run, accesses, n);
    NearbyDiffer(run[n].table[v] - FIRST, run[n].table[w] - FIRST);
  }

  lemma NearbyDiffer(a: nat, b: nat)
    requires a < 0x2000 && b < 0x2000 && a != b
    ensures (FIRST + a) % 0x2000 != (FIRST + b) % 0x2000
  {
    assert FIRST == 0x2000 * 0x58000 + 0x1000;
    assert (FIRST + a) % 0x2000 == (0x1000 + a) % 0x2000;
    assert (FIRST + b) % 0x2000 == (0x1000 + b) % 0x2000;
  }

  /** A mapping never changes once it is valid. */
  lemma {:induction false} MappingsStay(run: seq<State>, accesses: seq<Access>, m: nat, n: nat, v: nat)
    requires IsRun(run, accesses) && m <= n <= |accesses| && v < PAGE_ENTRY_NUMBER && Valid(run[m].table[v])
    ensures run[n].table[v] == run[m].table[v]
    decreases n
  {
    if m < n {
      MappingsStay(run, accesses, m, n - 1, v);
      RunOk(run, accesses, n - 1);
      var a := accesses[n - 1];
      assert Follows(run[n - 1], a, run[n - 1 + 1]);
      RefillKeeps(run[n - 1], a.badvaddr, a.pid, a.slot);
    }
  }

  /** Where virtual page v is, by the TLB entry in slot s and by the page table. */
  lemma TlbAgrees(run: seq<State>, accesses: seq<Access>, n: nat, s: TlbSlot, v: nat)
    requires IsRun(run, accesses) && n <= |accesses| && s in run[n].tlb && HiVpn2(run[n].tlb[s].hi) == v / 2
    ensures v < PAGE_ENTRY_NUMBER
    ensures LoPfn(if v % 2 == 0 then run[n].tlb[s].lo0 else run[n].tlb[s].lo1) == Frame(run[n].table[v])
  {
    RunOk(run, accesses, n);
  }

  /** All frames lie in the upper 16 MB exactly while there were at most 4096 faults. */
  lemma UpperFramesIff(run: seq<State>, accesses: seq<Access>, n: nat)
    requires IsRun(run, accesses) && n <= |accesses|
    ensures (forall v: nat :: v < PAGE_ENTRY_NUMBER && Valid(run[n].table[v]) ==> Frame(run[n].table[v]) >= 0x1000)
      <==> run[n].count <= 0x1000
  {
    RunOk(run, accesses, n);
    var st := run[n];
    if st.count <= 0x1000 {
      forall v: nat | v < PAGE_ENTRY_NUMBER && Valid(st.table[v])
        ensures Frame(st.table[v]) >= 0x1000
      {
        assert FIRST == 0x2000 * 0x58000 + 0x1000;
      }
    } else {
      assert Owned(st.table, 0x1000);
      var v: nat :| v < PAGE_ENTRY_NUMBER && st.table[v] == FIRST + 0x1000;
      FreshIsValid(0x1000);
      assert Frame(st.table[v]) == 0;
    }
  }

  // ---------------------------------------------------------------- in place

  /** The page table, the static counter and the TLB as the source updates them. */
  class Mmu {
    const page: array<nat>
    var count: nat
    var tlb: map<TlbSlot, TlbEntry>

    ghost predicate Valid'()
      reads this
    {
      page.Length == PAGE_ENTRY_NUMBER
    }

    ghost function Abs(): State
      reads this, page
      requires Valid'()
    {
      State(page[..], count, tlb)
    }

    /** init_page_table */
    constructor ()
      ensures Valid'() && fresh(page) && Abs() == Init()
    {
      page := new nat[PAGE_ENTRY_NUMBER](_ => 0);
      count, tlb := 0, map[];
      new;
      assert page[..] == Init().table;
    }

    method DoPageFault(vpn: nat)
      requires Valid'() && vpn < PAGE_ENTRY_NUMBER
      modifies page, `count
      ensures Abs() == PageFault(old(Abs()), vpn)
    {
      page[vpn] := 0xb0001000 + count;
      count := count + 1;
    }

    method DoTlbRefill(badvaddr: nat, pid: nat, slot: TlbSlot)
      requires Valid'() && badvaddr / 0x1000 < PAGE_ENTRY_NUMBER
      modifies this, page
      ensures Abs() == Refill(old(Abs()), badvaddr, pid, slot)
    {
      var vpn := badvaddr / 0x1000;
      var vpn2 := vpn / 2;
      if page[vpn2 * 2] / 0x10000000 != PTE_VALID {
        DoPageFault(vpn2 * 2);
      }
      if page[vpn2 * 2 + 1] / 0x10000000 != PTE_VALID {
        DoPageFault(vpn2 * 2 + 1);
      }
      var pfn0, pfn1 := page[vpn2 * 2] % 0x2000, page[vpn2 * 2 + 1] % 0x2000;
      tlb := tlb[slot := TlbEntry(EntryHi(vpn2, pid), EntryLo(pfn0), EntryLo(pfn1))];
    }
  }
}
