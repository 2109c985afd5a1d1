/**
 What one scheduler call does to the ready queue (kernel/sched/sched.c:57-83):
 who is selected, who is passed over, and how far everybody else moves up.
 */
module Fairness {
  import opened Prelude
  import opened KernelState
  import opened Scheduler
  import opened Linkage
  import opened Mutexes
  import opened Syscalls
  import opened Invariant
  import opened Steps

  // ---------------------------------------------------------------- selection

  function Eligibles(st: State): set<Slot> {
    set p: Slot | 0 <= p < NUM_MAX_TASK && Eligible(st, p)
  }

  /** What passing over the entries of `s` appends to the ready queue, in order. */
  function Passed(st: State, s: seq<Slot>): seq<Slot> {
    if s == [] then []
    else (if st.pcb[s[0]].status == Sleeping then [s[0]] else WokenByReap(st, s[0])) + Passed(st, s[1..])
  }

  lemma {:induction false} PassedFrame(st: State, r: State, s: seq<Slot>)
    requires forall p {:trigger p in s} :: p in s ==>
      && (r.pcb[p].status == Sleeping <==> st.pcb[p].status == Sleeping)
      && WokenByReap(r, p) == WokenByReap(st, p)
    ensures Passed(r, s) == Passed(st, s)
  {
    if s != [] {
      assert forall p :: p in s[1..] ==> p in s;
      assert s[0] in s;
      PassedFrame(st, r, s[1..]);
    }
  }

  /** A turn leaves everyone else in the ready queue as it was. */
  lemma TurnOthers(st: State, p: Slot)
    requires Linked(st, -1) && Owners(st) && st.ready != [] && !Eligible(st, st.ready[0])
    requires p in st.ready[1..]
    ensures p != st.ready[0] && Turn(st).pcb[p] == st.pcb[p] && Turn(st).time == st.time
    ensures WokenByReap(Turn(st), p) == WokenByReap(st, p)
  {
    var h := st.ready[0];
    NoDupTail(st.ready);
    assert p in st.ready;
    if st.pcb[h].status == Exited {
      var st0 := Pop(st);
      ReapSpec(st0);
      LinkedPop(st);
      HeldQueuesOk(st0, h, st.pcb[h].holding);
      ReapOthers(st0, Reap(st0), p);
    }
  }

  lemma ReapOthers(st: State, r: State, p: Slot)
    requires Owners(st) && p != st.cur && p !in WokenByReap(st, st.cur)
    requires Wakes(st, r, WokenByReap(st, st.cur)) && Reaped(st, r, LockSet(st.pcb[st.cur].holding))
    ensures r.pcb[p] == st.pcb[p] && WokenByReap(r, p) == WokenByReap(st, p)
  {
    assert r.pcb[p].(holding := st.pcb[p].holding) == st.pcb[p];
    forall l | l in st.pcb[p].holding
      ensures Q(r.queues, LockQ(l)) == Q(st.queues, LockQ(l))
    {
      assert l !in st.pcb[st.cur].holding;
    }
    HeldQueuesFrame(r.queues, st.queues, st.pcb[p].holding);
  }

  lemma TurnReady(st: State)
    requires Linked(st, -1) && st.ready != [] && !Eligible(st, st.ready[0])
    ensures Turn(st).ready == st.ready[1..] + Passed(st, [st.ready[0]])
  {
    assert st.ready[0] in st.ready;
    assert Passed(st, [st.ready[0]][1..]) == [];
    ReapSpec(Pop(st));
  }

  lemma PassedCons(st: State, s: seq<Slot>)
    requires s != []
    ensures Passed(st, s) == Passed(st, [s[0]]) + Passed(st, s[1..])
  {
    assert Passed(st, [s[0]][1..]) == [];
  }

  /** The entries after the head, and whether they are eligible, survive a turn. */
  lemma TurnTail(st: State, j: nat)
    requires Linked(st, -1) && Owners(st) && j + 1 < |st.ready| && !Eligible(st, st.ready[0])
    ensures j < |Turn(st).ready| && Turn(st).ready[j] == st.ready[j + 1]
    ensures Turn(st).pcb[st.ready[j + 1]] == st.pcb[st.ready[j + 1]] && Turn(st).time == st.time
    ensures Eligible(Turn(st), st.ready[j + 1]) == Eligible(st, st.ready[j + 1])
  {
    TurnReady(st);
    assert st.ready[j + 1] == st.ready[1..][j];
    TurnOthers(st, st.ready[j + 1]);
  }

  /** A turn moves the first eligible entry one place up and keeps what is between. */
  lemma TurnShifts(st: State, k: nat)
    requires Linked(st, -1) && Owners(st)
    requires 0 < k < |st.ready| && k == FirstIn(Eligibles(st), st.ready)
    ensures !Eligible(st, st.ready[0]) && k - 1 < |Turn(st).ready|
    ensures forall j :: 0 <= j < k ==> Turn(st).ready[j] == st.ready[j + 1]
    ensures k - 1 == FirstIn(Eligibles(Turn(st)), Turn(st).ready)
    ensures Turn(st).ready[k..] == st.ready[k + 1..] + Passed(st, [st.ready[0]])
    ensures Turn(st).pcb[st.ready[k]] == st.pcb[st.ready[k]] && Turn(st).time == st.time
  {
    hide Linked, Owners, Turn, Passed, Eligible;
    HeadNot(st, k);
    TurnReady(st);
    var t := Turn(st).ready;
    forall j | 0 <= j < k
      ensures j < |t| && t[j] == st.ready[j + 1] && (t[j] in Eligibles(Turn(st)) <==> t[j] in Eligibles(st))
    {
      TurnTail(st, j);
    }
    TurnTail(st, k - 1);
    FirstMoves(Eligibles(st), Eligibles(Turn(st)), st.ready, t, k);
    RestShifts(st.ready, Passed(st, [st.ready[0]]), t, k);
  }

  /** The head is not eligible when the first eligible entry is further back. */
  lemma HeadNot(st: State, k: nat)
    requires 0 < k < |st.ready| && k == FirstIn(Eligibles(st), st.ready)
    ensures !Eligible(st, st.ready[0]) && Eligible(st, st.ready[k])
  {
    hide Eligible;
    assert st.ready[0] !in Eligibles(st) && st.ready[k] in Eligibles(st);
  }

  lemma RestShifts(s: seq<Slot>, extra: seq<Slot>, t: seq<Slot>, k: nat)
    requires 0 < k < |s| && t == s[1..] + extra
    ensures t[k..] == s[k + 1..] + extra
  {
  }

  lemma FirstMoves(w: set<Slot>, w': set<Slot>, s: seq<Slot>, t: seq<Slot>, k: nat)
    requires 0 < k < |s| && k == FirstIn(w, s) && k <= |t|
    requires forall j {:trigger t[j]} :: 0 <= j < k ==> t[j] == s[j + 1] && (t[j] in w' <==> t[j] in w)
    ensures FirstIn(w', t) == k - 1
  {
    assert t[k - 1] == s[k];
    assert forall j :: 0 <= j < k - 1 ==> t[j] == s[j + 1];
  }

  lemma TurnPasses(st: State, s: seq<Slot>)
    requires Linked(st, -1) && Owners(st) && st.ready != [] && !Eligible(st, st.ready[0])
    requires forall p :: p in s ==> p in st.ready[1..]
    ensures Passed(Turn(st), s) == Passed(st, s)
  {
    forall p | p in s
      ensures Turn(st).pcb[p] == st.pcb[p] && WokenByReap(Turn(st), p) == WokenByReap(st, p)
    {
      TurnOthers(st, p);
    }
    PassedFrame(st, Turn(st), s);
  }

  /** `st1` is `st` with its ready queue one turn on, the eligible entry now at k - 1. */
  ghost predicate Shifted(st: State, st1: State, k: nat) {
    && 0 < k < |st.ready| && k <= |st1.ready|
    && st1.ready[..k] == st.ready[1..k + 1]
    && st1.ready[k..] == st.ready[k + 1..] + Passed(st, [st.ready[0]])
    && Passed(st1, st.ready[1..k]) == Passed(st, st.ready[1..k])
    && st1.pcb[st.ready[k]] == st.pcb[st.ready[k]] && st1.time == st.time
  }

  lemma TurnShifted(st: State, k: nat)
    requires Linked(st, -1) && Owners(st)
    requires 0 < k < |st.ready| && k == FirstIn(Eligibles(st), st.ready)
    ensures !Eligible(st, st.ready[0])
    ensures Shifted(st, Turn(st), k) && k - 1 == FirstIn(Eligibles(Turn(st)), Turn(st).ready)
  {
    TurnShifts(st, k);
    TurnPasses(st, st.ready[1..k]);
  }

  lemma ShiftedHead(st: State, st1: State, k: nat)
    requires Shifted(st, st1, k)
    ensures 0 < k <= |st1.ready| && st1.ready[k - 1] == st.ready[k] && st1.pcb[st.ready[k]] == st.pcb[st.ready[k]] && st1.time == st.time
  {
    SeqShift(st.ready, st1.ready, k);
  }

  lemma SelectsStep(st: State, st1: State, r: State, k: nat)
    requires Shifted(st, st1, k)
    requires r.cur == st1.ready[k - 1]
    requires r.ready == st1.ready[k..] + Passed(st1, st1.ready[..k - 1])
    ensures r.cur == st.ready[k] && r.ready == st.ready[k + 1..] + Passed(st, st.ready[..k])
  {
    SeqShift(st.ready, st1.ready, k);
    PassedCons(st, st.ready[..k]);
    Assoc(st.ready[k + 1..], Passed(st, [st.ready[0]]), Passed(st, st.ready[1..k]));
  }

  lemma SeqShift(s: seq<Slot>, t: seq<Slot>, k: nat)
    requires 0 < k < |s| && k <= |t| && t[..k] == s[1..k + 1]
    ensures t[k - 1] == s[k] && t[..k - 1] == s[1..k] && s[..k][1..] == s[1..k] && s[..k][0] == s[0]
  {
    assert t[..k][k - 1] == s[1..k + 1][k - 1];
    assert t[..k - 1] == t[..k][..k - 1];
    assert s[1..k] == s[1..k + 1][..k - 1];
  }

  lemma Assoc(a: seq<Slot>, b: seq<Slot>, c: seq<Slot>)
    ensures (a + b) + c == a + (b + c)
  {
  }

  /**
   The loop picks exactly the first eligible entry; the sleepers before it and
   the processes woken by reaping the dead before it follow the rest, in order.
   */
  lemma {:induction false} DispatchSelects(st: State, k: nat)
    requires Linked(st, -1) && Owners(st) && HasWork(st)
    requires k < |st.ready| && k == FirstIn(Eligibles(st), st.ready)
    ensures Dispatch(st).cur == st.ready[k]
    ensures Dispatch(st).ready == st.ready[k + 1..] + Passed(st, st.ready[..k])
    ensures st.pcb[st.ready[k]].status == Sleeping ==> st.pcb[st.ready[k]].sleepEnd <= st.time
    decreases k
  {
    assert st.ready[k] in Eligibles(st) && Eligible(st, st.ready[k]);
    if k != 0 {
      hide Linked, Owners, Turn, Shifted, HasWork, Eligible, FirstIn;
      TurnShifted(st, k);
      TurnProgress(st);
      TurnKeepsOwners(st);
      ShiftedHead(st, Turn(st), k);
      DispatchSelects(Turn(st), k - 1);
      SelectsStep(st, Turn(st), Dispatch(Turn(st)), k);
    } else {
      assert st.ready[..0] == [];
    }
  }

  lemma TurnKeepsOwners(st: State)
    requires Linked(st, -1) && Owners(st) && st.ready != [] && !Eligible(st, st.ready[0])
    ensures Linked(Turn(st), -1) && Owners(Turn(st))
  {
    LinkedTurn(st);
    OwnersTurn(st);
  }

  // ----------------------------------------------------------------- progress

  ghost predicate At(st: State, p: Slot, k: nat) {
    k < |st.ready| && st.ready[k] == p
  }

  /** An entry that the loop does not put back at the end. */
  predicate Steady(st: State, p: Slot) {
    Eligible(st, p) || st.pcb[p].status == Exited
  }

  /**
   A scheduler call dispatches (or, if it is dead, reaps) a process of the
   ready queue, or brings it at least one place nearer to the head.
   */
  lemma {:induction false} DispatchProgress(st: State, p: Slot, k: nat) returns (k': nat)
    requires Linked(st, -1) && Owners(st) && HasWork(st) && At(st, p, k) && Steady(st, p)
    ensures var r := Dispatch(st);
      || (r.cur == p && st.pcb[p].status != Exited)
      || (r.cur != p && p !in r.ready && st.pcb[p].status == Exited && r.pcb[p].status == Exited)
      || (k' < k && At(r, p, k') && r.pcb[p].status == st.pcb[p].status && r.pcb[p].sleepEnd == st.pcb[p].sleepEnd)
    decreases CountIn(Departing(st), st.ready), FirstIn(Workers(st), st.ready)
  {
    k' := 0;
    if Eligible(st, st.ready[0]) {
      if k != 0 {
        assert st.ready[0] != st.ready[k];
        assert Dispatch(st).ready[k - 1] == p;
        k' := k - 1;
      }
    } else {
      TurnProgress(st);
      TurnKeepsOwners(st);
      if k == 0 {
        HeadGoes(st);
        GoneStays(Turn(st), p);
      } else {
        TurnTail(st, k - 1);
        k' := DispatchProgress(Turn(st), p, k - 1);
      }
    }
  }

  /** A dead head is out of the queue after its turn. */
  lemma HeadGoes(st: State)
    requires Linked(st, -1) && st.ready != [] && st.pcb[st.ready[0]].status == Exited
    ensures st.ready[0] !in Turn(st).ready && Turn(st).pcb[st.ready[0]].status == Exited
  {
    var p := st.ready[0];
    LinkedPop(st);
    ReapSpec(Pop(st));
    HeldQueuesOk(Pop(st), p, st.pcb[p].holding);
  }

  lemma OwnersTurn(st: State)
    requires Linked(st, -1) && Owners(st) && st.ready != [] && !Eligible(st, st.ready[0])
    ensures Owners(Turn(st))
  {
    if st.pcb[st.ready[0]].status == Exited {
      var st0 := Pop(st);
      SameOwners(st, st0);
      ReapSpec(st0);
      ReapedOwners(st0, Reap(st0), LockSet(st0.pcb[st0.cur].holding));
    } else {
      SameOwners(st, Turn(st));
    }
  }

  lemma ReapedOwners(st: State, r: State, gone: set<LockId>)
    requires Owners(st) && Reaped(st, r, gone) && gone == LockSet(st.pcb[st.cur].holding)
    ensures Owners(r)
  {
    forall l | l in r.locked
      ensures exists p: Slot :: l in r.pcb[p].holding
    {
      var p: Slot :| l in st.pcb[p].holding;
      assert l in r.pcb[p].holding;
    }
  }

  /** A dead process that has left the ready queue does not come back. */
  lemma {:induction false} GoneStays(st: State, p: Slot)
    requires Linked(st, -1) && HasWork(st) && p !in st.ready && st.pcb[p].status == Exited
    ensures Dispatch(st).cur != p && p !in Dispatch(st).ready && Dispatch(st).pcb[p].status == Exited
    decreases CountIn(Departing(st), st.ready), FirstIn(Workers(st), st.ready)
  {
    assert st.ready[0] in st.ready;
    if !Eligible(st, st.ready[0]) {
      TurnProgress(st);
      LinkedTurn(st);
      GoneTurn(st, p);
      GoneStays(Turn(st), p);
    }
  }

  lemma GoneTurn(st: State, p: Slot)
    requires Linked(st, -1) && st.ready != [] && !Eligible(st, st.ready[0])
    requires p !in st.ready && st.pcb[p].status == Exited
    ensures p !in Turn(st).ready && Turn(st).pcb[p].status == Exited
  {
    UntouchedTurn(st);
    assert st.ready[0] in st.ready;
    LinkedPop(st);
    ReapSpec(Pop(st));
    HeldQueuesOk(Pop(st), st.ready[0], st.pcb[st.ready[0]].holding);
  }
}
