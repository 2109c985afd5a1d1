/** When the dispatch loop of kernel/sched/sched.c ends, and when it cannot. */
module DispatchLoop {
  import opened Prelude
  import opened KernelState
  import opened Scheduler

  /** The loop after some turns: still going, done, or dequeuing from an empty queue. */
  datatype Loop = Going(st: State) | Done(st: State) | Crashed

  function Iterate(st: State, n: nat): Loop
    decreases n
  {
    if n == 0 then Going(st)
    else if st.ready == [] then Crashed
    else if Eligible(st, st.ready[0]) then Done(Switch(st))
    else Iterate(Turn(st), n - 1)
  }

  /** With work in the queue the loop ends, and ends in Dispatch. */
  lemma {:induction false} WorkEnds(st: State) returns (n: nat)
    requires HasWork(st)
    ensures Iterate(st, n) == Done(Dispatch(st))
    decreases CountIn(Departing(st), st.ready), FirstIn(Workers(st), st.ready)
  {
    if Eligible(st, st.ready[0]) {
      n := 1;
    } else {
      TurnProgress(st);
      hide Turn, CountIn, FirstIn, Workers, Departing, HasWork;
      var m := WorkEnds(Turn(st));
      n := m + 1;
    }
  }

  /** Without work a turn changes nobody's prospects. */
  lemma TurnIdle(st: State)
    requires st.ready != [] && !HasWork(st)
    ensures !Eligible(st, st.ready[0])
    ensures !HasWork(Turn(st))
    ensures forall p: Slot :: Turn(st).pcb[p].status == st.pcb[p].status
    ensures Turn(st).ready == st.ready[1..] + (if st.pcb[st.ready[0]].status == Sleeping then [st.ready[0]] else [])
  {
    assert !Work(st, st.ready[0]);
    var st0, r := Pop(st), Turn(st);
    if st.pcb[st0.cur].status == Exited {
      ReapSpec(st0);
      IdleReap(st, st0, r);
    } else {
      WorkersFrame(st, r);
      forall i | 0 <= i < |r.ready|
        ensures !Work(r, r.ready[i])
      {
        assert r.ready[i] == if i < |st.ready| - 1 then st.ready[i + 1] else st.ready[0];
        assert r.ready[i] !in Workers(st);
      }
    }
  }

  lemma IdleReap(st: State, st0: State, r: State)
    requires st.ready != [] && st0 == Pop(st) && !HasWork(st)
    requires Wakes(st0, r, []) && SameRest(st0, r)
    requires WokenByReap(st, st0.cur) == []
    requires Reaped(st0, r, LockSet(st.pcb[st0.cur].holding))
    ensures !HasWork(r) && r.ready == st.ready[1..]
    ensures forall p: Slot :: r.pcb[p].status == st.pcb[p].status
  {
    NothingHeld(st.queues, st.pcb[st0.cur].holding);
    SameQueues(st, st0, r);
    forall i | 0 <= i < |r.ready|
      ensures !Work(r, r.ready[i])
    {
      assert r.ready[i] == st.ready[i + 1];
      assert !Work(st, st.ready[i + 1]);
      IdleEntry(st, st0, r, r.ready[i]);
    }
  }

  lemma SameQueues(st: State, st0: State, r: State)
    requires st.ready != [] && st0 == Pop(st)
    requires Reaped(st0, r, LockSet(st.pcb[st0.cur].holding))
    requires Q(st.queues, Waiting(st0.cur)) == []
    requires forall l :: l in st.pcb[st0.cur].holding ==> Q(st.queues, LockQ(l)) == []
    ensures forall q {:trigger Q(r.queues, q)} :: Q(r.queues, q) == Q(st.queues, q)
  {
  }

  lemma IdleEntry(st: State, st0: State, r: State, p: Slot)
    requires st.ready != [] && st0 == Pop(st) && !Work(st, p)
    requires Wakes(st0, r, []) && SameRest(st0, r)
    requires r.pcb[p].holding == if p == st0.cur then [] else st.pcb[p].holding
    requires forall q {:trigger Q(r.queues, q)} :: Q(r.queues, q) == Q(st.queues, q)
    ensures !Work(r, p)
  {
    assert r.pcb[p].(holding := st.pcb[p].holding) == st.pcb[p];
    HeldQueuesFrame(st.queues, r.queues, r.pcb[p].holding);
  }

  /** Without work no number of turns ends the loop. */
  lemma {:induction false} IdleNeverEnds(st: State, n: nat)
    requires !HasWork(st)
    ensures !Iterate(st, n).Done?
    decreases n
  {
    if n != 0 && st.ready != [] {
      TurnIdle(st);
      IdleNeverEnds(Turn(st), n - 1);
    }
  }

  /** The do-while loop of scheduler() ends exactly when the ready queue holds work. */
  lemma LoopEndsIffWork(st: State)
    ensures (exists n: nat :: Iterate(st, n).Done?) <==> HasWork(st)
  {
    if HasWork(st) {
      var n := WorkEnds(st);
      assert Iterate(st, n).Done?;
    } else {
      forall n: nat
        ensures !Iterate(st, n).Done?
      {
        IdleNeverEnds(st, n);
      }
    }
  }

  /** Nobody in the ready queue is asleep. */
  predicate NoSleeper(st: State) {
    forall p :: p in st.ready ==> st.pcb[p].status != Sleeping
  }

  lemma {:induction false} IdleDrains(st: State) returns (n: nat)
    requires !HasWork(st) && NoSleeper(st)
    ensures Iterate(st, n).Crashed?
    decreases |st.ready|
  {
    if st.ready == [] {
      n := 1;
    } else {
      TurnIdle(st);
      assert st.ready[0] in st.ready;
      var m := IdleDrains(Turn(st));
      n := m + 1;
    }
  }

  lemma {:induction false} SleeperSpins(st: State, p: Slot, n: nat)
    requires !HasWork(st) && p in st.ready && st.pcb[p].status == Sleeping
    ensures Iterate(st, n).Going?
    decreases n
  {
    if n != 0 {
      TurnIdle(st);
      var st1 := Turn(st);
      var i :| 0 <= i < |st.ready| && st.ready[i] == p;
      assert st1.ready[if i == 0 then |st.ready| - 1 else i - 1] == p;
      SleeperSpins(st1, p, n - 1);
    }
  }

  /**
   The loop dequeues from an empty queue exactly when there is neither work
   nor a sleeper; with a sleeper and no work it turns for ever, because the
   clock does not advance inside it.
   */
  lemma LoopCrashesIffDrained(st: State)
    ensures (exists n: nat :: Iterate(st, n).Crashed?) <==> !HasWork(st) && NoSleeper(st)
  {
    if HasWork(st) {
      var m := WorkEnds(st);
      forall n: nat
        ensures !Iterate(st, n).Crashed?
      {
        IterateSettles(st, m, n);
      }
    } else if NoSleeper(st) {
      var n := IdleDrains(st);
      assert Iterate(st, n).Crashed?;
    } else {
      var p :| p in st.ready && st.pcb[p].status == Sleeping;
      forall n: nat
        ensures !Iterate(st, n).Crashed?
      {
        SleeperSpins(st, p, n);
      }
    }
  }

  lemma {:induction false} IterateSettles(st: State, m: nat, n: nat)
    requires Iterate(st, m).Done?
    ensures !Iterate(st, n).Crashed?
    decreases n
  {
    if n != 0 && !Eligible(st, st.ready[0]) {
      IterateSettles(Turn(st), m - 1, n - 1);
    }
  }
}
