/**
 What every step keeps true of mutexes and of free process slots
 (kernel/locking/lock.c, the exit and reap paths of kernel/sched/sched.c).
 */
module Mutexes {
  import opened Prelude
  import opened KernelState
  import opened Scheduler
  import opened Linkage

  /** A lock is LOCKED exactly when it is in exactly one `holding` list, once. */
  ghost predicate Owners(st: State) {
    && (forall l {:trigger l in st.locked} :: l in st.locked ==> exists p: Slot :: l in st.pcb[p].holding)
    && (forall p: Slot, l {:trigger l in st.pcb[p].holding} :: l in st.pcb[p].holding ==> l in st.locked)
    && (forall p: Slot {:trigger st.pcb[p].holding} :: NoDup(st.pcb[p].holding))
    && (forall p: Slot, p': Slot, l {:trigger l in st.pcb[p].holding, l in st.pcb[p'].holding} ::
          l in st.pcb[p].holding && l in st.pcb[p'].holding ==> p == p')
  }

  /** Nobody sleeps on a free lock: no wake-up is ever lost. */
  ghost predicate Awake(st: State) {
    forall l {:trigger Q(st.queues, LockQ(l))} :: Q(st.queues, LockQ(l)) != [] ==> l in st.locked
  }

  /** A slot that spawn may safely take has no locks and no waiters left. */
  ghost predicate FreeSlots(st: State, x: int) {
    forall p: Slot {:trigger st.pcb[p]} :: p != x && st.pcb[p].status == Exited && p !in st.ready ==>
      st.pcb[p].holding == [] && Q(st.queues, Waiting(p)) == []
  }

  ghost predicate Mutex(st: State, x: int) {
    Owners(st) && Awake(st) && FreeSlots(st, x)
  }

  // --------------------------------------------------------------- releasing

  /** Owners and Awake survive giving up locks that nobody else holds. */
  lemma FreesKeeps(st: State, r: State, gone: set<LockId>, kept: seq<LockId>)
    requires Owners(st) && Awake(st) && Frees(st, r, gone, kept)
    requires NoDup(kept) && forall l :: l in st.pcb[st.cur].holding <==> l in kept || (l in gone && l in st.locked)
    requires forall l :: l in kept ==> l !in gone
    ensures Owners(r) && Awake(r)
  {
    forall l | l in r.locked
      ensures exists p: Slot :: l in r.pcb[p].holding
    {
      var p: Slot :| l in st.pcb[p].holding;
      assert l in r.pcb[p].holding;
    }
  }

  lemma WakesFree(st: State, r: State, x: int, w: seq<Slot>)
    requires FreeSlots(st, x) && Wakes(st, r, w)
    requires forall q {:trigger Q(r.queues, q)} :: Q(r.queues, q) == Q(st.queues, q) || Q(r.queues, q) == []
    requires forall p: Slot {:trigger r.pcb[p]} :: st.pcb[p].holding == [] ==> r.pcb[p].holding == []
    ensures FreeSlots(r, x)
  {
  }

  lemma MutexRelease(st: State, x: int, l: LockId)
    requires Mutex(st, x)
    requires l in st.pcb[st.cur].holding || l !in st.locked
    ensures Mutex(Release(st, l), x)
  {
    ReleaseSpec(st, l);
    FreesKeeps(st, Release(st, l), {l}, Without(st.pcb[st.cur].holding, l));
    WakesFree(st, Release(st, l), x, Q(st.queues, LockQ(l)));
  }

  lemma MutexWakeAll(st: State, x: int, q: QueueId)
    requires Mutex(st, x)
    ensures Mutex(WakeAll(st, q), x)
  {
    var r := WakeAll(st, q);
    assert forall p: Slot {:trigger r.pcb[p].holding} :: r.pcb[p].holding == st.pcb[p].holding;
    SameOwners(st, r);
    WakesFree(st, r, x, Q(st.queues, q));
  }

  lemma SameOwners(st: State, r: State)
    requires Owners(st) && r.locked == st.locked
    requires forall p: Slot {:trigger r.pcb[p].holding} :: r.pcb[p].holding == st.pcb[p].holding
    ensures Owners(r)
  {
    forall l | l in r.locked
      ensures exists p: Slot :: l in r.pcb[p].holding
    {
      var p: Slot :| l in st.pcb[p].holding;
      assert l in r.pcb[p].holding;
    }
  }

  /** Reaping frees every lock of the dead process and leaves its slot clean. */
  lemma MutexReap(st: State, x: int)
    requires Mutex(st, x)
    ensures Mutex(Reap(st), x)
    ensures Reap(st).pcb[st.cur].holding == [] && Q(Reap(st).queues, Waiting(st.cur)) == []
  {
    var h, r := st.pcb[st.cur].holding, Reap(st);
    ReapSpec(st);
    ReapedKeeps(st, r, LockSet(h));
    WakesFree(st, r, x, WokenByReap(st, st.cur));
  }

  lemma ReapedKeeps(st: State, r: State, gone: set<LockId>)
    requires Owners(st) && Awake(st) && Reaped(st, r, gone)
    requires gone == LockSet(st.pcb[st.cur].holding)
    ensures Owners(r) && Awake(r)
  {
    forall l | l in r.locked
      ensures exists p: Slot :: l in r.pcb[p].holding
    {
      var p: Slot :| l in st.pcb[p].holding;
      assert l in r.pcb[p].holding;
    }
  }

  // ------------------------------------------------------------------ taking

  lemma MutexTakeLock(st: State, x: int, l: LockId)
    requires Mutex(st, x) && l !in st.locked && Live(st, st.cur)
    ensures Mutex(TakeLock(st, l), x)
  {
    var r := TakeLock(st, l);
    assert l !in st.pcb[st.cur].holding;
    assert l in r.pcb[st.cur].holding;
    forall l' | l' in r.locked
      ensures exists p: Slot :: l' in r.pcb[p].holding
    {
      if l' != l {
        var p: Slot :| l' in st.pcb[p].holding;
        assert l' in r.pcb[p].holding;
      }
    }
  }

  // ----------------------------------------------------- parking, dispatching

  lemma MutexWakeOne(st: State, x: int, q: QueueId)
    requires Mutex(st, x)
    ensures Mutex(WakeOne(st, q), x)
  {
    var s := Q(st.queues, q);
    if s != [] {
      var r := WakeOne(st, q);
      QUpdated(st.queues, q, s[1..]);
      SameOwners(st, r);
    }
  }

  lemma MutexPark(st: State)
    requires Mutex(st, st.cur)
    ensures Mutex(ParkReady(st), -1)
    ensures forall d: nat :: Mutex(ParkSleeping(st, d), -1)
  {
    SameOwners(st, ParkReady(st));
    forall d: nat
      ensures Mutex(ParkSleeping(st, d), -1)
    {
      SameOwners(st, ParkSleeping(st, d));
    }
  }

  /** Blocking on a lock needs it LOCKED; waiting for a process needs it not yet reaped. */
  lemma MutexParkBlocked(st: State, q: QueueId)
    requires Mutex(st, st.cur)
    requires q.LockQ? ==> q.lock in st.locked
    requires q.Waiting? ==> q.slot != st.cur && Live(st, q.slot)
    ensures Mutex(ParkBlocked(st, q), -1)
  {
    var r := ParkBlocked(st, q);
    QUpdated(st.queues, q, Q(st.queues, q) + [st.cur]);
    SameOwners(st, r);
  }

  lemma MutexParkExited(st: State)
    requires Mutex(st, st.cur)
    ensures Mutex(ParkExited(st), -1)
  {
    var st1 := SetPcb(st, st.cur, st.pcb[st.cur].(status := Exited));
    SameOwners(st, st1);
    assert FreeSlots(st1, st.cur);
    MutexReap(st1, st.cur);
  }

  lemma MutexTurn(st: State)
    requires Linked(st, -1) && Mutex(st, -1) && st.ready != [] && !Eligible(st, st.ready[0])
    ensures Mutex(Turn(st), -1)
  {
    var p := st.ready[0];
    assert p in st.ready;
    NoDupTail(st.ready);
    var st1 := Pop(st);
    SameOwners(st, st1);
    assert FreeSlots(st1, p);
    if st.pcb[p].status == Exited {
      MutexReap(st1, p);
    } else {
      SameOwners(st, Turn(st));
    }
  }

  lemma MutexSwitch(st: State)
    requires Mutex(st, -1) && st.ready != []
    ensures Mutex(Switch(st), Switch(st).cur)
  {
    NoDupTailIn(st.ready);
    SameOwners(st, Switch(st));
  }

  lemma NoDupTailIn(s: seq<Slot>)
    requires s != []
    ensures forall p :: p in s <==> p == s[0] || p in s[1..]
  {
  }

  lemma {:induction false} MutexDispatch(st: State)
    requires Linked(st, -1) && Mutex(st, -1) && HasWork(st)
    ensures Mutex(Dispatch(st), Dispatch(st).cur)
    decreases CountIn(Departing(st), st.ready), FirstIn(Workers(st), st.ready)
  {
    if Eligible(st, st.ready[0]) {
      MutexSwitch(st);
    } else {
      TurnProgress(st);
      LinkedTurn(st);
      MutexTurn(st);
      MutexDispatch(Turn(st));
    }
  }
}
