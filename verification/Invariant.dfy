/**
 The invariant of the whole machine, kept by every disciplined step, and the
 disappearance of the locks embedded in semaphores and barriers.
 */
module Invariant {
  import opened Prelude
  import opened KernelState
  import opened Scheduler
  import opened Linkage
  import opened Mutexes
  import opened Syscalls

  /** The place in its system call of a process that sleeps on `q`. */
  predicate Matches(c: Cont, q: QueueId) {
    match q
    case Waiting(_) => c == User
    case UserQ(_) => c == User
    case LockQ(l) => c == Acquiring(l, Return)
    case SemQ(s) => c == DownWoken(s)
    case BarQ(b) => c.BarrierWoken? && c.bar == b
    case CondQ(_) => c.CondWoken?
  }

  ghost predicate Conts(st: State) {
    && (forall q, p {:trigger p in Q(st.queues, q)} :: p in Q(st.queues, q) ==> Matches(st.pcb[p].cont, q))
    && (forall p: Slot {:trigger st.pcb[p]} :: var c := st.pcb[p].cont;
          && (c.Acquiring? ==> c.lock.UserLock? && c.after == Return)
          && (c.CondWoken? ==> c.lock.UserLock?))
  }

  /** Locks embedded in semaphores and barriers are free whenever a step ends. */
  ghost predicate OnlyUserLocks(st: State) {
    forall l {:trigger l in st.locked} :: l in st.locked ==> l.UserLock?
  }

  /** Pids are handed out once, and live processes have different ones. */
  ghost predicate Pids(st: State) {
    && (forall p: Slot {:trigger st.pcb[p]} :: Live(st, p) ==> st.pcb[p].pid < st.nextPid)
    && (forall p: Slot, p': Slot {:trigger st.pcb[p], st.pcb[p']} ::
          Live(st, p) && Live(st, p') && st.pcb[p].pid == st.pcb[p'].pid ==> p == p')
  }

  /** The invariant with `x` in nobody's queue. */
  ghost predicate InvX(st: State, x: int) {
    Linked(st, x) && Mutex(st, x) && OnlyUserLocks(st) && Conts(st) && Pids(st) && st.faults == 0 && st.intact
  }

  /** The invariant between steps. */
  ghost predicate Inv(st: State) {
    InvX(st, st.cur) && OnCpu(st.pcb[st.cur].status)
  }

  /** current_running is RUNNING, except before the first dispatch (init/main.c:42-51). */
  predicate OnCpu(s: Status) {
    s == Running || s == Embryo
  }

  // ------------------------------------------------------------------- frames

  /** What waking, reaping and dispatching never change. */
  ghost predicate Untouched(st: State, r: State) {
    && (forall p: Slot {:trigger r.pcb[p]} ::
          && r.pcb[p].cont == st.pcb[p].cont && r.pcb[p].pid == st.pcb[p].pid
          && (r.pcb[p].status == Exited <==> st.pcb[p].status == Exited))
    && r.sems == st.sems && r.bars == st.bars && r.nextPid == st.nextPid && r.time == st.time
    && r.locked <= st.locked
    && (forall q {:trigger Q(r.queues, q)} ::
          Q(r.queues, q) == Q(st.queues, q) || (Q(r.queues, q) == [] && (q.Waiting? || q.LockQ?)))
  }

  lemma UntouchedTrans(st: State, st1: State, st2: State)
    requires Untouched(st, st1) && Untouched(st1, st2)
    ensures Untouched(st, st2)
  {
  }

  lemma UntouchedKeeps(st: State, r: State)
    requires Untouched(st, r) && OnlyUserLocks(st) && Conts(st) && Pids(st)
    ensures OnlyUserLocks(r) && Conts(r) && Pids(r)
  {
  }

  lemma UntouchedReap(st: State, x: int)
    requires Linked(st, x)
    ensures Untouched(st, Reap(st))
  {
    ReapSpec(st);
    HeldQueuesOk(st, x, st.pcb[st.cur].holding);
  }

  lemma UntouchedRelease(st: State, x: int, l: LockId)
    requires Linked(st, x)
    ensures Untouched(st, Release(st, l))
  {
    ReleaseSpec(st, l);
    assert forall p :: p in Q(st.queues, LockQ(l)) ==> st.pcb[p].status == Blocked;
  }

  lemma UntouchedTurn(st: State)
    requires Linked(st, -1) && st.ready != [] && !Eligible(st, st.ready[0])
    ensures Untouched(st, Turn(st))
  {
    LinkedPop(st);
    if st.pcb[st.ready[0]].status == Exited {
      UntouchedReap(Pop(st), st.ready[0]);
    }
  }

  lemma {:induction false} UntouchedDispatch(st: State)
    requires Linked(st, -1) && HasWork(st)
    ensures Untouched(st, Dispatch(st))
    decreases CountIn(Departing(st), st.ready), FirstIn(Workers(st), st.ready)
  {
    if !Eligible(st, st.ready[0]) {
      TurnProgress(st);
      LinkedTurn(st);
      UntouchedTurn(st);
      UntouchedDispatch(Turn(st));
      UntouchedTrans(st, Turn(st), Dispatch(Turn(st)));
    }
  }

  /** A dispatch turns the invariant without a running process into the one with. */
  lemma InvDispatch(st: State)
    requires InvX(st, -1) && HasWork(st)
    ensures Inv(Dispatch(st)) && Dispatch(st).pcb[Dispatch(st).cur].status == Running
  {
    LinkedDispatch(st);
    MutexDispatch(st);
    UntouchedDispatch(st);
    UntouchedKeeps(st, Dispatch(st));
  }

  // ------------------------------------------------------------ embedded locks

  lemma {:induction false} WithoutLast<T(!new)>(s: seq<T>, x: T)
    requires x !in s
    ensures Without(s + [x], x) == s
  {
    if s == [] {
      assert s + [x] == [x];
    } else {
      assert (s + [x])[0] == s[0] && (s + [x])[1..] == s[1..] + [x];
      WithoutLast(s[1..], x);
    }
  }

  /** Releasing a lock just taken, with nobody waiting for it, undoes the taking. */
  lemma TakeRelease(st: State, l: LockId)
    requires l !in st.locked && l !in st.pcb[st.cur].holding && Q(st.queues, LockQ(l)) == []
    ensures Release(TakeLock(st, l), l) == st
  {
    WithoutLast(st.pcb[st.cur].holding, l);
    var st1 := TakeLock(st, l);
    var b := st1.pcb[st.cur];
    var st2 := SetPcb(st1, st.cur, b.(holding := Without(b.holding, l))).(locked := st1.locked - {l});
    assert st2.pcb == st.pcb;
    assert st2.locked == st.locked;
    assert st2 == st;
  }

  lemma TakeWakeOne(st: State, l: LockId, q: QueueId)
    requires st.cur !in Q(st.queues, q)
    ensures WakeOne(TakeLock(st, l), q) == TakeLock(WakeOne(st, q), l)
  {
    if Q(st.queues, q) != [] {
      var p := Q(st.queues, q)[0];
      assert p in Q(st.queues, q);
      assert WakeOne(TakeLock(st, l), q).pcb == TakeLock(WakeOne(st, q), l).pcb;
    }
  }

  lemma TakeWakeAll(st: State, l: LockId, q: QueueId)
    requires st.cur !in Q(st.queues, q)
    ensures WakeAll(TakeLock(st, l), q) == TakeLock(WakeAll(st, q), l)
    decreases |Q(st.queues, q)|
  {
    if Q(st.queues, q) != [] {
      TakeWakeOne(st, l, q);
      TakeWakeAll(WakeOne(st, q), l, q);
    }
  }

  /** semaphore_up without its lock. */
  function UpCore(st: State, s: nat): Seg {
    Finish(SemPlus(st, s))
  }

  /** semaphore_down, or its retry, without its lock. */
  function DownCore(st: State, s: nat): Seg {
    if SemAt(st, s).count <= 0 then BlockOn(st, SemQ(s), DownWoken(s)) else Finish(SemMinus(st, s))
  }

  /** barrier_wait without its lock. */
  function BarrierCore(st: State, b: nat): Seg {
    if BarAt(st, b).count + 1 == BarAt(st, b).max then Finish(BarrierOpens(Arrive(st, b), b))
    else BlockOn(Arrive(st, b), BarQ(b), BarrierWoken(b, BarAt(st, b).gen))
  }

  lemma FreeLock(st: State, x: int, l: LockId)
    requires Mutex(st, x) && OnlyUserLocks(st) && !l.UserLock?
    ensures l !in st.locked && l !in st.pcb[st.cur].holding && Q(st.queues, LockQ(l)) == []
  {
  }

  lemma UpVanishes(st: State, s: nat, l: LockId)
    requires l == SemLock(s) && l !in st.locked && l !in st.pcb[st.cur].holding && Q(st.queues, LockQ(l)) == []
    requires st.cur !in Q(st.queues, SemQ(s))
    ensures AcquireThen(st, l, UpBody(s)) == UpCore(st, s)
  {
    var v := SemAt(st, s);
    var v' := v.(count := v.count + 1, ups := v.ups + 1);
    var st1 := SetSem(st, s, v');
    TakeWakeOne(st1, l, SemQ(s));
    assert SetSem(TakeLock(st, l), s, v') == TakeLock(st1, l);
    assert SemPlus(TakeLock(st, l), s) == TakeLock(SemPlus(st, s), l);
    WakeOneLocks(st1, SemQ(s), l);
    TakeRelease(SemPlus(st, s), l);
  }

  /** The internal acquire of semaphore_up never blocks and its lock leaves no trace. */
  lemma UpIsCore(st: State, s: nat)
    requires Inv(st)
    ensures AcquireThen(st, SemLock(s), UpBody(s)) == UpCore(st, s)
  {
    FreeLock(st, st.cur, SemLock(s));
    UpVanishes(st, s, SemLock(s));
  }

  lemma WakeOneLocks(st: State, q: QueueId, l: LockId)
    requires q != LockQ(l)
    ensures var r := WakeOne(st, q);
      r.locked == st.locked && r.cur == st.cur && r.pcb[st.cur].holding == st.pcb[st.cur].holding
      && Q(r.queues, LockQ(l)) == Q(st.queues, LockQ(l))
  {
  }

  /** The same for a first call and a retry of semaphore_down. */
  lemma DownIsCore(st: State, s: nat)
    requires Inv(st)
    ensures AcquireThen(st, SemLock(s), DownBody(s)) == DownCore(st, s)
  {
    var l := SemLock(s);
    FreeLock(st, st.cur, l);
    TakeRelease(st, l);
    assert SemMinus(TakeLock(st, l), s) == TakeLock(SemMinus(st, s), l);
    TakeRelease(SemMinus(st, s), l);
  }

  lemma BarrierVanishes(st: State, b: nat, l: LockId)
    requires l == BarLock(b) && l !in st.locked && l !in st.pcb[st.cur].holding && Q(st.queues, LockQ(l)) == []
    requires st.cur !in Q(st.queues, BarQ(b))
    ensures AcquireThen(st, l, BarrierBody(b)) == BarrierCore(st, b)
  {
    assert BarAt(TakeLock(st, l), b) == BarAt(st, b);
    assert Arrive(TakeLock(st, l), b) == TakeLock(Arrive(st, b), l);
    if BarAt(st, b).count + 1 == BarAt(st, b).max {
      OpensVanishes(Arrive(st, b), b, l);
    } else {
      TakeRelease(Arrive(st, b), l);
    }
  }

  lemma OpensVanishes(st: State, b: nat, l: LockId)
    requires l == BarLock(b) && l !in st.locked && l !in st.pcb[st.cur].holding && Q(st.queues, LockQ(l)) == []
    requires st.cur !in Q(st.queues, BarQ(b))
    ensures Release(BarrierOpens(TakeLock(st, l), b), l) == BarrierOpens(st, b)
  {
    TakeWakeAll(st, l, BarQ(b));
    assert BarrierOpens(TakeLock(st, l), b) == TakeLock(BarrierOpens(st, b), l);
    TakeRelease(BarrierOpens(st, b), l);
  }

  lemma BarrierIsCore(st: State, b: nat)
    requires Inv(st)
    ensures AcquireThen(st, BarLock(b), BarrierBody(b)) == BarrierCore(st, b)
  {
    FreeLock(st, st.cur, BarLock(b));
    BarrierVanishes(st, b, BarLock(b));
  }

  lemma BarrierTailIsFinish(st: State, b: nat, g: nat)
    requires Inv(st)
    ensures AcquireThen(st, BarLock(b), BarrierTail(b, g)) == Finish(st)
  {
    FreeLock(st, st.cur, BarLock(b));
    TakeRelease(st, BarLock(b));
  }
}
