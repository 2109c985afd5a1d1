/** Every disciplined step of the machine keeps the invariant. */
module Steps {
  import opened Prelude
  import opened KernelState
  import opened Scheduler
  import opened Linkage
  import opened Mutexes
  import opened Syscalls
  import opened Invariant

  // ---------------------------------------------------------- building blocks

  predicate ContOk(c: Cont) {
    && (c.Acquiring? ==> c.lock.UserLock? && c.after == Return)
    && (c.CondWoken? ==> c.lock.UserLock?)
  }

  /** Fields outside the invariant, and the continuation of current_running. */
  lemma InvFrame(st: State, r: State)
    requires InvX(st, st.cur)
    requires r.cur == st.cur && r.ready == st.ready && r.queues == st.queues && r.locked == st.locked
    requires r.nextPid == st.nextPid && r.faults == st.faults && r.intact == st.intact
    requires r.pcb == st.pcb[st.cur := st.pcb[st.cur].(cont := r.pcb[st.cur].cont)]
    requires ContOk(r.pcb[st.cur].cont)
    ensures InvX(r, st.cur)
  {
    SameOwners(st, r);
  }

  lemma InvSetCont(st: State, c: Cont)
    requires InvX(st, st.cur) && ContOk(c)
    ensures InvX(SetCont(st, c), st.cur)
  {
    InvFrame(st, SetCont(st, c));
  }

  lemma InvParkBlocked(st: State, q: QueueId)
    requires InvX(st, st.cur) && Live(st, st.cur) && Matches(st.pcb[st.cur].cont, q)
    requires q.LockQ? ==> q.lock in st.locked
    requires q.Waiting? ==> q.slot != st.cur && Live(st, q.slot)
    ensures InvX(ParkBlocked(st, q), -1)
  {
    LinkedParkBlocked(st, q);
    MutexParkBlocked(st, q);
    QUpdated(st.queues, q, Q(st.queues, q) + [st.cur]);
  }

  lemma InvBlockOn(st: State, q: QueueId, c: Cont)
    requires InvX(st, st.cur) && Live(st, st.cur) && Matches(c, q) && ContOk(c)
    requires q.LockQ? ==> q.lock in st.locked
    requires q.Waiting? ==> q.slot != st.cur && Live(st, q.slot)
    ensures InvX(BlockOn(st, q, c).st, -1)
  {
    InvSetCont(st, c);
    InvParkBlocked(SetCont(st, c), q);
  }

  lemma InvWakeAll(st: State, x: int, q: QueueId)
    requires InvX(st, x)
    ensures InvX(WakeAll(st, q), x)
  {
    LinkedWakeAll(st, x, q);
    MutexWakeAll(st, x, q);
    WakeFrame(st, x, q);
    WokenFrame(st, WakeAll(st, q));
  }

  lemma InvWakeOne(st: State, x: int, q: QueueId)
    requires InvX(st, x)
    ensures InvX(WakeOne(st, q), x)
  {
    LinkedWakeOne(st, x, q);
    MutexWakeOne(st, x, q);
    WakeFrame(st, x, q);
    WokenFrame(st, WakeOne(st, q));
  }

  /** Nobody but a blocked process is woken, and no queue gains a member. */
  ghost predicate WakeFramed(st: State, r: State) {
    && r.locked == st.locked && r.nextPid == st.nextPid
    && (forall p: Slot {:trigger r.pcb[p]} ::
          && r.pcb[p].cont == st.pcb[p].cont && r.pcb[p].pid == st.pcb[p].pid
          && (st.pcb[p].status == Exited ==> r.pcb[p].status == Exited))
    && (forall q, p {:trigger p in Q(r.queues, q)} :: p in Q(r.queues, q) ==> p in Q(st.queues, q))
  }

  lemma WakeFrame(st: State, x: int, q: QueueId)
    requires QueuesOk(st, x)
    ensures WakeFramed(st, WakeAll(st, q)) && WakeFramed(st, WakeOne(st, q))
  {
    var s := Q(st.queues, q);
    forall p: Slot
      ensures p in s ==> st.pcb[p].status != Exited
    {
      assert p in s ==> st.pcb[p].status == Blocked;
    }
    if s != [] {
      assert s[0] in s;
      QUpdated(st.queues, q, s[1..]);
    }
  }

  /** Conts and Pids only notice continuations, pids, deaths and new queue members. */
  lemma WokenFrame(st: State, r: State)
    requires OnlyUserLocks(st) && Conts(st) && Pids(st) && WakeFramed(st, r)
    ensures OnlyUserLocks(r) && Conts(r) && Pids(r)
  {
  }

  lemma InvRelease(st: State, x: int, l: LockId)
    requires InvX(st, x) && CanRelease(st, l)
    ensures InvX(Release(st, l), x)
  {
    LinkedRelease(st, x, l);
    MutexRelease(st, x, l);
    UntouchedRelease(st, x, l);
    UntouchedKeeps(st, Release(st, l));
  }

  lemma InvTakeLock(st: State, l: LockId)
    requires InvX(st, st.cur) && Live(st, st.cur) && l !in st.locked && l.UserLock?
    ensures InvX(TakeLock(st, l), st.cur)
  {
    MutexTakeLock(st, st.cur, l);
  }

  // ---------------------------------------------------------------- processes

  /** spawn on a slot whose last process has been reaped. */
  lemma InvAssign(st: State, p: Slot)
    requires InvX(st, st.cur) && p != st.cur && st.pcb[p].status == Exited && p !in st.ready
    ensures InvX(AssignTask(st, p), st.cur)
  {
    var r := AssignTask(st, p);
    QUpdated(st.queues, Waiting(p), []);
    NoDupSlots(st.ready, [p]);
    assert Q(st.queues, Waiting(p)) == [];
    assert Linked(r, st.cur);
    SameOwners(st, r);
  }

  /** A sound kill: the victim is dead, in the ready queue and in no other; nobody else moves. */
  ghost predicate Killed(st: State, r: State, p: Slot) {
    && r == st.(pcb := st.pcb[p := st.pcb[p].(status := Exited)], ready := r.ready, queues := r.queues)
    && (r.ready == st.ready || r.ready == Without(st.ready, p) + [p])
    && p in r.ready
    && (forall q {:trigger Q(r.queues, q)} :: Q(r.queues, q) == Without(Q(st.queues, q), p))
  }

  lemma KillShape(st: State, p: Slot)
    requires Linked(st, st.cur) && Live(st, p) && KillSafe(st, p)
    ensures Killed(st, KillSlot(st, p), p)
  {
    assert p in st.ready || st.pcb[p].status == Blocked;
    if st.pcb[p].status == Blocked {
      var q := st.pcb[p].chan.value;
      QUpdated(st.queues, q, Without(Q(st.queues, q), p));
      assert p !in st.ready;
    } else {
      forall q
        ensures p !in Q(st.queues, q)
      {
      }
    }
  }

  lemma KilledLinked(st: State, r: State, p: Slot)
    requires Linked(st, st.cur) && Live(st, p) && p != st.cur && Killed(st, r, p)
    ensures Linked(r, st.cur)
  {
    NoDupSlots(Without(st.ready, p), [p]);
  }

  lemma InvKill(st: State, p: Slot)
    requires InvX(st, st.cur) && Live(st, p) && KillSafe(st, p)
    ensures InvX(KillSlot(st, p), st.cur)
  {
    KillShape(st, p);
    hide KillSlot, KillSafe;
    var r := KillSlot(st, p);
    KilledLinked(st, r, p);
    SameOwners(st, r);
    WokenFrame(st, r);
    hide Linked, Conts, Pids, OnlyUserLocks, Owners;
    KilledMutex(st, r, p);
  }

  lemma KilledMutex(st: State, r: State, p: Slot)
    requires Mutex(st, st.cur) && Killed(st, r, p) && Owners(r)
    ensures Mutex(r, st.cur)
  {
  }

  // -------------------------------------------------------------------- steps

  /** `x` after a stretch of kernel code: nobody, or still current_running. */
  function Loose(seg: Seg): int {
    if seg.parked then -1 else seg.st.cur
  }

  ghost predicate SegOk(cur: Slot, seg: Seg) {
    && InvX(seg.st, Loose(seg))
    && (!seg.parked ==> seg.st.cur == cur && OnCpu(seg.st.pcb[cur].status))
  }

  lemma SegAcquire(st: State, l: LockId)
    requires Inv(st) && l.UserLock?
    ensures SegOk(st.cur, AcquireThen(st, l, Return))
  {
    if l in st.locked {
      InvBlockOn(st, LockQ(l), Acquiring(l, Return));
    } else {
      InvTakeLock(st, l);
      InvSetCont(TakeLock(st, l), User);
    }
  }

  lemma SegUp(st: State, s: nat)
    requires Inv(st)
    ensures SegOk(st.cur, UpCore(st, s))
  {
    hide Inv, SegOk, SemAt, WakeOne, Finish, SetSem;
    var v := SemAt(st, s);
    var v' := v.(count := v.count + 1, ups := v.ups + 1);
    InvSetSem(st, s, v');
    SetSemCur(st, s, v');
    SegWakeFinish(SetSem(st, s, v'), SemQ(s));
  }

  lemma SetSemCur(st: State, s: nat, v: Sem)
    ensures SetSem(st, s, v).cur == st.cur
  {
  }

  lemma InvSetSem(st: State, s: nat, v: Sem)
    requires Inv(st)
    ensures Inv(SetSem(st, s, v))
  {
    InvFrame(st, SetSem(st, s, v));
  }

  lemma SegWakeFinish(st: State, q: QueueId)
    requires Inv(st)
    ensures SegOk(st.cur, Finish(WakeOne(st, q)))
  {
    SegWakeOne(st, q);
    InvSetCont(WakeOne(st, q), User);
  }

  lemma SegDown(st: State, s: nat)
    requires Inv(st)
    ensures SegOk(st.cur, DownCore(st, s))
  {
    if SemAt(st, s).count <= 0 {
      InvBlockOn(st, SemQ(s), DownWoken(s));
    } else {
      InvFrame(st, SemMinus(st, s));
      InvSetCont(SemMinus(st, s), User);
    }
  }

  lemma SegBarrier(st: State, b: nat)
    requires Inv(st)
    ensures SegOk(st.cur, BarrierCore(st, b))
  {
    var st1 := Arrive(st, b);
    InvFrame(st, st1);
    if BarAt(st, b).count + 1 == BarAt(st, b).max {
      InvWakeAll(st1, st.cur, BarQ(b));
      assert st.cur !in Q(st.queues, BarQ(b));
      InvFrame(WakeAll(st1, BarQ(b)), BarrierOpens(st1, b));
      InvSetCont(BarrierOpens(st1, b), User);
    } else {
      InvBlockOn(st1, BarQ(b), BarrierWoken(b, BarAt(st, b).gen));
    }
  }

  lemma ReleaseCur(st: State, l: LockId)
    requires Linked(st, st.cur)
    ensures Release(st, l).cur == st.cur && Release(st, l).pcb[st.cur].status == st.pcb[st.cur].status
  {
    ReleaseSpec(st, l);
    assert st.cur !in Q(st.queues, LockQ(l));
  }

  lemma SegRelease(st: State, l: LockId)
    requires Inv(st) && CanRelease(st, l)
    ensures SegOk(st.cur, Seg(Release(st, l), false))
  {
    InvRelease(st, st.cur, l);
    ReleaseCur(st, l);
  }

  lemma SegCondWait(st: State, l: LockId, c: nat)
    requires Inv(st) && CanRelease(st, l) && l.UserLock?
    ensures SegOk(st.cur, CondWaitSeg(st, l, c))
  {
    SegRelease(st, l);
    InvBlockOn(Release(st, l), CondQ(c), CondWoken(l));
  }

  lemma DeadLinked(st: State, st1: State)
    requires Linked(st, st.cur) && st1 == SetPcb(st, st.cur, st.pcb[st.cur].(status := Exited))
    ensures Linked(st1, st1.cur)
  {
  }

  lemma SegExit(st: State)
    requires Inv(st)
    ensures SegOk(st.cur, Segment(st, Exit))
  {
    LinkedParkExited(st);
    MutexParkExited(st);
    var st1 := SetPcb(st, st.cur, st.pcb[st.cur].(status := Exited));
    WokenFrame(st, st1);
    hide Reap, Linked, Mutex;
    DeadLinked(st, st1);
    UntouchedReap(st1, st1.cur);
    hide Untouched, Conts, Pids, OnlyUserLocks;
    UntouchedKeeps(st1, Reap(st1));
    ReapSpec(st1);
  }

  lemma SegWait(st: State, pid: nat)
    requires Inv(st)
    ensures SegOk(st.cur, WaitSeg(st, pid))
  {
    var f := FindLive(st.pcb, pid, 0);
    if f.Some? && st.pcb[st.cur].pid != pid {
      InvBlockOn(st, Waiting(f.value), User);
    }
  }

  lemma SegResume(st: State)
    requires Inv(st)
    ensures SegOk(st.cur, ResumeSeg(st))
  {
    match st.pcb[st.cur].cont
    case User =>
    case Acquiring(l, k) => SegAcquire(st, l);
    case DownWoken(s) => DownIsCore(st, s); SegDown(st, s);
    case BarrierWoken(b, g) => BarrierTailIsFinish(st, b, g); InvSetCont(st, User);
    case CondWoken(l) => SegAcquire(st, l);
  }

  lemma SegWakeOne(st: State, q: QueueId)
    requires Inv(st)
    ensures SegOk(st.cur, Seg(WakeOne(st, q), false))
  {
    InvWakeOne(st, st.cur, q);
    assert st.cur !in Q(st.queues, q);
  }

  lemma SegWakeAll(st: State, q: QueueId)
    requires Inv(st)
    ensures SegOk(st.cur, Seg(WakeAll(st, q), false))
  {
    InvWakeAll(st, st.cur, q);
    assert st.cur !in Q(st.queues, q);
  }

  lemma SegProc(st: State, op: Op)
    requires Inv(st) && Disciplined(st, op) && (op.Spawn? || op.Kill?)
    ensures SegOk(st.cur, Segment(st, op))
  {
    if op.Spawn? {
      var f := FindExited(st.pcb, 0);
      if f.Some? {
        InvAssign(st, f.value);
      }
    } else {
      var f := FindLive(st.pcb, op.pid, 0);
      if f.Some? {
        InvKill(st, f.value);
      }
    }
  }

  lemma SegPark(st: State, op: Op)
    requires Inv(st) && (op.Tick? || op.Sleep?)
    ensures SegOk(st.cur, Segment(st, op))
  {
    LinkedPark(st);
    MutexPark(st);
    WokenFrame(st, Segment(st, op).st);
  }

  lemma SegmentKeepsProc(st: State, op: Op)
    requires Inv(st) && Disciplined(st, op)
    requires ProcOp(op)
    ensures SegOk(st.cur, Segment(st, op))
  {
    match op
    case Tick => SegPark(st, op);
    case Sleep(_) => SegPark(st, op);
    case Exit => SegExit(st);
    case Spawn => SegProc(st, op);
    case Kill(_) => SegProc(st, op);
    case Wait(pid) => SegWait(st, pid);
    case _ =>
  }

  lemma SegmentKeepsQueue(st: State, op: Op)
    requires Inv(st) && Disciplined(st, op)
    requires QueueOp(op)
    ensures SegOk(st.cur, Segment(st, op))
  {
    match op
    case Block(q) => InvBlockOn(st, UserQ(q), User);
    case UnblockOne(q) => SegWakeOne(st, UserQ(q));
    case UnblockAll(q) => SegWakeAll(st, UserQ(q));
    case Signal(c) => SegWakeOne(st, CondQ(c));
    case Broadcast(c) => SegWakeAll(st, CondQ(c));
    case _ =>
  }

  lemma SegmentKeepsLock(st: State, op: Op)
    requires Inv(st) && Disciplined(st, op)
    requires !ProcOp(op) && !QueueOp(op)
    ensures SegOk(st.cur, Segment(st, op))
  {
    match op
    case Acquire(l) => SegAcquire(st, UserLock(l));
    case Unlock(l) => SegRelease(st, UserLock(l));
    case Up(s) => UpIsCore(st, s); SegUp(st, s);
    case Down(s) => DownIsCore(st, s); SegDown(st, s);
    case BarrierWait(b) => BarrierIsCore(st, b); SegBarrier(st, b);
    case CondWait(l, c) => SegCondWait(st, UserLock(l), c);
    case Resume => SegResume(st);
    case _ =>
  }

  lemma SegmentKeeps(st: State, op: Op)
    requires Inv(st) && Disciplined(st, op)
    ensures SegOk(st.cur, Segment(st, op))
  {
    hide Segment, Inv, Disciplined;
    if ProcOp(op) {
      SegmentKeepsProc(st, op);
    } else if QueueOp(op) {
      SegmentKeepsQueue(st, op);
    } else {
      SegmentKeepsLock(st, op);
    }
  }

  /** The state a step starts from: the clock has moved on. */
  function Later(st: State, dt: nat): State {
    st.(time := st.time + dt)
  }

  lemma InvLater(st: State, dt: nat)
    requires Inv(st)
    ensures Inv(Later(st, dt))
  {
    InvFrame(st, Later(st, dt));
  }

  /** Every disciplined step keeps the invariant. */
  lemma StepKeeps(st: State, dt: nat, op: Op)
    requires Inv(st) && Disciplined(st, op) && Step(st, dt, op).Some?
    ensures Inv(Step(st, dt, op).value)
  {
    var st0 := Later(st, dt);
    InvLater(st, dt);
    SegmentKeeps(st0, op);
    if Segment(st0, op).parked {
      InvDispatch(Segment(st0, op).st);
    }
  }
}
