/** What single calls guarantee, whatever the rest of the machine is doing. */
module Guarantees {
  import opened Prelude
  import opened KernelState
  import opened Scheduler
  import opened Linkage
  import opened Mutexes
  import opened Syscalls
  import opened Invariant
  import opened Steps
  import opened Fairness
  import opened Runs

  // --------------------------------------------------------------------- exit

  /** Running, or in the ready queue with nothing left to wait for. */
  ghost predicate Runnable(st: State, p: Slot) {
    p == st.cur || (p in st.ready && st.pcb[p].status == Ready)
  }

  /** A woken process stays runnable through the dispatch that follows. */
  lemma DispatchRunnable(st: State, p: Slot)
    requires Linked(st, -1) && Owners(st) && HasWork(st) && p in st.ready && st.pcb[p].status == Ready
    ensures Runnable(Dispatch(st), p)
  {
    var k :| 0 <= k < |st.ready| && st.ready[k] == p;
    var k' := DispatchProgress(st, p, k);
    if At(Dispatch(st), p, k') {
      assert Dispatch(st).ready[k'] in Dispatch(st).ready;
    }
  }

  /**
   exit: the caller is gone for good, every lock it held is free with nobody
   asleep on it, and everyone who slept on one of them or waited for the
   caller can run.
   */
  lemma ExitFrees(st: State, dt: nat, r: State)
    requires Inv(st) && Step(st, dt, Exit) == Some(r)
    ensures r.pcb[st.cur].status == Exited && r.cur != st.cur && st.cur !in r.ready
    ensures r.pcb[st.cur].holding == [] && Q(r.queues, Waiting(st.cur)) == []
    ensures forall l :: l in st.pcb[st.cur].holding ==> l !in r.locked && Q(r.queues, LockQ(l)) == []
    ensures forall p :: p in Q(st.queues, Waiting(st.cur)) ==> Runnable(r, p)
    ensures forall l, p :: l in st.pcb[st.cur].holding && p in Q(st.queues, LockQ(l)) ==> Runnable(r, p)
  {
    var st0 := Later(st, dt);
    InvLater(st, dt);
    var me := st.cur;
    var st1 := ParkExited(st0);
    SegExit(st0);
    LinkedParkExited(st0);
    InvDispatch(st1);
    GoneStays(st1, me);
    assert FreeSlots(r, r.cur);
    UntouchedDispatch(st1);
    ExitUnlocks(st0);
    forall p | p in WokenByReap(st, me)
      ensures Runnable(r, p)
    {
      ExitWakes(st0, p);
      DispatchRunnable(st1, p);
    }
    HeldQueuesOk(st, me, st.pcb[me].holding);
  }

  lemma ExitUnlocks(st: State)
    ensures var st1 := ParkExited(st);
      forall l :: l in st.pcb[st.cur].holding ==> l !in st1.locked && Q(st1.queues, LockQ(l)) == []
  {
    hide Reap, WokenByReap, Wakes, SameRest, Q;
    ReapSpec(SetPcb(st, st.cur, st.pcb[st.cur].(status := Exited)));
  }

  lemma ExitWakes(st: State, p: Slot)
    requires Linked(st, st.cur) && p in WokenByReap(st, st.cur)
    ensures p in ParkExited(st).ready && ParkExited(st).pcb[p].status == Ready
  {
    var st1 := SetPcb(st, st.cur, st.pcb[st.cur].(status := Exited));
    ReapSpec(st1);
    assert WokenByReap(st1, st.cur) == WokenByReap(st, st.cur);
  }

  // --------------------------------------------------------------------- kill

  /** A dead process is never dispatched again: only spawn gives its slot a new life. */
  lemma DeadStaysDead(st: State, e: Event, r: State, p: Slot)
    requires Inv(st) && Follows(st, e, r) && st.pcb[p].status == Exited
    requires !(e.op.Spawn? && FindExited(st.pcb, 0) == Some(p))
    ensures r.pcb[p].status == Exited && r.cur != p && r.pcb[p].pid == st.pcb[p].pid
  {
    var st0 := Later(st, e.dt);
    InvLater(st, e.dt);
    SegmentKeeps(st0, e.op);
    SegmentDead(st0, e.op, p);
    var seg := Segment(st0, e.op);
    if seg.parked {
      UntouchedDispatch(seg.st);
      LinkedDispatch(seg.st);
    }
  }

  /** `r` leaves the dead process `p` as it is in `st`. */
  ghost predicate Buried(st: State, r: State, p: Slot) {
    st.pcb[p].status == Exited ==> r.pcb[p].status == Exited && r.pcb[p].pid == st.pcb[p].pid
  }

  lemma SegmentDeadProc(st: State, op: Op, p: Slot)
    requires Inv(st) && Disciplined(st, op)
    requires !(op.Spawn? && FindExited(st.pcb, 0) == Some(p))
    requires ProcOp(op)
    ensures Buried(st, Segment(st, op).st, p)
  {
    assert Linked(st, st.cur) && Live(st, st.cur);
    match op
    case Tick => ParkDead(st, 0, p);
    case Sleep(d) => ParkDead(st, d, p);
    case Exit => ExitDead(st, p);
    case Spawn => ProcDead(st, 0, p);
    case Kill(pid) => ProcDead(st, pid, p);
    case Wait(pid) => WaitDead(st, pid, p);
    case _ =>
  }

  lemma SegmentDeadQueue(st: State, op: Op, p: Slot)
    requires Inv(st) && Disciplined(st, op)
    requires !(op.Spawn? && FindExited(st.pcb, 0) == Some(p))
    requires QueueOp(op)
    ensures Buried(st, Segment(st, op).st, p)
  {
    assert Linked(st, st.cur) && Live(st, st.cur);
    match op
    case Block(q) => BlockDead(st, UserQ(q), User, p);
    case UnblockOne(q) => WakeDead(st, UserQ(q), p);
    case UnblockAll(q) => WakeDead(st, UserQ(q), p);
    case Signal(c) => WakeDead(st, CondQ(c), p);
    case Broadcast(c) => WakeDead(st, CondQ(c), p);
    case _ =>
  }

  lemma SegmentDeadLock(st: State, op: Op, p: Slot)
    requires Inv(st) && Disciplined(st, op)
    requires !(op.Spawn? && FindExited(st.pcb, 0) == Some(p))
    requires !ProcOp(op) && !QueueOp(op)
    ensures Buried(st, Segment(st, op).st, p)
  {
    assert Linked(st, st.cur) && Live(st, st.cur);
    match op
    case Acquire(l) => AcquireDead(st, UserLock(l), p);
    case Unlock(l) => ReleaseDead(st, UserLock(l), p);
    case Up(s) => UpIsCore(st, s); CoreDead(st, s, p);
    case Down(s) => DownIsCore(st, s); CoreDead(st, s, p);
    case BarrierWait(b) => BarrierIsCore(st, b); CoreDead(st, b, p);
    case CondWait(l, c) => CondWaitDead(st, UserLock(l), c, p);
    case Resume => ResumeDead(st, p);
    case _ =>
  }

  lemma SegmentDead(st: State, op: Op, p: Slot)
    requires Inv(st) && Disciplined(st, op)
    requires !(op.Spawn? && FindExited(st.pcb, 0) == Some(p))
    ensures Buried(st, Segment(st, op).st, p)
  {
    hide Segment, Inv, Disciplined;
    if ProcOp(op) {
      SegmentDeadProc(st, op, p);
    } else if QueueOp(op) {
      SegmentDeadQueue(st, op, p);
    } else {
      SegmentDeadLock(st, op, p);
    }
  }

  lemma ParkDead(st: State, d: nat, p: Slot)
    requires Live(st, st.cur)
    ensures Buried(st, ParkReady(st), p) && Buried(st, ParkSleeping(st, d), p)
  {
  }

  lemma BlockDead(st: State, q: QueueId, c: Cont, p: Slot)
    requires Live(st, st.cur)
    ensures Buried(st, BlockOn(st, q, c).st, p)
  {
  }

  lemma WaitDead(st: State, pid: nat, p: Slot)
    requires Live(st, st.cur)
    ensures Buried(st, WaitSeg(st, pid).st, p)
  {
  }

  lemma AcquireDead(st: State, l: LockId, p: Slot)
    requires Live(st, st.cur)
    ensures Buried(st, AcquireThen(st, l, Return).st, p)
  {
  }

  lemma ReleaseDead(st: State, l: LockId, p: Slot)
    requires Linked(st, st.cur)
    ensures Buried(st, Release(st, l), p)
  {
    UntouchedRelease(st, st.cur, l);
  }

  lemma CondWaitDead(st: State, l: LockId, c: nat, p: Slot)
    requires Linked(st, st.cur) && Live(st, st.cur)
    ensures Buried(st, CondWaitSeg(st, l, c).st, p)
  {
    UntouchedRelease(st, st.cur, l);
    ReleaseCur(st, l);
    BlockDead(Release(st, l), CondQ(c), CondWoken(l), p);
  }

  lemma ProcDead(st: State, pid: nat, p: Slot)
    ensures FindExited(st.pcb, 0) != Some(p) ==> Buried(st, SpawnTask(st), p)
    ensures Buried(st, KillPid(st, pid), p)
  {
  }

  lemma ExitDead(st: State, p: Slot)
    requires Linked(st, st.cur)
    ensures Buried(st, ParkExited(st), p)
  {
    ExitUntouched(st);
  }

  lemma ExitUntouched(st: State)
    requires Linked(st, st.cur)
    ensures Untouched(SetPcb(st, st.cur, st.pcb[st.cur].(status := Exited)), ParkExited(st))
  {
    UntouchedReap(SetPcb(st, st.cur, st.pcb[st.cur].(status := Exited)), st.cur);
  }

  lemma WakeDead(st: State, q: QueueId, p: Slot)
    requires Linked(st, st.cur)
    ensures Buried(st, WakeOne(st, q), p) && Buried(st, WakeAll(st, q), p)
  {
    if p in Q(st.queues, q) {
      assert st.pcb[p].status == Blocked;
    }
  }

  lemma CoreDead(st: State, n: nat, p: Slot)
    requires Linked(st, st.cur) && Live(st, st.cur)
    ensures Buried(st, UpCore(st, n).st, p) && Buried(st, DownCore(st, n).st, p)
    ensures Buried(st, BarrierCore(st, n).st, p)
  {
    if st.pcb[p].status == Exited {
      assert p !in Q(st.queues, SemQ(n)) && p !in Q(st.queues, BarQ(n));
      PlusOther(st, n, p);
      PlusOther(st, n, st.cur);
    }
  }

  lemma PlusOther(st: State, s: nat, p: Slot)
    requires p !in Q(st.queues, SemQ(s))
    ensures SemPlus(st, s).cur == st.cur && SemPlus(st, s).pcb[p] == st.pcb[p]
  {
  }

  lemma ResumeDead(st: State, p: Slot)
    requires Inv(st)
    ensures Buried(st, ResumeSeg(st).st, p)
  {
    assert Linked(st, st.cur) && Live(st, st.cur);
    match st.pcb[st.cur].cont
    case User =>
    case Acquiring(l, k) => AcquireDead(st, l, p);
    case DownWoken(s) => DownIsCore(st, s); CoreDead(st, s, p);
    case BarrierWoken(b, g) => BarrierTailIsFinish(st, b, g);
    case CondWoken(l) => AcquireDead(st, l, p);
  }

  // ------------------------------------------------------- condition variables

  /** The queue of condition `c` after `op`, as its own calls promise it. */
  function CondAfter(st: State, op: Op, c: nat): seq<Slot> {
    var q := Q(st.queues, CondQ(c));
    if op.CondWait? && op.c == c then q + [st.cur]
    else if op == Signal(c) then (if q == [] then [] else q[1..])
    else if op == Broadcast(c) then []
    else q
  }

  lemma SameCondAfter(st: State, st0: State, op: Op, c: nat)
    requires st0.queues == st.queues && st0.cur == st.cur
    ensures CondAfter(st0, op, c) == CondAfter(st, op, c)
  {
  }

  /**
   The queue of a condition changes only as its own calls say: a waiter is in
   it from the very step that gave up the mutex, and stays until signalled.
   */
  lemma ConditionQueue(st: State, e: Event, r: State, c: nat)
    requires Inv(st) && Follows(st, e, r) && !e.op.Kill?
    ensures Q(r.queues, CondQ(c)) == CondAfter(st, e.op, c)
  {
    var st0 := Later(st, e.dt);
    hide Inv, CondAfter, Segment;
    InvLater(st, e.dt);
    SegmentKeeps(st0, e.op);
    SegmentCond(st0, e.op, c);
    SameCondAfter(st, st0, e.op, c);
    var seg := Segment(st0, e.op);
    if seg.parked {
      UntouchedDispatch(seg.st);
    }
  }

  /** No condition queue differs between the two states. */
  ghost predicate SameConds(st: State, r: State) {
    forall c: nat {:trigger Q(r.queues, CondQ(c))} :: Q(r.queues, CondQ(c)) == Q(st.queues, CondQ(c))
  }

  lemma SegmentCondProc(st: State, op: Op)
    requires Linked(st, st.cur) && ProcOp(op) && !op.Kill?
    ensures SameConds(st, Segment(st, op).st)
  {
    hide Linked, Q;
    match op
    case Tick => ParkCond(st, 0);
    case Sleep(d) => ParkCond(st, d);
    case Exit => ExitCond(st);
    case Spawn => SpawnCond(st);
    case Wait(pid) => WaitCond(st, pid);
    case _ =>
  }

  lemma SegmentCondQueue(st: State, op: Op, c: nat)
    requires QueueOp(op)
    ensures Q(Segment(st, op).st.queues, CondQ(c)) == CondAfter(st, op, c)
  {
    hide WakeOne, WakeAll, BlockOn, Q;
    match op
    case Block(q) => BlockCond(st, UserQ(q), User);
    case UnblockOne(q) => WakeCond(st, UserQ(q), c);
    case UnblockAll(q) => WakeCond(st, UserQ(q), c);
    case Signal(c') => WakeCond(st, CondQ(c'), c);
    case Broadcast(c') => WakeCond(st, CondQ(c'), c);
    case _ =>
  }

  lemma SegmentCondLock(st: State, op: Op)
    requires Inv(st) && (op.Acquire? || op.Unlock? || op.Resume?)
    ensures SameConds(st, Segment(st, op).st)
  {
    hide AcquireThen, ResumeSeg, SameConds;
    match op
    case Acquire(l) => AcquireCond(st, UserLock(l));
    case Unlock(l) => ReleaseCond(st, UserLock(l));
    case Resume => ResumeCond(st);
    case _ =>
  }

  lemma SegmentCondCore(st: State, op: Op)
    requires Inv(st) && (op.Up? || op.Down? || op.BarrierWait?)
    ensures SameConds(st, Segment(st, op).st)
  {
    hide Inv, SameConds, AcquireThen, UpCore, DownCore, BarrierCore;
    match op
    case Up(s) => UpIsCore(st, s); CoreCond(st, s);
    case Down(s) => DownIsCore(st, s); CoreCond(st, s);
    case BarrierWait(b) => BarrierIsCore(st, b); CoreCond(st, b);
    case _ =>
  }

  lemma SegmentCond(st: State, op: Op, c: nat)
    requires Inv(st) && !op.Kill?
    ensures Q(Segment(st, op).st.queues, CondQ(c)) == CondAfter(st, op, c)
  {
    assert Linked(st, st.cur);
    hide Inv, Linked, Segment;
    if QueueOp(op) {
      SegmentCondQueue(st, op, c);
    } else if op.CondWait? {
      SegmentWaits(st, op, c);
    } else {
      SegmentSameConds(st, op);
      assert Q(Segment(st, op).st.queues, CondQ(c)) == Q(st.queues, CondQ(c));
    }
  }

  lemma SegmentWaits(st: State, op: Op, c: nat)
    requires Linked(st, st.cur) && op.CondWait?
    ensures Q(Segment(st, op).st.queues, CondQ(c)) == CondAfter(st, op, c)
  {
    hide Linked, CondWaitSeg;
    WaitsCond(st, UserLock(op.l), op.c, c);
  }

  lemma SegmentSameConds(st: State, op: Op)
    requires Inv(st) && !op.Kill? && !QueueOp(op) && !op.CondWait?
    ensures SameConds(st, Segment(st, op).st)
  {
    assert Linked(st, st.cur);
    hide Inv, Segment, SameConds;
    if ProcOp(op) {
      SegmentCondProc(st, op);
    } else if op.Acquire? || op.Unlock? || op.Resume? {
      SegmentCondLock(st, op);
    } else {
      SegmentCondCore(st, op);
    }
  }

  lemma ParkCond(st: State, d: nat)
    ensures SameConds(st, ParkReady(st)) && SameConds(st, ParkSleeping(st, d))
  {
  }

  lemma ExitCond(st: State)
    requires Linked(st, st.cur)
    ensures SameConds(st, ParkExited(st))
  {
    ExitUntouched(st);
  }

  lemma SpawnCond(st: State)
    ensures SameConds(st, SpawnTask(st))
  {
  }

  lemma BlockCond(st: State, q: QueueId, k: Cont)
    requires !q.CondQ?
    ensures SameConds(st, BlockOn(st, q, k).st)
  {
  }

  lemma WaitCond(st: State, pid: nat)
    ensures SameConds(st, WaitSeg(st, pid).st)
  {
  }

  lemma AcquireCond(st: State, l: LockId)
    ensures SameConds(st, AcquireThen(st, l, Return).st)
  {
  }

  lemma ReleaseCond(st: State, l: LockId)
    requires Linked(st, st.cur)
    ensures SameConds(st, Release(st, l))
  {
    UntouchedRelease(st, st.cur, l);
  }

  lemma WakeCond(st: State, q: QueueId, c: nat)
    ensures Q(WakeOne(st, q).queues, CondQ(c)) == var s := Q(st.queues, CondQ(c));
      if q == CondQ(c) && s != [] then s[1..] else s
    ensures Q(WakeAll(st, q).queues, CondQ(c)) == if q == CondQ(c) then [] else Q(st.queues, CondQ(c))
  {
  }

  lemma CoreCond(st: State, n: nat)
    ensures SameConds(st, UpCore(st, n).st) && SameConds(st, DownCore(st, n).st)
    ensures SameConds(st, BarrierCore(st, n).st)
  {
    QUpdated(st.queues, SemQ(n), if Q(st.queues, SemQ(n)) == [] then [] else Q(st.queues, SemQ(n))[1..]);
  }

  lemma WaitsCond(st: State, l: LockId, c': nat, c: nat)
    requires Linked(st, st.cur)
    ensures Q(CondWaitSeg(st, l, c').st.queues, CondQ(c)) ==
      if c' == c then Q(st.queues, CondQ(c)) + [st.cur] else Q(st.queues, CondQ(c))
  {
    UntouchedRelease(st, st.cur, l);
    ReleaseCur(st, l);
    assert Q(Release(st, l).queues, CondQ(c)) == Q(st.queues, CondQ(c));
  }

  lemma ResumeCond(st: State)
    requires Inv(st)
    ensures SameConds(st, ResumeSeg(st).st)
  {
    match st.pcb[st.cur].cont
    case User =>
    case Acquiring(l, k) => AcquireCond(st, l);
    case DownWoken(s) => DownIsCore(st, s); CoreCond(st, s);
    case BarrierWoken(b, g) => BarrierTailIsFinish(st, b, g);
    case CondWoken(l) => AcquireCond(st, l);
  }

  /**
   condition_wait returns to user code only with the mutex in the caller's
   hands; until then the caller sleeps on the mutex and will try again.
   */
  lemma ConditionReturn(st: State, l: LockId)
    requires Inv(st)
    requires st.pcb[st.cur].cont == CondWoken(l) || st.pcb[st.cur].cont == Acquiring(l, Return)
    ensures var seg := Segment(st, Resume);
      if seg.parked then
        && l in st.locked && st.cur in Q(seg.st.queues, LockQ(l))
        && seg.st.pcb[st.cur].cont == Acquiring(l, Return)
      else
        && seg.st.cur == st.cur && seg.st.pcb[st.cur].cont == User
        && l in seg.st.pcb[st.cur].holding && l in seg.st.locked
        && forall p: Slot :: p != st.cur ==> l !in seg.st.pcb[p].holding
  {
    SegmentKeeps(st, Resume);
    var seg := Segment(st, Resume);
    if seg.parked {
      assert Q(seg.st.queues, LockQ(l)) == Q(st.queues, LockQ(l)) + [st.cur];
    } else {
      var h := st.pcb[st.cur].holding;
      assert (h + [l])[|h|] == l;
      assert l in seg.st.pcb[st.cur].holding;
    }
  }

  // -------------------------------------------------------------------- sleep

  /** In the ready queue, SLEEPING until `t`. */
  ghost predicate Asleep(st: State, p: Slot, t: nat) {
    p in st.ready && st.pcb[p].status == Sleeping && st.pcb[p].sleepEnd == t
  }

  /** The dispatch loop passes over a sleeper whose time has not come. */
  lemma {:induction false} DispatchSleeper(st: State, p: Slot, t: nat)
    requires Linked(st, -1) && Owners(st) && HasWork(st) && Asleep(st, p, t) && st.time < t
    ensures Asleep(Dispatch(st), p, t) && Dispatch(st).cur != p
    decreases CountIn(Departing(st), st.ready), FirstIn(Workers(st), st.ready)
  {
    if Eligible(st, st.ready[0]) {
      assert p in st.ready[1..];
    } else {
      TurnProgress(st);
      TurnKeepsOwners(st);
      TurnReady(st);
      if p != st.ready[0] {
        assert p in st.ready[1..];
        TurnOthers(st, p);
      }
      DispatchSleeper(Turn(st), p, t);
    }
  }

  /** The clock moves between steps, never inside one. */
  lemma StepTime(st: State, e: Event, r: State)
    requires Inv(st) && Follows(st, e, r)
    ensures r.time == st.time + e.dt
  {
    var st0 := Later(st, e.dt);
    InvLater(st, e.dt);
    SegmentKeeps(st0, e.op);
    SegmentTime(st0, e.op);
    hide Segment, Dispatch, Untouched, Disciplined;
    if Segment(st0, e.op).parked {
      DispatchTime(Segment(st0, e.op).st);
    }
  }

  lemma DispatchTime(st: State)
    requires Linked(st, -1) && HasWork(st)
    ensures Dispatch(st).time == st.time
  {
    UntouchedDispatch(st);
  }

  lemma SegmentSleeper(st: State, op: Op, p: Slot, t: nat)
    requires Inv(st) && Disciplined(st, op) && Asleep(st, p, t)
    requires op.Kill? ==> FindLive(st.pcb, op.pid, 0) != Some(p)
    ensures Asleep(Segment(st, op).st, p, t)
  {
    if op.Kill? {
      var k :| 0 <= k < |st.ready| && st.ready[k] == p;
      var k' := KillNearer(st, op.pid, p, k);
    } else {
      hide Segment, Inv, Disciplined;
      SegmentLeaves(st, op, p);
    }
  }

  /** The end of a step with the sleeper still asleep after the kernel code. */
  lemma EndSleeper(st0: State, op: Op, p: Slot, t: nat)
    requires Inv(st0) && Disciplined(st0, op) && st0.time < t
    requires var seg := Segment(st0, op);
      Asleep(seg.st, p, t) && seg.st.time == st0.time && (seg.parked ==> HasWork(seg.st))
    ensures var seg := Segment(st0, op); var r := if seg.parked then Dispatch(seg.st) else seg.st;
      Asleep(r, p, t) && r.cur != p
  {
    SegmentKeeps(st0, op);
    hide Segment, Disciplined, HasWork, Dispatch;
    var seg := Segment(st0, op);
    if seg.parked {
      DispatchSleeper(seg.st, p, t);
    } else {
      assert p in seg.st.ready;
    }
  }

  lemma StepSleeper(st: State, e: Event, r: State, p: Slot, t: nat)
    requires Inv(st) && Follows(st, e, r) && !Kills(st, e, p) && Asleep(st, p, t) && r.time < t
    ensures Asleep(r, p, t) && r.cur != p
  {
    hide Segment, Dispatch, Disciplined, Inv, HasWork;
    StepTime(st, e, r);
    InvLater(st, e.dt);
    var st0 := Later(st, e.dt);
    LaterSame(st, e.op, e.dt);
    SegmentSleeper(st0, e.op, p, t);
    SegmentTime(st0, e.op);
    EndSleeper(st0, e.op, p, t);
  }

  /** What a caller may do does not depend on the clock. */
  lemma LaterSame(st: State, op: Op, dt: nat)
    requires Disciplined(st, op)
    ensures Disciplined(Later(st, dt), op)
  {
  }

  /** A call of sleep does not return before its time: until then the caller is never dispatched. */
  lemma {:induction false} SleepLasts(run: seq<State>, es: seq<Event>, n: nat, d: nat, p: Slot)
    requires IsRun(run, es) && Inv(run[0]) && 1 <= n <= |es| && es[0].op == Sleep(d) && p == run[0].cur
    requires forall j :: 0 <= j < n ==> !Kills(run[j], es[j], p)
    requires run[n].time < run[0].time + es[0].dt + d
    ensures run[n].cur != p && Asleep(run[n], p, run[0].time + es[0].dt + d)
  {
    var t := run[0].time + es[0].dt + d;
    RunKeeps(run, es, n - 1);
    assert Follows(run[n - 1], es[n - 1], run[n - 1 + 1]);
    StepTime(run[n - 1], es[n - 1], run[n]);
    if n == 1 {
      FallsAsleep(run[0], es[0], run[1], d);
    } else {
      SleepLasts(run, es, n - 1, d, p);
      StepSleeper(run[n - 1], es[n - 1], run[n], p, t);
    }
  }

  lemma FallsAsleep(st: State, e: Event, r: State, d: nat)
    requires Inv(st) && Follows(st, e, r) && e.op == Sleep(d) && d > 0
    ensures Asleep(r, st.cur, st.time + e.dt + d) && r.cur != st.cur
  {
    var st0 := Later(st, e.dt);
    InvLater(st, e.dt);
    SegmentKeeps(st0, e.op);
    DispatchSleeper(ParkSleeping(st0, d), st.cur, st.time + e.dt + d);
  }
}
