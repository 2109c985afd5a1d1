/**
 The system calls and the timer interrupt as steps of one machine
 (kernel/sched/proc.c, kernel/locking/{lock,sem,barrier,cond}.c).

 Exceptions are taken with interrupts masked (arch/mips/kernel/entry.S:174-190),
 so a call is atomic up to its next do_block; what follows the block is a
 later step, `Resume`, of the same process.
 */
module Syscalls {
  import opened Prelude
  import opened KernelState
  import opened Scheduler

  /** The result of a stretch of kernel code: `parked` when it ended in the scheduler. */
  datatype Seg = Seg(st: State, parked: bool)

  function Finish(st: State): Seg {
    Seg(SetCont(st, User), false)
  }

  /** do_block, to be continued at `c`. */
  function BlockOn(st: State, q: QueueId, c: Cont): Seg {
    Seg(ParkBlocked(SetCont(st, c), q), true)
  }

  // ------------------------------------------ mutex, semaphore, barrier, cond

  function SetSem(st: State, s: nat, v: Sem): State {
    st.(sems := st.sems[s := v])
  }

  function SetBar(st: State, b: nat, v: Bar): State {
    st.(bars := st.bars[b := v])
  }

  /** do_mutex_lock_acquire followed by `k`; a blocked caller retries from here. */
  function AcquireThen(st: State, l: LockId, k: AfterLock): Seg {
    if l in st.locked then BlockOn(st, LockQ(l), Acquiring(l, k))
    else AfterAcquire(TakeLock(st, l), k)
  }

  function AfterAcquire(st: State, k: AfterLock): Seg {
    match k
    case Return => Finish(st)
    case UpBody(s) =>
      Finish(Release(SemPlus(st, s), SemLock(s)))
    case DownBody(s) =>
      if SemAt(st, s).count <= 0 then BlockOn(Release(st, SemLock(s)), SemQ(s), DownWoken(s))
      else Finish(Release(SemMinus(st, s), SemLock(s)))
    case BarrierBody(b) =>
      if BarAt(st, b).count + 1 == BarAt(st, b).max then
        Finish(Release(BarrierOpens(Arrive(st, b), b), BarLock(b)))
      else
        BlockOn(Release(Arrive(st, b), BarLock(b)), BarQ(b), BarrierWoken(b, BarAt(st, b).gen))
    case BarrierTail(b, _) =>
      Finish(Release(st, BarLock(b)))
  }

  /** count++ and do_unblock_one */
  function SemPlus(st: State, s: nat): State {
    var v := SemAt(st, s);
    WakeOne(SetSem(st, s, v.(count := v.count + 1, ups := v.ups + 1)), SemQ(s))
  }

  /** count-- */
  function SemMinus(st: State, s: nat): State {
    var v := SemAt(st, s);
    SetSem(st, s, v.(count := v.count - 1, downs := v.downs + 1))
  }

  /** count++ of a barrier */
  function Arrive(st: State, b: nat): State {
    var v := BarAt(st, b);
    SetBar(st, b, v.(count := v.count + 1, arrivals := v.arrivals + 1))
  }

  /** do_unblock_all and count = 0: a round is complete. */
  function BarrierOpens(st: State, b: nat): State {
    var v := BarAt(st, b);
    SetBar(WakeAll(st, BarQ(b)), b, v.(count := 0, gen := v.gen + 1))
  }

  /** do_condition_wait up to its do_block */
  function CondWaitSeg(st: State, l: LockId, c: nat): Seg {
    BlockOn(Release(st, l), CondQ(c), CondWoken(l))
  }

  /** A dispatched process goes on inside its system call. */
  function ResumeSeg(st: State): Seg {
    match st.pcb[st.cur].cont
    case User => Seg(st, false)
    case Acquiring(l, k) => AcquireThen(st, l, k)
    case DownWoken(s) => AcquireThen(st, SemLock(s), DownBody(s))
    case BarrierWoken(b, g) => AcquireThen(st, BarLock(b), BarrierTail(b, g))
    case CondWoken(l) => AcquireThen(st, l, Return)
  }

  // --------------------------------------------------------------- processes

  /** The first EXITED slot at or after `i`. */
  function FindExited(pcb: Table, i: nat): (r: Option<Slot>)
    requires i <= NUM_MAX_TASK
    ensures r.Some? ==> i <= r.value && pcb[r.value].status == Exited
                        && forall j: Slot :: i <= j < r.value ==> pcb[j].status != Exited
    ensures r.None? ==> forall j: Slot :: i <= j ==> pcb[j].status != Exited
    decreases NUM_MAX_TASK - i
  {
    if i == NUM_MAX_TASK then None
    else if pcb[i].status == Exited then Some(i)
    else FindExited(pcb, i + 1)
  }

  /** The first slot at or after `i` that is live and has this pid. */
  function FindLive(pcb: Table, pid: nat, i: nat): (r: Option<Slot>)
    requires i <= NUM_MAX_TASK
    ensures r.Some? ==> i <= r.value && pcb[r.value].pid == pid && pcb[r.value].status != Exited
    ensures r.None? ==> forall j: Slot :: i <= j ==> pcb[j].pid != pid || pcb[j].status == Exited
    decreases NUM_MAX_TASK - i
  {
    if i == NUM_MAX_TASK then None
    else if pcb[i].pid == pid && pcb[i].status != Exited then Some(i)
    else FindLive(pcb, pid, i + 1)
  }

  /**
   assign_task: `chan` keeps whatever the slot's last process left in it. To
   push a slot that is still queued ruins the ready queue: its next link becomes
   the end of the list, its prev link the old tail (LinkedQueue.Queue.Push).
   */
  function AssignTask(st: State, p: Slot): State {
    var b := Pcb(st.nextPid, Embryo, st.pcb[p].sleepEnd, st.pcb[p].chan, [], User);
    SetQueue(SetPcb(st, p, b), Waiting(p), [])
    .(ready := if p in st.ready then st.ready else st.ready + [p], nextPid := st.nextPid + 1,
      intact := st.intact && p !in st.ready)
  }

  function SpawnTask(st: State): State {
    match FindExited(st.pcb, 0)
    case None => st
    case Some(p) => AssignTask(st, p)
  }

  /** In the queue, and neither its head nor its tail. */
  predicate Inside(s: seq<Slot>, p: Slot) {
    p in s && s[0] != p && s[|s| - 1] != p
  }

  /**
   The body of kill. queue_remove on a channel that no longer holds the victim
   takes its last branch, and so unlinks the victim from the list it is really
   in; that does for an inner entry of the ready queue, and ruins the queue when
   the victim is its head or tail (LinkedQueue.Requeue).
   */
  function KillSlot(st: State, p: Slot): State {
    var st1 := SetPcb(st, p, st.pcb[p].(status := Exited));
    match st.pcb[p].chan
    case None => st1
    case Some(q) =>
      if p in Q(st.queues, q) then SetQueue(st1, q, Without(Q(st.queues, q), p)).(ready := st.ready + [p])
      else if p !in st.ready then st1.(ready := st.ready + [p])
      else st1.(ready := Without(st.ready, p) + [p], intact := st.intact && Inside(st.ready, p))
  }

  function KillPid(st: State, pid: nat): State {
    match FindLive(st.pcb, pid, 0)
    case None => st
    case Some(p) => KillSlot(st, p)
  }

  function WaitSeg(st: State, pid: nat): Seg {
    match FindLive(st.pcb, pid, 0)
    case None => Seg(st, false)
    case Some(p) =>
      if st.pcb[st.cur].pid == pid then Seg(st, false)
      else BlockOn(st, Waiting(p), User)
  }

  // ------------------------------------------------------------- the machine

  datatype Op =
    | Tick | Sleep(d: nat) | Exit | Spawn | Kill(pid: nat) | Wait(pid: nat)
    | Block(q: nat) | UnblockOne(q: nat) | UnblockAll(q: nat)
    | Acquire(l: nat) | Unlock(l: nat)
    | Up(s: nat) | Down(s: nat) | BarrierWait(b: nat)
    | CondWait(l: nat, c: nat) | Signal(c: nat) | Broadcast(c: nat)
    | Resume

  /** The steps of kernel/sched/proc.c and the timer, the bare queue calls, and the rest. */
  predicate ProcOp(op: Op) {
    op.Tick? || op.Sleep? || op.Exit? || op.Spawn? || op.Kill? || op.Wait?
  }

  predicate QueueOp(op: Op) {
    op.Block? || op.UnblockOne? || op.UnblockAll? || op.Signal? || op.Broadcast?
  }

  function Segment(st: State, op: Op): Seg {
    match op
    case Tick => Seg(ParkReady(st), true)
    case Sleep(d) => Seg(ParkSleeping(st, d), true)
    case Exit => Seg(ParkExited(st), true)
    case Spawn => Seg(SpawnTask(st), false)
    case Kill(pid) => Seg(KillPid(st, pid), false)
    case Wait(pid) => WaitSeg(st, pid)
    case Block(q) => BlockOn(st, UserQ(q), User)
    case UnblockOne(q) => Seg(WakeOne(st, UserQ(q)), false)
    case UnblockAll(q) => Seg(WakeAll(st, UserQ(q)), false)
    case Acquire(l) => AcquireThen(st, UserLock(l), Return)
    case Unlock(l) => Seg(Release(st, UserLock(l)), false)
    case Up(s) => AcquireThen(st, SemLock(s), UpBody(s))
    case Down(s) => AcquireThen(st, SemLock(s), DownBody(s))
    case BarrierWait(b) => AcquireThen(st, BarLock(b), BarrierBody(b))
    case CondWait(l, c) => CondWaitSeg(st, UserLock(l), c)
    case Signal(c) => Seg(WakeOne(st, CondQ(c)), false)
    case Broadcast(c) => Seg(WakeAll(st, CondQ(c)), false)
    case Resume => ResumeSeg(st)
  }

  /** User code runs user steps; kernel code resumes where it was. */
  predicate Enabled(st: State, op: Op) {
    op.Resume? <==> !st.pcb[st.cur].cont.User?
  }

  /** One step, `dt` time units after the last; None when the dispatch loop never ends. */
  function Step(st: State, dt: nat, op: Op): Option<State> {
    var seg := Segment(st.(time := st.time + dt), op);
    if !seg.parked then Some(seg.st)
    else if HasWork(seg.st) then Some(Dispatch(seg.st))
    else None
  }

  /** What the source leaves to its callers; each clause is shown to be exact in Discipline.dfy. */
  predicate Disciplined(st: State, op: Op) {
    match op
    case Unlock(l) => CanRelease(st, UserLock(l))
    case CondWait(l, _) => CanRelease(st, UserLock(l))
    case Kill(pid) => (match FindLive(st.pcb, pid, 0)
                       case None => true
                       case Some(p) => KillSafe(st, p))
    case Spawn => (match FindExited(st.pcb, 0)
                   case None => true
                   case Some(p) => p !in st.ready)
    case _ => true
  }

  /** Nobody else holds the lock. */
  predicate CanRelease(st: State, l: LockId) {
    l in st.pcb[st.cur].holding || l !in st.locked
  }

  /** Not the running process; and a `chan` left over from an earlier life only inside the ready queue. */
  predicate KillSafe(st: State, p: Slot) {
    p != st.cur && (st.pcb[p].chan.Some? ==> st.pcb[p].status == Blocked || Inside(st.ready, p))
  }
}
