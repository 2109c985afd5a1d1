/**
 Semaphores and barriers over whole runs (kernel/locking/sem.c, barrier.c):
 conservation of units, no lost wake-up, and no early return.
 */
module Sync {
  import opened Prelude
  import opened KernelState
  import opened Scheduler
  import opened Linkage
  import opened Mutexes
  import opened Syscalls
  import opened Invariant
  import opened Steps

  /** What semaphores and barriers can see of a process. */
  function Seen(b: Pcb): Cont {
    if b.status != Exited && (b.cont.DownWoken? || b.cont.BarrierWoken?) then b.cont else User
  }

  /** The processes woken by `up` that have not yet retried their `down`. */
  function Retrying(st: State, s: nat): set<Slot> {
    set p: Slot | 0 <= p < NUM_MAX_TASK && Seen(st.pcb[p]) == DownWoken(s) && p !in Q(st.queues, SemQ(s))
  }

  /**
   Units are conserved and never go below zero (or a negative start). While the
   run is calm, that is without a kill so far, they never lie idle while
   somebody sleeps either: each is matched by a retry in flight.
   */
  ghost predicate SemOk(st: State, s: nat, calm: bool) {
    var v := SemAt(st, s);
    && v.count == v.init + v.ups - v.downs
    && (v.count >= 0 || v.count >= v.init)
    && (calm && Q(st.queues, SemQ(s)) != [] ==> v.count <= |Retrying(st, s)|)
  }

  /**
   The count is below max and at least the number of sleepers, exactly that
   while the run is calm; every sleeper belongs to the current round and
   everyone on the way out to a completed one.
   */
  ghost predicate BarOk(st: State, b: nat, calm: bool) {
    var v := BarAt(st, b);
    v.max >= 1 ==>
      && |Q(st.queues, BarQ(b))| <= v.count < v.max
      && (calm ==> v.count == |Q(st.queues, BarQ(b))|)
      && v.arrivals == v.gen * v.max + v.count
      && forall p: Slot {:trigger st.pcb[p]} :: Seen(st.pcb[p]).BarrierWoken? && Seen(st.pcb[p]).bar == b ==>
           if p in Q(st.queues, BarQ(b)) then st.pcb[p].cont.gen == v.gen else st.pcb[p].cont.gen < v.gen
  }

  ghost predicate SyncOk(st: State, calm: bool) {
    (forall s: nat :: SemOk(st, s, calm)) && (forall b: nat :: BarOk(st, b, calm))
  }

  // -------------------------------------------------------------------- frame

  ghost predicate SameSync(st: State, r: State) {
    && r.sems == st.sems && r.bars == st.bars
    && (forall q: QueueId {:trigger Q(r.queues, q)} :: q.SemQ? || q.BarQ? ==> Q(r.queues, q) == Q(st.queues, q))
    && (forall p: Slot {:trigger r.pcb[p]} :: Seen(r.pcb[p]) == Seen(st.pcb[p]))
  }

  lemma SameSem(st: State, r: State, s: nat, calm: bool)
    requires SemOk(st, s, calm) && SemAt(r, s) == SemAt(st, s) && Q(r.queues, SemQ(s)) == Q(st.queues, SemQ(s))
    requires forall p: Slot {:trigger r.pcb[p]} ::
      Seen(r.pcb[p]) == DownWoken(s) <==> Seen(st.pcb[p]) == DownWoken(s)
    ensures SemOk(r, s, calm)
  {
    assert Retrying(r, s) == Retrying(st, s);
  }

  lemma SameBar(st: State, r: State, b: nat, calm: bool)
    requires BarOk(st, b, calm) && BarAt(r, b) == BarAt(st, b) && Q(r.queues, BarQ(b)) == Q(st.queues, BarQ(b))
    requires forall p: Slot {:trigger r.pcb[p]} ::
      Seen(r.pcb[p]).BarrierWoken? && Seen(r.pcb[p]).bar == b ==> Seen(r.pcb[p]) == Seen(st.pcb[p])
    ensures BarOk(r, b, calm)
  {
  }

  lemma SameSyncKeeps(st: State, r: State, calm: bool)
    requires SyncOk(st, calm) && SameSync(st, r)
    ensures SyncOk(r, calm)
  {
    forall s: nat
      ensures SemOk(r, s, calm)
    {
      SameSem(st, r, s, calm);
    }
    forall b: nat
      ensures BarOk(r, b, calm)
    {
      SameBar(st, r, b, calm);
    }
  }

  lemma UntouchedSync(st: State, r: State)
    requires Untouched(st, r)
    ensures SameSync(st, r)
  {
  }

  // --------------------------------------------------------------- semaphores

  lemma RetryingGrows(st: State, r: State, s: nat, p: Slot)
    requires p in Q(st.queues, SemQ(s)) && Seen(st.pcb[p]) == DownWoken(s)
    requires forall p': Slot {:trigger r.pcb[p']} :: Seen(r.pcb[p']) == Seen(st.pcb[p'])
    requires forall p': Slot :: p' in Q(st.queues, SemQ(s)) <==> p' == p || p' in Q(r.queues, SemQ(s))
    requires p !in Q(r.queues, SemQ(s))
    ensures |Retrying(r, s)| == |Retrying(st, s)| + 1
  {
    assert Retrying(r, s) == Retrying(st, s) + {p};
  }

  /** up: the new unit comes with one more retry in flight, or nobody sleeps. */
  lemma PlusKeeps(st: State, s: nat, t: nat, calm: bool)
    requires Linked(st, st.cur) && Conts(st) && SemOk(st, t, calm)
    ensures SemOk(SemPlus(st, s), t, calm)
  {
    var r := SemPlus(st, s);
    var q := Q(st.queues, SemQ(s));
    var v := SemAt(st, s);
    var st1 := SetSem(st, s, v.(count := v.count + 1, ups := v.ups + 1));
    if q != [] {
      assert q[0] in q;
      QUpdated(st.queues, SemQ(s), q[1..]);
      WakeSeen(st1, SemQ(s));
      if t == s {
        NoDupTail(q);
        RetryingGrows(st, r, s, q[0]);
      } else {
        SameSem(st, r, t, calm);
      }
    } else if t != s {
      SameSem(st, r, t, calm);
    }
  }

  lemma WakeSeen(st: State, q: QueueId)
    requires Linked(st, st.cur)
    ensures forall p: Slot {:trigger WakeOne(st, q).pcb[p]} :: Seen(WakeOne(st, q).pcb[p]) == Seen(st.pcb[p])
  {
    var s := Q(st.queues, q);
    if s != [] {
      assert s[0] in s;
    }
  }

  /** down taking a unit, by a newcomer or by the retry that was promised one. */
  lemma MinusKeeps(st: State, s: nat, t: nat, calm: bool)
    requires st.cur !in Q(st.queues, SemQ(s)) && SemOk(st, t, calm) && SemAt(st, s).count > 0
    requires Seen(st.pcb[st.cur]) in {User, DownWoken(s)}
    ensures SemOk(Finish(SemMinus(st, s)).st, t, calm)
  {
    var r := Finish(SemMinus(st, s)).st;
    if t == s {
      assert Retrying(r, s) == Retrying(st, s) - {st.cur};
    } else {
      SameSem(st, r, t, calm);
    }
  }

  /** down finding nothing: the caller joins the sleepers with no unit about. */
  lemma EmptyKeeps(st: State, s: nat, t: nat, calm: bool)
    requires st.cur !in Q(st.queues, SemQ(s)) && SemOk(st, t, calm) && SemAt(st, s).count <= 0
    requires Seen(st.pcb[st.cur]) in {User, DownWoken(s)}
    ensures SemOk(BlockOn(st, SemQ(s), DownWoken(s)).st, t, calm)
  {
    var r := BlockOn(st, SemQ(s), DownWoken(s)).st;
    QUpdated(st.queues, SemQ(s), Q(st.queues, SemQ(s)) + [st.cur]);
    if t != s {
      SameSem(st, r, t, calm);
    }
  }

  // ----------------------------------------------------------------- barriers

  lemma NextRound(gen: nat, max: int)
    ensures (gen + 1) * max == gen * max + max
  {
  }

  /** The last arrival opens the barrier for exactly its own round. */
  lemma OpensKeeps(st: State, b: nat, c: nat, calm: bool)
    requires Linked(st, st.cur) && BarOk(st, c, calm) && BarAt(st, b).count + 1 == BarAt(st, b).max
    requires Seen(st.pcb[st.cur]) == User
    ensures BarOk(Finish(BarrierOpens(Arrive(st, b), b)).st, c, calm)
  {
    var r := Finish(BarrierOpens(Arrive(st, b), b)).st;
    OpenSeen(Arrive(st, b), BarQ(b));
    if c == b {
      NextRound(BarAt(st, b).gen, BarAt(st, b).max);
    } else {
      SameBar(st, r, c, calm);
    }
  }

  lemma OpenSeen(st: State, q: QueueId)
    requires Linked(st, st.cur)
    ensures forall p: Slot {:trigger WakeAll(st, q).pcb[p]} :: Seen(WakeAll(st, q).pcb[p]) == Seen(st.pcb[p])
  {
  }

  /** An earlier arrival joins the sleepers of the current round. */
  lemma JoinKeeps(st: State, b: nat, c: nat, calm: bool)
    requires st.cur !in Q(st.queues, BarQ(b)) && BarOk(st, c, calm) && BarAt(st, b).count + 1 != BarAt(st, b).max
    requires Seen(st.pcb[st.cur]) == User && Live(st, st.cur)
    ensures BarOk(BlockOn(Arrive(st, b), BarQ(b), BarrierWoken(b, BarAt(st, b).gen)).st, c, calm)
  {
    var r := BlockOn(Arrive(st, b), BarQ(b), BarrierWoken(b, BarAt(st, b).gen)).st;
    QUpdated(st.queues, BarQ(b), Q(st.queues, BarQ(b)) + [st.cur]);
    if c != b {
      SameBar(st, r, c, calm);
    }
  }

  // -------------------------------------------------------------------- steps

  lemma SyncUp(st: State, s: nat, calm: bool)
    requires Inv(st) && SyncOk(st, calm) && Seen(st.pcb[st.cur]) == User
    ensures SyncOk(UpCore(st, s).st, calm)
  {
    var st1 := SemPlus(st, s);
    forall t: nat
      ensures SemOk(st1, t, calm)
    {
      PlusKeeps(st, s, t, calm);
    }
    forall b: nat
      ensures BarOk(st1, b, calm)
    {
      PlusBar(st, s, b, calm);
    }
    PlusCur(st, s);
    SameSyncKeeps(st1, SetCont(st1, User), calm);
  }

  lemma PlusCur(st: State, s: nat)
    requires st.cur !in Q(st.queues, SemQ(s))
    ensures SemPlus(st, s).cur == st.cur && SemPlus(st, s).pcb[st.cur] == st.pcb[st.cur]
  {
  }

  lemma PlusBar(st: State, s: nat, b: nat, calm: bool)
    requires Linked(st, st.cur) && BarOk(st, b, calm)
    ensures BarOk(SemPlus(st, s), b, calm)
  {
    var v := SemAt(st, s);
    WakeSeen(SetSem(st, s, v.(count := v.count + 1, ups := v.ups + 1)), SemQ(s));
    QUpdated(st.queues, SemQ(s), if Q(st.queues, SemQ(s)) == [] then [] else Q(st.queues, SemQ(s))[1..]);
    SameBar(st, SemPlus(st, s), b, calm);
  }

  lemma SyncDown(st: State, s: nat, calm: bool)
    requires Inv(st) && SyncOk(st, calm) && Seen(st.pcb[st.cur]) in {User, DownWoken(s)}
    ensures SyncOk(DownCore(st, s).st, calm)
  {
    var r := DownCore(st, s).st;
    forall t: nat
      ensures SemOk(r, t, calm)
    {
      if SemAt(st, s).count <= 0 { EmptyKeeps(st, s, t, calm); } else { MinusKeeps(st, s, t, calm); }
    }
    QUpdated(st.queues, SemQ(s), Q(st.queues, SemQ(s)) + [st.cur]);
    forall b: nat
      ensures BarOk(r, b, calm)
    {
      SameBar(st, r, b, calm);
    }
  }

  lemma SyncBarrier(st: State, b: nat, calm: bool)
    requires Inv(st) && SyncOk(st, calm) && Seen(st.pcb[st.cur]) == User
    ensures SyncOk(BarrierCore(st, b).st, calm)
  {
    var r := BarrierCore(st, b).st;
    var opens := BarAt(st, b).count + 1 == BarAt(st, b).max;
    forall c: nat
      ensures BarOk(r, c, calm)
    {
      if opens { OpensKeeps(st, b, c, calm); } else { JoinKeeps(st, b, c, calm); }
    }
    if opens {
      OpenSeen(Arrive(st, b), BarQ(b));
    } else {
      QUpdated(st.queues, BarQ(b), Q(st.queues, BarQ(b)) + [st.cur]);
    }
    forall s: nat
      ensures SemOk(r, s, calm)
    {
      SameSem(st, r, s, calm);
    }
  }

  /** Returning from barrier_wait. */
  lemma SyncReturn(st: State, calm: bool)
    requires SyncOk(st, calm) && !Seen(st.pcb[st.cur]).DownWoken?
    ensures SyncOk(Finish(st).st, calm)
  {
    var r := Finish(st).st;
    forall s: nat
      ensures SemOk(r, s, calm)
    {
      SameSem(st, r, s, calm);
    }
    forall b: nat
      ensures BarOk(r, b, calm)
    {
      SameBar(st, r, b, calm);
    }
  }

  /** Blocking on anything but a semaphore or a barrier. */
  lemma SameBlockOn(st: State, q: QueueId, c: Cont)
    requires Seen(st.pcb[st.cur]) == User && !q.SemQ? && !q.BarQ? && !c.DownWoken? && !c.BarrierWoken?
    ensures SameSync(st, BlockOn(st, q, c).st)
  {
    QUpdated(st.queues, q, Q(st.queues, q) + [st.cur]);
  }

  lemma SameRelease(st: State, l: LockId)
    requires Linked(st, st.cur)
    ensures SameSync(st, Release(st, l)) && Release(st, l).cur == st.cur
    ensures Seen(Release(st, l).pcb[st.cur]) == Seen(st.pcb[st.cur])
  {
    ReleaseSpec(st, l);
  }

  lemma SameSyncTrans(st: State, st1: State, r: State)
    requires SameSync(st, st1) && SameSync(st1, r)
    ensures SameSync(st, r)
  {
  }

  lemma SameCondWait(st: State, l: LockId, c: nat)
    requires Linked(st, st.cur) && Seen(st.pcb[st.cur]) == User
    ensures SameSync(st, CondWaitSeg(st, l, c).st)
  {
    SameRelease(st, l);
    SameBlockOn(Release(st, l), CondQ(c), CondWoken(l));
    SameSyncTrans(st, Release(st, l), CondWaitSeg(st, l, c).st);
  }

  lemma SameAcquire(st: State, l: LockId)
    requires Seen(st.pcb[st.cur]) == User
    ensures SameSync(st, AcquireThen(st, l, Return).st)
  {
    if l in st.locked {
      SameBlockOn(st, LockQ(l), Acquiring(l, Return));
    }
  }

  lemma SameWakes(st: State, q: QueueId)
    requires Linked(st, st.cur) && !q.SemQ? && !q.BarQ?
    ensures SameSync(st, WakeOne(st, q)) && SameSync(st, WakeAll(st, q))
  {
    WakeSeen(st, q);
    OpenSeen(st, q);
    if Q(st.queues, q) != [] {
      QUpdated(st.queues, q, Q(st.queues, q)[1..]);
    }
  }

  lemma SameExit(st: State)
    requires Linked(st, st.cur) && Seen(st.pcb[st.cur]) == User
    ensures SameSync(st, ParkExited(st))
  {
    var st1 := SetPcb(st, st.cur, st.pcb[st.cur].(status := Exited));
    UntouchedReap(st1, st.cur);
    UntouchedSync(st1, Reap(st1));
    SameSyncTrans(st, st1, Reap(st1));
  }

  lemma SameSpawn(st: State)
    ensures SameSync(st, SpawnTask(st))
  {
    var f := FindExited(st.pcb, 0);
    if f.Some? {
      QUpdated(st.queues, Waiting(f.value), []);
    }
  }

  lemma SegmentSameProc(st: State, op: Op)
    requires Linked(st, st.cur) && Seen(st.pcb[st.cur]) == User && Live(st, st.cur)
    requires !op.Kill? && !op.Up? && !op.Down? && !op.BarrierWait? && !op.Resume?
    requires ProcOp(op)
    ensures SameSync(st, Segment(st, op).st)
  {
    match op
    case Exit => SameExit(st);
    case Spawn => SameSpawn(st);
    case Wait(pid) =>
      var f := FindLive(st.pcb, pid, 0);
      if f.Some? { SameBlockOn(st, Waiting(f.value), User); }
    case _ =>
  }

  lemma SegmentSameQueue(st: State, op: Op)
    requires Linked(st, st.cur) && Seen(st.pcb[st.cur]) == User && Live(st, st.cur)
    requires !op.Kill? && !op.Up? && !op.Down? && !op.BarrierWait? && !op.Resume?
    requires QueueOp(op)
    ensures SameSync(st, Segment(st, op).st)
  {
    hide SameSync, Linked, BlockOn, WakeOne, WakeAll;
    match op
    case Block(q) => SameBlockOn(st, UserQ(q), User);
    case UnblockOne(q) => SameWakes(st, UserQ(q));
    case UnblockAll(q) => SameWakes(st, UserQ(q));
    case Signal(c) => SameWakes(st, CondQ(c));
    case Broadcast(c) => SameWakes(st, CondQ(c));
    case _ =>
  }

  lemma SegmentSameLock(st: State, op: Op)
    requires Linked(st, st.cur) && Seen(st.pcb[st.cur]) == User && Live(st, st.cur)
    requires !op.Kill? && !op.Up? && !op.Down? && !op.BarrierWait? && !op.Resume?
    requires !ProcOp(op) && !QueueOp(op)
    ensures SameSync(st, Segment(st, op).st)
  {
    match op
    case Acquire(l) => SameAcquire(st, UserLock(l));
    case Unlock(l) => SameRelease(st, UserLock(l));
    case CondWait(l, c) => SameCondWait(st, UserLock(l), c);
    case _ =>
  }

  lemma SegmentSame(st: State, op: Op)
    requires Linked(st, st.cur) && Seen(st.pcb[st.cur]) == User && Live(st, st.cur)
    requires !op.Kill? && !op.Up? && !op.Down? && !op.BarrierWait? && !op.Resume?
    ensures SameSync(st, Segment(st, op).st)
  {
    hide Segment, Linked;
    if ProcOp(op) {
      SegmentSameProc(st, op);
    } else if QueueOp(op) {
      SegmentSameQueue(st, op);
    } else {
      SegmentSameLock(st, op);
    }
  }

  lemma SyncSegmentProc(st: State, op: Op, calm: bool)
    requires Inv(st) && SyncOk(st, calm) && Enabled(st, op) && !op.Kill?
    requires ProcOp(op)
    ensures SyncOk(Segment(st, op).st, calm)
  {
    assert Linked(st, st.cur) && Live(st, st.cur);
    SegmentSame(st, op);
    SameSyncKeeps(st, Segment(st, op).st, calm);
  }

  lemma SyncSegmentQueue(st: State, op: Op, calm: bool)
    requires Inv(st) && SyncOk(st, calm) && Enabled(st, op) && !op.Kill?
    requires QueueOp(op)
    ensures SyncOk(Segment(st, op).st, calm)
  {
    assert Linked(st, st.cur) && Live(st, st.cur);
    SegmentSame(st, op);
    SameSyncKeeps(st, Segment(st, op).st, calm);
  }

  lemma SyncSegmentLock(st: State, op: Op, calm: bool)
    requires Inv(st) && SyncOk(st, calm) && Enabled(st, op) && !op.Kill?
    requires !ProcOp(op) && !QueueOp(op)
    ensures SyncOk(Segment(st, op).st, calm)
  {
    assert Linked(st, st.cur) && Live(st, st.cur);
    match op
    case Up(s) => UpIsCore(st, s); SyncUp(st, s, calm);
    case Down(s) => DownIsCore(st, s); SyncDown(st, s, calm);
    case BarrierWait(b) => BarrierIsCore(st, b); SyncBarrier(st, b, calm);
    case Resume =>
      match st.pcb[st.cur].cont {
        case Acquiring(l, k) => SameAcquire(st, l); SameSyncKeeps(st, Segment(st, op).st, calm);
        case DownWoken(s) => DownIsCore(st, s); SyncDown(st, s, calm);
        case BarrierWoken(b, g) => BarrierTailIsFinish(st, b, g); SyncReturn(st, calm);
        case CondWoken(l) => SameAcquire(st, l); SameSyncKeeps(st, Segment(st, op).st, calm);
      }
    case _ => SegmentSame(st, op); SameSyncKeeps(st, Segment(st, op).st, calm);
  }

  lemma SyncSegment(st: State, op: Op, calm: bool)
    requires Inv(st) && SyncOk(st, calm) && Enabled(st, op) && !op.Kill?
    ensures SyncOk(Segment(st, op).st, calm)
  {
    hide Segment, Inv, SyncOk;
    if ProcOp(op) {
      SyncSegmentProc(st, op, calm);
    } else if QueueOp(op) {
      SyncSegmentQueue(st, op, calm);
    } else {
      SyncSegmentLock(st, op, calm);
    }
  }

  /** A kill leaves units and rounds as they were. */
  lemma KillSync(st: State, pid: nat)
    requires Inv(st) && SyncOk(st, false) && Disciplined(st, Kill(pid))
    ensures SyncOk(KillPid(st, pid), false)
  {
    var found := FindLive(st.pcb, pid, 0);
    if found.Some? {
      KillShape(st, found.value);
      hide KillSlot, KillSafe, FindLive;
      KilledSync(st, KillSlot(st, found.value), found.value);
    }
  }

  lemma KilledSync(st: State, r: State, p: Slot)
    requires SyncOk(st, false) && Killed(st, r, p)
    ensures SyncOk(r, false)
  {
    forall s: nat
      ensures SemOk(r, s, false)
    {
      assert SemOk(st, s, false);
    }
    forall b: nat
      ensures BarOk(r, b, false)
    {
      assert BarOk(st, b, false);
      WithoutLength(Q(st.queues, BarQ(b)), p);
    }
  }

  lemma WithoutLength(s: seq<Slot>, p: Slot)
    ensures |Without(s, p)| <= |s|
  {
  }

  /**
   Every disciplined step keeps semaphores and barriers sound, a kill included
   once the run is no longer calm.
   */
  lemma StepSync(st: State, dt: nat, op: Op, calm: bool)
    requires Inv(st) && SyncOk(st, calm) && Enabled(st, op) && Disciplined(st, op) && (calm ==> !op.Kill?)
    requires Step(st, dt, op).Some?
    ensures SyncOk(Step(st, dt, op).value, calm)
  {
    var st0 := Later(st, dt);
    InvLater(st, dt);
    SameSyncKeeps(st, st0, calm);
    if op.Kill? {
      KillSync(st0, op.pid);
    } else {
      SyncSegment(st0, op, calm);
    }
    if Segment(st0, op).parked {
      var st1 := Segment(st0, op).st;
      SegmentKeeps(st0, op);
      UntouchedDispatch(st1);
      UntouchedSync(st1, Dispatch(st1));
      SameSyncKeeps(st1, Dispatch(st1), calm);
    }
  }

  // --------------------------------------------------------------------- kill

  /** Killing `p` takes away the retry that semaphore `s` counts on for its sleepers. */
  predicate StealsWakeUp(st: State, s: nat, p: Slot) {
    && p in Retrying(st, s)
    && Q(st.queues, SemQ(s)) != []
    && SemAt(st, s).count == |Retrying(st, s)|
  }

  /** What a kill does to the sleepers and the retries of a semaphore. */
  lemma KillSem(st: State, s: nat, p: Slot)
    requires Linked(st, st.cur) && Live(st, p) && KillSafe(st, p)
    ensures var q, r := Q(st.queues, SemQ(s)), KillSlot(st, p);
      Q(r.queues, SemQ(s)) == Without(q, p) && Retrying(r, s) == Retrying(st, s) - {p} && r.sems == st.sems
  {
    KillShape(st, p);
    hide KillSlot, KillSafe;
    assert Seen(KillSlot(st, p).pcb[p]) == User;
  }

  /** A kill keeps a semaphore sound exactly when it steals no wake-up. */
  lemma KillSemIff(st: State, s: nat, p: Slot)
    requires Linked(st, st.cur) && SemOk(st, s, true) && Live(st, p) && KillSafe(st, p)
    ensures SemOk(KillSlot(st, p), s, true) <==> !StealsWakeUp(st, s, p)
  {
    KillSem(st, s, p);
    hide KillSlot, Linked, Retrying;
    var q := Q(st.queues, SemQ(s));
    if p in Retrying(st, s) {
      assert p !in q by { RetryingAwake(st, s, p); }
    } else {
      assert Retrying(st, s) - {p} == Retrying(st, s);
    }
  }

  lemma RetryingAwake(st: State, s: nat, p: Slot)
    requires p in Retrying(st, s)
    ensures p !in Q(st.queues, SemQ(s))
  {
  }

  /** A kill keeps a barrier sound exactly when its victim is not asleep on it. */
  lemma KillBarIff(st: State, b: nat, p: Slot)
    requires Linked(st, st.cur) && BarOk(st, b, true) && Live(st, p) && KillSafe(st, p) && BarAt(st, b).max >= 1
    ensures BarOk(KillSlot(st, p), b, true) <==> p !in Q(st.queues, BarQ(b))
  {
    var r := KillSlot(st, p);
    var q := Q(st.queues, BarQ(b));
    KillShape(st, p);
    hide KillSlot, KillSafe;
    if p in q {
      WithoutShorter(q, p);
    } else {
      assert Q(r.queues, BarQ(b)) == q;
    }
  }

  lemma {:induction false} WithoutShorter(s: seq<Slot>, p: Slot)
    requires p in s
    ensures |Without(s, p)| < |s|
  {
    if s[0] != p {
      assert p in s[1..];
      WithoutShorter(s[1..], p);
    }
  }
}
