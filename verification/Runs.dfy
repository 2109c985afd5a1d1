/** Whole runs of the machine: from boot, through any interleaving of steps. */
module Runs {
  import opened Prelude
  import opened KernelState
  import opened Scheduler
  import opened Linkage
  import opened Mutexes
  import opened Syscalls
  import opened Invariant
  import opened Steps
  import opened Sync
  import opened Fairness

  /** init_pcb: the shell is current_running in slot 0, still EMBRYO; all else is free. */
  function Boot(sems: map<nat, Sem>, bars: map<nat, Bar>): State {
    State(seq(NUM_MAX_TASK, i => if i == 0 then FREE_PCB.(pid := 1, status := Embryo) else FREE_PCB),
          0, [], map[], {}, sems, bars, 2, 0, 0, true)
  }

  /** Semaphores and barriers fresh from their init calls. */
  predicate Fresh(sems: map<nat, Sem>, bars: map<nat, Bar>) {
    && (forall s :: s in sems ==> sems[s] == Sem(sems[s].init, sems[s].init, 0, 0))
    && (forall b :: b in bars ==> bars[b] == Bar(0, bars[b].max, 0, 0))
  }

  lemma BootInv(sems: map<nat, Sem>, bars: map<nat, Bar>)
    requires Fresh(sems, bars)
    ensures Inv(Boot(sems, bars)) && SyncOk(Boot(sems, bars), true)
  {
  }

  /** One event of a run: a step, and the time since the last one. */
  datatype Event = Event(dt: nat, op: Op)

  ghost predicate Follows(st: State, e: Event, r: State) {
    Enabled(st, e.op) && Disciplined(st, e.op) && Step(st, e.dt, e.op) == Some(r)
  }

  /** `run[i]` is the state before event i. */
  ghost predicate IsRun(run: seq<State>, es: seq<Event>) {
    |run| == |es| + 1 && forall i :: 0 <= i < |es| ==> Follows(run[i], es[i], run[i + 1])
  }

  lemma RunTail(run: seq<State>, es: seq<Event>)
    requires IsRun(run, es) && es != []
    ensures IsRun(run[1..], es[1..]) && Follows(run[0], es[0], run[1..][0])
  {
    forall i | 0 <= i < |es[1..]|
      ensures Follows(run[1..][i], es[1..][i], run[1..][i + 1])
    {
      assert Follows(run[i + 1], es[i + 1], run[i + 2]);
    }
  }

  /** The invariant holds in every state of every run. */
  lemma {:induction false} RunKeeps(run: seq<State>, es: seq<Event>, n: nat)
    requires IsRun(run, es) && Inv(run[0]) && n <= |es|
    ensures Inv(run[n])
  {
    hide Inv;
    hide Step;
    if n != 0 {
      RunKeeps(run, es, n - 1);
      assert Follows(run[n - 1], es[n - 1], run[n]);
      StepKeeps(run[n - 1], es[n - 1].dt, es[n - 1].op);
    }
  }

  /**
   Semaphores and barriers are sound in every state of every run: units are
   conserved and never negative and rounds are kept apart; and as long as there
   was no kill, no wake-up is lost and barrier counts are exact.
   */
  lemma {:induction false} RunSync(run: seq<State>, es: seq<Event>, n: nat, calm: bool)
    requires IsRun(run, es) && Inv(run[0]) && SyncOk(run[0], calm) && n <= |es|
    requires calm ==> forall i :: 0 <= i < n ==> !es[i].op.Kill?
    ensures SyncOk(run[n], calm)
  {
    hide Inv;
    hide Step;
    if n != 0 {
      RunSync(run, es, n - 1, calm);
      RunKeeps(run, es, n - 1);
      assert Follows(run[n - 1], es[n - 1], run[n]);
      StepSync(run[n - 1], es[n - 1].dt, es[n - 1].op, calm);
    }
  }

  // -------------------------------------------------- what the invariant means

  /** The queue holding a live process: the ready queue, or the one it is blocked on. */
  ghost predicate InReady(st: State, p: Slot) { p in st.ready }

  ghost predicate InQueue(st: State, p: Slot, q: QueueId) { p in Q(st.queues, q) }

  /**
   In every state reachable from boot no live process is lost or linked twice:
   current_running is in no queue; any other is in the ready queue exactly when
   EMBRYO, READY or SLEEPING, and in exactly the queue named by `chan` when
   BLOCKED; and the scheduler has never printed its error.
   */
  lemma NobodyIsLost(sems: map<nat, Sem>, bars: map<nat, Bar>, run: seq<State>, es: seq<Event>, n: nat, p: Slot)
    requires Fresh(sems, bars) && IsRun(run, es) && run[0] == Boot(sems, bars) && n <= |es|
    ensures var st := run[n];
      && st.faults == 0 && st.intact
      && (p == st.cur ==> !InReady(st, p) && forall q :: !InQueue(st, p, q))
      && (p != st.cur && Live(st, p) ==>
            && (InReady(st, p) <==> st.pcb[p].status in {Embryo, Ready, Sleeping})
            && (forall q :: InQueue(st, p, q) <==> st.pcb[p].status == Blocked && st.pcb[p].chan == Some(q))
            && (InReady(st, p) || exists q :: InQueue(st, p, q)))
  {
    BootInv(sems, bars);
    RunKeeps(run, es, n);
    var st := run[n];
    if p != st.cur && st.pcb[p].status == Blocked {
      assert InQueue(st, p, st.pcb[p].chan.value);
    }
  }

  /** In every run a lock has one owner at most, and sleepers only while it has one. */
  lemma MutualExclusion(run: seq<State>, es: seq<Event>, n: nat, l: LockId)
    requires IsRun(run, es) && Inv(run[0]) && n <= |es|
    ensures var st := run[n];
      && (l in st.locked <==> exists p: Slot :: l in st.pcb[p].holding)
      && (forall p: Slot, p': Slot :: l in st.pcb[p].holding && l in st.pcb[p'].holding ==> p == p')
      && (Q(st.queues, LockQ(l)) != [] ==> l in st.locked)
      && (!l.UserLock? ==> l !in st.locked)
  {
    RunKeeps(run, es, n);
  }

  /** Nobody leaves a barrier before max arrivals of its own round, whoever is killed meanwhile. */
  lemma NoEarlyReturn(run: seq<State>, es: seq<Event>, n: nat, b: nat, p: Slot)
    requires IsRun(run, es) && Inv(run[0]) && SyncOk(run[0], false) && n <= |es|
    requires var st := run[n];
      Live(st, p) && st.pcb[p].cont.BarrierWoken? && st.pcb[p].cont.bar == b && BarAt(st, b).max >= 1
    ensures var st, v, g := run[n], BarAt(run[n], b), run[n].pcb[p].cont.gen;
      if p in Q(st.queues, BarQ(b)) then g * v.max < v.arrivals < (g + 1) * v.max
      else v.arrivals >= (g + 1) * v.max
  {
    RunSync(run, es, n, false);
    var st, v, g := run[n], BarAt(run[n], b), run[n].pcb[p].cont.gen;
    assert BarOk(st, b, false) && Seen(st.pcb[p]) == st.pcb[p].cont;
    NextRound(g, v.max);
    if p in Q(st.queues, BarQ(b)) {
      assert v.count >= 1;
    } else {
      Rounds(g + 1, v.gen, v.max);
    }
  }

  lemma Rounds(a: nat, b: nat, m: int)
    requires a <= b && m >= 0
    ensures a * m <= b * m
  {
  }

  // ----------------------------------------------------- semaphore accounting

  /** Event e, taken in `st`, completes a down on s. */
  predicate CompletesDown(st: State, e: Event, s: nat) {
    && (e.op == Down(s) || (e.op == Resume && st.pcb[st.cur].cont == DownWoken(s)))
    && SemAt(st, s).count > 0
  }

  /** Among the first n events: ups of s, and completed downs of s. */
  ghost function Ups(es: seq<Event>, n: nat, s: nat): nat
    requires n <= |es|
  {
    if n == 0 then 0 else Ups(es, n - 1, s) + if es[n - 1].op == Up(s) then 1 else 0
  }

  ghost function Downs(run: seq<State>, es: seq<Event>, n: nat, s: nat): nat
    requires n <= |es| <= |run|
  {
    if n == 0 then 0 else Downs(run, es, n - 1, s) + if CompletesDown(run[n - 1], es[n - 1], s) then 1 else 0
  }

  lemma SegmentCountProc(st: State, op: Op)
    requires ProcOp(op)
    ensures Segment(st, op).st.sems == st.sems
  {
    match op
    case Exit => ReapSpec(SetPcb(st, st.cur, st.pcb[st.cur].(status := Exited)));
    case _ =>
  }

  lemma SegmentCountQueue(st: State, op: Op)
    requires QueueOp(op)
    ensures Segment(st, op).st.sems == st.sems
  {
  }

  lemma SegmentCountLock(st: State, op: Op)
    requires Inv(st) && (op.Acquire? || op.Unlock? || op.CondWait? || op.BarrierWait?)
    ensures Segment(st, op).st.sems == st.sems
  {
    hide Inv, AcquireThen, BarrierCore, Release, CondWaitSeg;
    match op
    case BarrierWait(b) => BarrierIsCore(st, b); SameSems(st, UserLock(0), b);
    case Acquire(l) => SameSems(st, UserLock(l), 0);
    case Unlock(l) => SameSems(st, UserLock(l), 0);
    case CondWait(l, c) => SameSems(st, UserLock(l), c);
    case _ =>
  }

  lemma SameSems(st: State, l: LockId, n: nat)
    ensures BarrierCore(st, n).st.sems == st.sems && AcquireThen(st, l, Return).st.sems == st.sems
    ensures Release(st, l).sems == st.sems && CondWaitSeg(st, l, n).st.sems == st.sems
  {
    ReleaseSpec(st, l);
  }

  lemma DownCount(st: State, t: nat, s: nat)
    ensures SemAt(DownCore(st, t).st, s).count
         == SemAt(st, s).count - (if t == s && SemAt(st, s).count > 0 then 1 else 0)
  {
  }

  lemma UpCount(st: State, t: nat, s: nat)
    ensures SemAt(UpCore(st, t).st, s).count == SemAt(st, s).count + (if t == s then 1 else 0)
  {
  }

  lemma ResumeCount(st: State, s: nat)
    requires Inv(st)
    ensures SemAt(ResumeSeg(st).st, s).count == SemAt(st, s).count
      - (if st.pcb[st.cur].cont == DownWoken(s) && SemAt(st, s).count > 0 then 1 else 0)
  {
    match st.pcb[st.cur].cont
    case DownWoken(t) => DownIsCore(st, t); DownCount(st, t, s);
    case BarrierWoken(b, g) => BarrierTailIsFinish(st, b, g);
    case _ =>
  }

  lemma SegmentCount(st: State, op: Op, s: nat)
    requires Inv(st)
    ensures SemAt(Segment(st, op).st, s).count == SemAt(st, s).count
      + (if op == Up(s) then 1 else 0) - (if CompletesDown(st, Event(0, op), s) then 1 else 0)
  {
    hide Inv, AcquireThen, ResumeSeg, UpCore, DownCore, WakeOne, WakeAll, BlockOn, Release;
    match op
    case Up(t) => UpIsCore(st, t); UpCount(st, t, s);
    case Down(t) => DownIsCore(st, t); DownCount(st, t, s);
    case Resume => ResumeCount(st, s);
    case _ => SegmentSems(st, op);
  }

  lemma SegmentSems(st: State, op: Op)
    requires Inv(st) && !op.Up? && !op.Down? && !op.Resume?
    ensures Segment(st, op).st.sems == st.sems
  {
    hide Inv, Segment;
    if ProcOp(op) {
      SegmentCountProc(st, op);
    } else if QueueOp(op) {
      SegmentCountQueue(st, op);
    } else {
      SegmentCountLock(st, op);
    }
  }

  lemma StepCount(st: State, e: Event, r: State, s: nat)
    requires Inv(st) && Follows(st, e, r)
    ensures SemAt(r, s).count == SemAt(st, s).count
      + (if e.op == Up(s) then 1 else 0) - (if CompletesDown(st, e, s) then 1 else 0)
  {
    var st0 := Later(st, e.dt);
    InvLater(st, e.dt);
    SegmentCount(st0, e.op, s);
    if Segment(st0, e.op).parked {
      SegmentKeeps(st0, e.op);
      UntouchedDispatch(Segment(st0, e.op).st);
    }
  }

  /** In every run the count is the initial one plus completed ups less completed downs. */
  lemma {:induction false} SemaphoreBalance(run: seq<State>, es: seq<Event>, n: nat, s: nat)
    requires IsRun(run, es) && Inv(run[0]) && n <= |es|
    ensures SemAt(run[n], s).count == SemAt(run[0], s).count + Ups(es, n, s) - Downs(run, es, n, s)
  {
    hide Inv;
    hide Step;
    if n != 0 {
      SemaphoreBalance(run, es, n - 1, s);
      RunKeeps(run, es, n - 1);
      assert Follows(run[n - 1], es[n - 1], run[n]);
      StepCount(run[n - 1], es[n - 1], run[n], s);
    }
  }

  // -------------------------------------------------------- bounded overtaking

  /** `r` has `p` where `st` has it, with the same status and alarm. */
  ghost predicate Leaves(st: State, r: State, p: Slot) {
    st.ready <= r.ready && r.pcb[p].status == st.pcb[p].status && r.pcb[p].sleepEnd == st.pcb[p].sleepEnd
  }

  lemma ExitLeaves(st: State, p: Slot)
    requires Inv(st) && p in st.ready
    ensures Leaves(st, ParkExited(st), p)
  {
    var st1 := SetPcb(st, st.cur, st.pcb[st.cur].(status := Exited));
    ReapSpec(st1);
    HeldQueuesOk(st1, st.cur, st1.pcb[st.cur].holding);
  }

  lemma WakeLeaves(st: State, q: QueueId, p: Slot)
    requires Linked(st, st.cur) && p in st.ready
    ensures Leaves(st, WakeOne(st, q), p) && Leaves(st, WakeAll(st, q), p)
  {
    assert p !in Q(st.queues, q);
    if Q(st.queues, q) != [] {
      assert Q(st.queues, q)[0] in Q(st.queues, q);
    }
  }

  lemma ReleaseLeaves(st: State, l: LockId, p: Slot)
    requires Linked(st, st.cur) && p in st.ready
    ensures Leaves(st, Release(st, l), p) && Release(st, l).cur == st.cur
  {
    assert p !in Q(st.queues, LockQ(l));
    ReleaseSpec(st, l);
  }

  lemma CoreLeaves(st: State, n: nat, p: Slot)
    requires Inv(st) && p in st.ready
    ensures Leaves(st, UpCore(st, n).st, p) && Leaves(st, DownCore(st, n).st, p)
    ensures Leaves(st, BarrierCore(st, n).st, p)
  {
    var v := SemAt(st, n);
    var st1 := SetSem(st, n, v.(count := v.count + 1, ups := v.ups + 1));
    assert p !in Q(st.queues, SemQ(n));
    assert p !in Q(st.queues, BarQ(n));
  }

  lemma ResumeLeaves(st: State, p: Slot)
    requires Inv(st) && p in st.ready
    ensures Leaves(st, ResumeSeg(st).st, p)
  {
    match st.pcb[st.cur].cont
    case DownWoken(s) => DownIsCore(st, s); CoreLeaves(st, s, p);
    case BarrierWoken(b, g) => BarrierTailIsFinish(st, b, g);
    case _ =>
  }

  lemma SpawnLeaves(st: State, p: Slot)
    requires Inv(st) && Disciplined(st, Spawn) && p in st.ready
    ensures Leaves(st, SpawnTask(st), p)
  {
  }

  lemma SegmentLeavesProc(st: State, op: Op, p: Slot)
    requires Inv(st) && Disciplined(st, op) && p in st.ready && !op.Kill?
    requires ProcOp(op)
    ensures Leaves(st, Segment(st, op).st, p)
  {
    match op
    case Exit => ExitLeaves(st, p);
    case Spawn => SpawnLeaves(st, p);
    case _ =>
  }

  lemma SegmentLeavesQueue(st: State, op: Op, p: Slot)
    requires Inv(st) && Disciplined(st, op) && p in st.ready && !op.Kill?
    requires QueueOp(op)
    ensures Leaves(st, Segment(st, op).st, p)
  {
    match op
    case UnblockOne(q) => WakeLeaves(st, UserQ(q), p);
    case UnblockAll(q) => WakeLeaves(st, UserQ(q), p);
    case Signal(c) => WakeLeaves(st, CondQ(c), p);
    case Broadcast(c) => WakeLeaves(st, CondQ(c), p);
    case _ =>
  }

  lemma SegmentLeavesLock(st: State, op: Op, p: Slot)
    requires Inv(st) && Disciplined(st, op) && p in st.ready && !op.Kill?
    requires !ProcOp(op) && !QueueOp(op)
    ensures Leaves(st, Segment(st, op).st, p)
  {
    match op
    case Unlock(l) => ReleaseLeaves(st, UserLock(l), p);
    case CondWait(l, _) => ReleaseLeaves(st, UserLock(l), p);
    case Up(s) => UpIsCore(st, s); CoreLeaves(st, s, p);
    case Down(s) => DownIsCore(st, s); CoreLeaves(st, s, p);
    case BarrierWait(b) => BarrierIsCore(st, b); CoreLeaves(st, b, p);
    case Resume => ResumeLeaves(st, p);
    case _ =>
  }

  /** Kernel code other than kill only appends to the ready queue, and leaves its entries alone. */
  lemma SegmentLeaves(st: State, op: Op, p: Slot)
    requires Inv(st) && Disciplined(st, op) && p in st.ready && !op.Kill?
    ensures Leaves(st, Segment(st, op).st, p)
  {
    hide Segment, Inv, Disciplined;
    if ProcOp(op) {
      SegmentLeavesProc(st, op, p);
    } else if QueueOp(op) {
      SegmentLeavesQueue(st, op, p);
    } else {
      SegmentLeavesLock(st, op, p);
    }
  }

  lemma {:induction false} WithoutNearer(s: seq<Slot>, q: Slot, p: Slot, k: nat) returns (k': nat)
    requires k < |s| && s[k] == p && q != p
    ensures k' <= k && k' < |Without(s, q)| && Without(s, q)[k'] == p
  {
    if k == 0 {
      k' := 0;
    } else {
      k' := WithoutNearer(s[1..], q, p, k - 1);
      k' := if s[0] == q then k' else k' + 1;
    }
  }

  /** A kill of another process leaves an entry where it is, or brings it nearer to the head. */
  lemma KillNearer(st: State, pid: nat, p: Slot, k: nat) returns (k': nat)
    requires Inv(st) && Disciplined(st, Kill(pid)) && At(st, p, k) && FindLive(st.pcb, pid, 0) != Some(p)
    ensures k' <= k && At(KillPid(st, pid), p, k') && KillPid(st, pid).pcb[p] == st.pcb[p]
  {
    var found := FindLive(st.pcb, pid, 0);
    if found.None? {
      k' := k;
    } else {
      var q := found.value;
      KillShape(st, q);
      hide KillSlot, KillSafe, FindLive, Inv;
      var r := KillSlot(st, q);
      assert KillPid(st, pid) == r;
      if r.ready == st.ready {
        k' := k;
      } else {
        k' := WithoutNearer(st.ready, q, p, k);
      }
    }
  }

  lemma SegmentTimeProc(st: State, op: Op)
    requires ProcOp(op)
    ensures Segment(st, op).st.time == st.time
  {
    ReapSpec(SetPcb(st, st.cur, st.pcb[st.cur].(status := Exited)));
    KillTime(st);
    hide Reap, FindExited, FindLive, KillPid, Without, Q;
  }

  lemma KillTime(st: State)
    ensures forall pid: nat :: KillPid(st, pid).time == st.time
  {
    hide Without, Q, FindLive;
  }

  lemma SegmentTimeQueue(st: State, op: Op)
    requires QueueOp(op)
    ensures Segment(st, op).st.time == st.time
  {
  }

  lemma AcquireTime(st: State, l: LockId, k: AfterLock)
    ensures AcquireThen(st, l, k).st.time == st.time
  {
  }

  lemma SegmentTimeLock(st: State, op: Op)
    requires !ProcOp(op) && !QueueOp(op)
    ensures Segment(st, op).st.time == st.time
  {
    forall l, k
      ensures AcquireThen(st, l, k).st.time == st.time
    {
      AcquireTime(st, l, k);
    }
    hide AcquireThen;
  }

  lemma SegmentTime(st: State, op: Op)
    ensures Segment(st, op).st.time == st.time
  {
    hide Segment;
    if ProcOp(op) {
      SegmentTimeProc(st, op);
    } else if QueueOp(op) {
      SegmentTimeQueue(st, op);
    } else {
      SegmentTimeLock(st, op);
    }
  }

  /** Event e calls the scheduler. */
  predicate Schedules(st: State, e: Event) {
    Segment(Later(st, e.dt), e.op).parked
  }

  ghost function Calls(run: seq<State>, es: seq<Event>): nat
    requires |run| >= |es|
  {
    if es == [] then 0 else (if Schedules(run[0], es[0]) then 1 else 0) + Calls(run[1..], es[1..])
  }

  predicate Kills(st: State, e: Event, p: Slot) {
    e.op.Kill? && FindLive(st.pcb, e.op.pid, 0) == Some(p)
  }

  lemma StepAdvances(st: State, e: Event, r: State, p: Slot, k: nat) returns (k': nat)
    requires Inv(st) && Follows(st, e, r) && !Kills(st, e, p)
    requires At(st, p, k) && Steady(st, p)
    ensures !Schedules(st, e) ==> k' <= k && At(r, p, k') && r.pcb[p].status == st.pcb[p].status && Steady(r, p)
    ensures Schedules(st, e) ==>
      || (r.cur == p && st.pcb[p].status != Exited)
      || (p !in r.ready && st.pcb[p].status == Exited && r.pcb[p].status == Exited && r.cur != p)
      || (k' < k && At(r, p, k') && r.pcb[p].status == st.pcb[p].status && Steady(r, p))
  {
    var st0 := Later(st, e.dt);
    InvLater(st, e.dt);
    assert p in st.ready;
    SegmentTime(st0, e.op);
    if e.op.Kill? {
      k' := KillNearer(st0, e.op.pid, p, k);
    } else {
      SegmentLeaves(st0, e.op, p);
      k' := k;
      if Schedules(st, e) {
        SegmentKeeps(st0, e.op);
        k' := DispatchProgress(Segment(st0, e.op).st, p, k);
        UntouchedDispatch(Segment(st0, e.op).st);
      }
    }
  }

  /** The calls among the first m + 1 events: the first event, and m more. */
  lemma CallsFirst(run: seq<State>, es: seq<Event>, m: nat)
    requires |run| == |es| + 1 && m < |es|
    ensures Calls(run[..m + 2], es[..m + 1])
         == (if Schedules(run[0], es[0]) then 1 else 0) + Calls(run[1..][..m + 1], es[1..][..m])
  {
    assert run[..m + 2][1..] == run[1..][..m + 1] && es[..m + 1][1..] == es[1..][..m];
  }

  /**
   A process at position k of the ready queue that is READY or EMBRYO, or whose
   sleep is over, is dispatched within k + 1 scheduler calls, whatever happens
   meanwhile short of killing it.
   */
  lemma {:induction false} BoundedOvertaking(run: seq<State>, es: seq<Event>, p: Slot, k: nat) returns (i: nat)
    requires IsRun(run, es) && Inv(run[0]) && At(run[0], p, k)
    requires var b := run[0].pcb[p];
      b.status == Ready || b.status == Embryo || (b.status == Sleeping && b.sleepEnd <= run[0].time)
    requires forall j :: 0 <= j < |es| ==> !Kills(run[j], es[j], p)
    requires Calls(run, es) >= k + 1
    ensures 0 < i <= |es| && run[i].cur == p
    ensures Calls(run[..i + 1], es[..i]) <= k + 1
    decreases |es|
  {
    hide Inv, Follows, Schedules, Kills;
    RunTail(run, es);
    assert !Kills(run[0], es[0], p);
    var k' := StepAdvances(run[0], es[0], run[1], p, k);
    if run[1].cur == p && Schedules(run[0], es[0]) {
      i := 1;
      CallsFirst(run, es, 0);
    } else {
      RunKeeps(run, es, 1);
      forall j | 0 <= j < |es[1..]|
        ensures !Kills(run[1..][j], es[1..][j], p)
      {
        assert !Kills(run[j + 1], es[j + 1], p);
      }
      var m := BoundedOvertaking(run[1..], es[1..], p, k');
      i := m + 1;
      CallsFirst(run, es, m);
    }
  }

  /**
   A killed process at position k is reaped within k + 1 scheduler calls: it
   has left the ready queue, was never dispatched, and holds up nobody.
   */
  lemma {:induction false} ReapedInTime(run: seq<State>, es: seq<Event>, p: Slot, k: nat) returns (i: nat)
    requires IsRun(run, es) && Inv(run[0]) && At(run[0], p, k) && run[0].pcb[p].status == Exited
    requires Calls(run, es) >= k + 1
    ensures 0 < i <= |es| && run[i].pcb[p].status == Exited && p !in run[i].ready
    ensures run[i].pcb[p].holding == [] && Q(run[i].queues, Waiting(p)) == []
    ensures forall j :: 0 <= j <= i ==> run[j].cur != p
    ensures Calls(run[..i + 1], es[..i]) <= k + 1
    decreases |es|
  {
    RunTail(run, es);
    assert !Kills(run[0], es[0], p);
    var k' := StepAdvances(run[0], es[0], run[1], p, k);
    RunKeeps(run, es, 1);
    assert run[0].ready[k] in run[0].ready;
    if p !in run[1].ready {
      i := 1;
      CallsFirst(run, es, 0);
      assert run[1].cur != p;
    } else {
      var m := ReapedInTime(run[1..], es[1..], p, k');
      i := m + 1;
      CallsFirst(run, es, m);
      forall j | 0 <= j <= i
        ensures run[j].cur != p
      {
        if j != 0 {
          assert run[j] == run[1..][j - 1];
        }
      }
    }
  }
}
