/**
 Runs from boot that end where an exact condition of Discipline.dfy or Sync.dfy
 fails: what the source leaves to its callers can go wrong.
 */
module Witnesses {
  import opened Prelude
  import opened KernelState
  import opened Scheduler
  import opened Linkage
  import opened Mutexes
  import opened Syscalls
  import opened Invariant
  import opened Steps
  import opened Sync
  import opened Fairness
  import opened Runs
  import opened Discipline

  /** A run, by its last state. */
  ghost predicate Reaches(from: State, st: State) {
    exists run, es :: IsRun(run, es) && run[0] == from && run[|es|] == st
  }

  lemma ReachesStart(st: State)
    ensures Reaches(st, st)
  {
    assert IsRun([st], []);
  }

  lemma ReachesStep(from: State, st: State, op: Op, r: State)
    requires Reaches(from, st) && Follows(st, Event(0, op), r)
    ensures Reaches(from, r)
  {
    var run, es :| IsRun(run, es) && run[0] == from && run[|es|] == st;
    var run', es' := run + [r], es + [Event(0, op)];
    forall i | 0 <= i < |es'|
      ensures Follows(run'[i], es'[i], run'[i + 1])
    {
      if i < |es| {
        assert Follows(run[i], es[i], run[i + 1]);
      }
    }
    assert IsRun(run', es');
  }

  /** A state reached from boot, together with the invariant that holds there. */
  ghost predicate Reached(sems: map<nat, Sem>, bars: map<nat, Bar>, st: State) {
    Reaches(Boot(sems, bars), st) && Inv(st)
  }

  lemma Begin(sems: map<nat, Sem>, bars: map<nat, Bar>) returns (st: State)
    requires Fresh(sems, bars)
    ensures st == Boot(sems, bars) && Reached(sems, bars, st)
  {
    st := Boot(sems, bars);
    BootInv(sems, bars);
    ReachesStart(st);
  }

  lemma NoTime(st: State)
    ensures st.(time := st.time + 0) == st
  {
  }

  /** A call that returns without a switch. */
  lemma Stay(sems: map<nat, Sem>, bars: map<nat, Bar>, st: State, op: Op) returns (r: State)
    requires Reached(sems, bars, st) && Enabled(st, op) && Disciplined(st, op) && !Segment(st, op).parked
    ensures r == Segment(st, op).st && Reached(sems, bars, r)
  {
    hide Segment, Inv, Disciplined, Enabled;
    NoTime(st);
    r := Segment(st, op).st;
    assert Step(st, 0, op) == Some(r);
    StepKeeps(st, 0, op);
    ReachesStep(Boot(sems, bars), st, op, r);
  }

  /** A call that ends in a switch to the head of the ready queue. */
  lemma Park(sems: map<nat, Sem>, bars: map<nat, Bar>, st: State, op: Op) returns (r: State)
    requires Reached(sems, bars, st) && Enabled(st, op) && Disciplined(st, op) && Segment(st, op).parked
    requires var st1 := Segment(st, op).st; st1.ready != [] && Eligible(st1, st1.ready[0])
    ensures r == Switch(Segment(st, op).st) && Reached(sems, bars, r)
  {
    hide Segment, Inv, Disciplined, Enabled, Switch;
    NoTime(st);
    var st1 := Segment(st, op).st;
    assert Work(st1, st1.ready[0]);
    r := Dispatch(st1);
    assert Step(st, 0, op) == Some(r);
    StepKeeps(st, 0, op);
    ReachesStep(Boot(sems, bars), st, op, r);
  }

  /** The first `n` slots are live with pids 1 to n and back in user code, the others free. */
  ghost predicate Crowd(st: State, n: nat) {
    && n <= NUM_MAX_TASK && st.nextPid == n + 1
    && forall p: Slot {:trigger st.pcb[p]} ::
         if p < n then st.pcb[p].pid == p + 1 && Live(st, p) else st.pcb[p] == FREE_PCB
  }

  lemma SpawnNext(sems: map<nat, Sem>, bars: map<nat, Bar>, st: State, n: nat) returns (r: State)
    requires Reached(sems, bars, st) && Crowd(st, n) && 0 < n < NUM_MAX_TASK
    requires st.pcb[st.cur].cont == User && (forall p :: p in st.ready ==> p < n)
    ensures Reached(sems, bars, r) && Crowd(r, n + 1) && r == AssignTask(st, n) && n !in st.ready
    ensures r.pcb[n] == FREE_PCB.(pid := n + 1, status := Embryo)
  {
    hide Reached;
    CrowdFree(st, n);
    NoneReady(st, n);
    hide FindExited;
    r := Stay(sems, bars, st, Spawn);
    hide Segment;
    CrowdGrows(st, n);
  }

  lemma NoneReady(st: State, n: nat)
    requires forall p :: p in st.ready ==> p < n
    ensures forall p: Slot :: p >= n ==> p !in st.ready
  {
  }

  lemma CrowdFree(st: State, n: nat)
    requires Crowd(st, n) && n < NUM_MAX_TASK
    ensures FindExited(st.pcb, 0) == Some(n)
  {
    assert st.pcb[n].status == Exited;
    var f := FindExited(st.pcb, 0);
    assert f.Some?;
    assert !Live(st, f.value);
  }

  lemma CrowdGrows(st: State, n: nat)
    requires Crowd(st, n) && n < NUM_MAX_TASK
    ensures Crowd(AssignTask(st, n), n + 1) && AssignTask(st, n).pcb[n] == FREE_PCB.(pid := n + 1, status := Embryo)
  {
    assert st.pcb[n] == FREE_PCB;
  }

  // -------------------------------------------------------------------- spawn

  /** Spawn, kill the newcomer, spawn again: the slot picked is still in the ready queue. */
  lemma SpawnTooSoon() returns (st: State)
    ensures Reached(map[], map[], st) && FindExited(st.pcb, 0).Some?
    ensures FindExited(st.pcb, 0).value in st.ready && !Disciplined(st, Spawn)
    ensures !Inv(SpawnTask(st))
  {
    var s0 := Begin(map[], map[]);
    var s1 := SpawnNext(map[], map[], s0, 1);
    assert FindLive(s1.pcb, 2, 0) == Some(1);
    st := Stay(map[], map[], s1, Kill(2));
    assert st.pcb[1].status == Exited && st.ready == [1] && st.pcb[0].status != Exited;
    assert FindExited(st.pcb, 0) == Some(1);
    SpawnIff(st, 1);
  }

  // --------------------------------------------------------------------- kill

  /** The shell kills itself at once. */
  lemma KillSelf() returns (st: State)
    ensures Reached(map[], map[], st) && FindLive(st.pcb, 1, 0) == Some(st.cur)
    ensures !Inv(KillPid(st, 1))
  {
    st := Begin(map[], map[]);
    assert FindLive(st.pcb, 1, 0) == Some(0);
    KillIff(st, 0);
  }

  // -------------------------------------------------------------------- steps

  /** The timer hands the processor to the head of the ready queue. */
  lemma TickTo(sems: map<nat, Sem>, bars: map<nat, Bar>, st: State, p: Slot, rest: seq<Slot>) returns (r: State)
    requires Reached(sems, bars, st) && st.pcb[st.cur].cont == User && st.ready == [p] + rest && p != st.cur
    requires st.pcb[p].status == Ready || st.pcb[p].status == Embryo
    ensures Reached(sems, bars, r)
    ensures r == st.(cur := p, ready := rest + [st.cur],
                     pcb := st.pcb[st.cur := st.pcb[st.cur].(status := Ready)][p := st.pcb[p].(status := Running)])
  {
    hide Reached;
    r := Park(sems, bars, st, Tick);
    assert r.ready == rest + [st.cur];
  }

  /** `r` is `st` after its current process blocked on `q`, to go on at `c`, and `p` took over. */
  ghost predicate Handed(st: State, r: State, q: QueueId, c: Cont, p: Slot, rest: seq<Slot>) {
    && r.cur == p && r.ready == rest && r.locked == st.locked && r.nextPid == st.nextPid
    && r.queues == st.queues[q := Q(st.queues, q) + [st.cur]]
    && r.pcb == st.pcb[st.cur := st.pcb[st.cur].(cont := c, status := Blocked, chan := Some(q))]
                      [p := st.pcb[p].(status := Running)]
  }

  /** A process blocks and hands the processor on. */
  lemma BlockTo(sems: map<nat, Sem>, bars: map<nat, Bar>, st: State, op: Op, st0: State, q: QueueId, c: Cont, p: Slot, rest: seq<Slot>) returns (r: State)
    requires Reached(sems, bars, st) && Enabled(st, op) && Disciplined(st, op) && st.ready == [p] + rest && p != st.cur
    requires st.pcb[p].status in {Ready, Embryo}
    requires st0 == st.(sems := st0.sems, bars := st0.bars) && Segment(st, op) == BlockOn(st0, q, c)
    ensures Reached(sems, bars, r) && Handed(st, r, q, c, p, rest) && r.sems == st0.sems && r.bars == st0.bars
  {
    hide Reached, Enabled, Disciplined, Segment;
    r := Park(sems, bars, st, op);
  }

  /** What the calls with an embedded lock start with; they demand nothing of their caller. */
  lemma CallOf(st: State, n: nat)
    ensures Segment(st, Down(n)) == AcquireThen(st, SemLock(n), DownBody(n)) && Disciplined(st, Down(n))
    ensures Segment(st, Up(n)) == AcquireThen(st, SemLock(n), UpBody(n)) && Disciplined(st, Up(n))
    ensures Segment(st, BarrierWait(n)) == AcquireThen(st, BarLock(n), BarrierBody(n)) && Disciplined(st, BarrierWait(n))
  {
    hide AcquireThen;
  }

  lemma DownTo(sems: map<nat, Sem>, bars: map<nat, Bar>, st: State, s: nat, p: Slot, rest: seq<Slot>) returns (r: State)
    requires Reached(sems, bars, st) && st.pcb[st.cur].cont == User && st.ready == [p] + rest && p != st.cur
    requires st.pcb[p].status in {Ready, Embryo} && SemAt(st, s).count <= 0
    ensures Reached(sems, bars, r) && Handed(st, r, SemQ(s), DownWoken(s), p, rest) && r.sems == st.sems && r.bars == st.bars
  {
    hide Reached, Inv, AcquireThen, BlockOn, Handed, Segment, Disciplined;
    ReachedInv(sems, bars, st);
    CallOf(st, s);
    DownIsCore(st, s);
    r := BlockTo(sems, bars, st, Down(s), st, SemQ(s), DownWoken(s), p, rest);
  }

  lemma ArriveTo(sems: map<nat, Sem>, bars: map<nat, Bar>, st: State, b: nat, p: Slot, rest: seq<Slot>) returns (r: State)
    requires Reached(sems, bars, st) && st.pcb[st.cur].cont == User && st.ready == [p] + rest && p != st.cur
    requires st.pcb[p].status in {Ready, Embryo} && BarAt(st, b).count + 1 != BarAt(st, b).max
    ensures Reached(sems, bars, r) && Handed(st, r, BarQ(b), BarrierWoken(b, BarAt(st, b).gen), p, rest)
    ensures r.sems == st.sems && r.bars == Arrive(st, b).bars
  {
    hide Reached, Inv, AcquireThen, BlockOn, Handed, Segment, Disciplined;
    ReachedInv(sems, bars, st);
    CallOf(st, b);
    BarrierIsCore(st, b);
    r := BlockTo(sems, bars, st, BarrierWait(b), Arrive(st, b), BarQ(b), BarrierWoken(b, BarAt(st, b).gen), p, rest);
  }

  lemma WaitTo(sems: map<nat, Sem>, bars: map<nat, Bar>, st: State, pid: nat, q: Slot, p: Slot, rest: seq<Slot>) returns (r: State)
    requires Reached(sems, bars, st) && st.pcb[st.cur].cont == User && st.ready == [p] + rest && p != st.cur
    requires st.pcb[p].status in {Ready, Embryo} && FindLive(st.pcb, pid, 0) == Some(q) && st.pcb[st.cur].pid != pid
    ensures Reached(sems, bars, r) && Handed(st, r, Waiting(q), User, p, rest) && r.sems == st.sems && r.bars == st.bars
  {
    hide Reached, FindLive, BlockOn;
    r := BlockTo(sems, bars, st, Wait(pid), st, Waiting(q), User, p, rest);
  }

  // -------------------------------------------------------------------- locks

  lemma ShellTakesLock() returns (st: State)
    ensures Reached(map[], map[], st) && Crowd(st, 1) && st.ready == [] && st.cur == 0 && st.pcb[0].cont == User
    ensures UserLock(0) in st.locked
  {
    var s0 := Begin(map[], map[]);
    hide Reached;
    st := Stay(map[], map[], s0, Acquire(0));
  }

  lemma SpawnedAlone(sems: map<nat, Sem>, bars: map<nat, Bar>, st: State) returns (r: State)
    requires Reached(sems, bars, st) && Crowd(st, 1) && st.ready == [] && st.cur == 0 && st.pcb[0].cont == User
    ensures Reached(sems, bars, r) && Crowd(r, 2) && r.ready == [1] + [] && r.cur == 0 && r.pcb[0] == st.pcb[0]
    ensures r.pcb[1] == FREE_PCB.(pid := 2, status := Embryo)
    ensures r.locked == st.locked && r.sems == st.sems && r.bars == st.bars && r.nextPid == st.nextPid + 1
    ensures forall q :: Q(r.queues, q) == if q == Waiting(1) then [] else Q(st.queues, q)
  {
    hide Reached, Crowd;
    assert forall p :: p in st.ready ==> p < 1;
    r := SpawnNext(sems, bars, st, 1);
    QUpdated(st.queues, Waiting(1), []);
  }

  /** The shell takes a lock, another process is dispatched and releases it. */
  lemma ReleaseByOther() returns (st: State)
    ensures Reached(map[], map[], st) && !CanRelease(st, UserLock(0)) && !Disciplined(st, Unlock(0))
    ensures !InvX(Release(st, UserLock(0)), st.cur)
  {
    hide Reached, Crowd, InvX, Release;
    var s1 := ShellTakesLock();
    var s2 := SpawnedAlone(map[], map[], s1);
    st := TickTo(map[], map[], s2, 1, []);
    ReachedInv(map[], map[], st);
    ReleaseIff(st, UserLock(0));
  }

  lemma ReachedInv(sems: map<nat, Sem>, bars: map<nat, Bar>, st: State)
    requires Reached(sems, bars, st)
    ensures Inv(st)
  {
  }

  // ----------------------------------------------------------------- barriers

  const TWO: map<nat, Bar> := map[0 := Bar(0, 2, 0, 0)]

  lemma BarrierSleeper() returns (st: State)
    ensures Reached(map[], TWO, st) && BarAt(st, 0) == Bar(1, 2, 0, 1) && Q(st.queues, BarQ(0)) == [1]
    ensures st.cur == 0 && st.pcb[1].pid == 2 && st.pcb[1].status == Blocked && st.pcb[0].pid == 1
    ensures st.pcb[1].chan == Some(BarQ(0)) && st.pcb[0].cont == User
    ensures forall p: Slot :: p >= 2 ==> st.pcb[p] == FREE_PCB
    ensures st.pcb[1].cont == BarrierWoken(0, 0)
  {
    hide Reached;
    var s0 := ShellAlone(TWO);
    var s1 := SpawnedAlone(map[], TWO, s0);
    Others(s1, 2);
    hide Crowd;
    var s2 := TickTo(map[], TWO, s1, 1, []);
    st := ArriveTo(map[], TWO, s2, 0, 0, []);
  }

  /** A process asleep on a barrier is killed: the count no longer says how many sleep. */
  lemma KillBarrierSleeper() returns (st: State)
    ensures Reached(map[], TWO, st) && FindLive(st.pcb, 2, 0) == Some(1) && KillSafe(st, 1) && BarOk(st, 0, true)
    ensures 1 in Q(st.queues, BarQ(0)) && !BarOk(KillPid(st, 2), 0, true)
  {
    st := BarrierSleeper();
    ReachedInv(map[], TWO, st);
    assert FindLive(st.pcb, 2, 0) == Some(1);
    hide Reached, Inv, KillSlot;
    assert Linked(st, st.cur) by { InvLinked(st); }
    KillBarIff(st, 0, 1);
  }

  lemma InvLinked(st: State)
    requires Inv(st)
    ensures Linked(st, st.cur)
  {
  }

  // --------------------------------------------------------------- semaphores

  /** Two sleepers on semaphore 0, whose count is 0, and the shell running. */
  lemma TwoSleepers() returns (st: State)
    ensures Reached(map[], map[], st) && SemAt(st, 0) == Sem(0, 0, 0, 0) && Q(st.queues, SemQ(0)) == [1, 2]
    ensures st.cur == 0 && st.ready == [] && st.pcb[0].cont == User && st.pcb[0].pid == 1
    ensures forall p: Slot {:trigger st.pcb[p]} :: 1 <= p <= 2 ==>
      st.pcb[p].pid == p + 1 && st.pcb[p].status == Blocked && st.pcb[p].chan == Some(SemQ(0)) && st.pcb[p].cont == DownWoken(0)
    ensures forall p: Slot {:trigger st.pcb[p]} :: p >= 3 ==> st.pcb[p] == FREE_PCB
  {
    var s3 := TwoSpawned();
    hide Reached, Crowd;
    var s4 := DownTo(map[], map[], s3, 0, 2, [0]);
    QUpdated(s3.queues, SemQ(0), Q(s3.queues, SemQ(0)) + [1]);
    var s5 := DownTo(map[], map[], s4, 0, 0, []);
    QUpdated(s4.queues, SemQ(0), Q(s4.queues, SemQ(0)) + [2]);
    st := s5;
    assert Q(st.queues, SemQ(0)) == [1, 2];
  }

  /** Slots 1 and 2 spawned, slot 1 running, nobody blocked. */
  lemma TwoSpawned() returns (st: State)
    ensures Reached(map[], map[], st) && st.cur == 1 && st.ready == [2] + [0] && st.sems == map[] && st.bars == map[]
    ensures st.pcb[0] == FREE_PCB.(pid := 1, status := Ready) && st.pcb[1] == FREE_PCB.(pid := 2, status := Running)
    ensures st.pcb[2] == FREE_PCB.(pid := 3, status := Embryo) && st.nextPid == 4
    ensures forall p: Slot {:trigger st.pcb[p]} :: p >= 3 ==> st.pcb[p] == FREE_PCB
    ensures forall q :: Q(st.queues, q) == []
  {
    hide Reached, Crowd;
    var s2 := PairSpawned();
    st := TickTo(map[], map[], s2, 1, [2]);
  }

  lemma ShellAlone(bars: map<nat, Bar>) returns (st: State)
    requires Fresh(map[], bars)
    ensures Reached(map[], bars, st) && Crowd(st, 1) && st.cur == 0 && st.ready == [] && st.sems == map[] && st.bars == bars
    ensures st.pcb[0] == FREE_PCB.(pid := 1, status := Embryo) && st.nextPid == 2
    ensures forall q :: Q(st.queues, q) == []
  {
    st := Begin(map[], bars);
    hide Reached;
  }

  /** Slots 1 and 2 spawned by the shell, which goes on running. */
  lemma PairSpawned() returns (st: State)
    ensures Reached(map[], map[], st) && st.cur == 0 && st.ready == [1] + [2] && st.sems == map[] && st.bars == map[]
    ensures st.pcb[0] == FREE_PCB.(pid := 1, status := Embryo) && st.pcb[1] == FREE_PCB.(pid := 2, status := Embryo)
    ensures st.pcb[2] == FREE_PCB.(pid := 3, status := Embryo) && st.nextPid == 4
    ensures forall p: Slot {:trigger st.pcb[p]} :: p >= 3 ==> st.pcb[p] == FREE_PCB
    ensures forall q :: Q(st.queues, q) == []
  {
    hide Reached, Crowd;
    var s0 := ShellAlone(map[]);
    var s1 := SpawnedAlone(map[], map[], s0);
    assert s1.ready == [1];
    st := SpawnNext(map[], map[], s1, 2);
    QUpdated(s1.queues, Waiting(2), []);
    Others(st, 3);
  }

  lemma Others(st: State, n: nat)
    requires Crowd(st, n)
    ensures forall p: Slot {:trigger st.pcb[p]} :: p >= n ==> st.pcb[p] == FREE_PCB
  {
  }

  /** An up wakes the first sleeper. */
  lemma OneRetry() returns (st: State)
    ensures Reached(map[], map[], st) && SemAt(st, 0) == Sem(1, 0, 1, 0) && Q(st.queues, SemQ(0)) == [2]
    ensures st.cur == 0 && st.ready == [1]
    ensures st.pcb[1].pid == 2 && st.pcb[1].status == Ready && st.pcb[1].chan == None && st.pcb[1].cont == DownWoken(0)
    ensures st.pcb[0].pid == 1 && st.pcb[0].cont == User && st.pcb[2].pid == 3
    ensures forall p: Slot {:trigger st.pcb[p]} :: p >= 3 ==> st.pcb[p] == FREE_PCB
  {
    hide Reached, Inv, AcquireThen, Segment, Disciplined, UpCore;
    var s5 := TwoSleepers();
    ReachedInv(map[], map[], s5);
    CallOf(s5, 0);
    UpIsCore(s5, 0);
    UpShape(s5, 0, 1, [2]);
    st := Stay(map[], map[], s5, Up(0));
  }

  /** An up with somebody asleep. */
  lemma UpShape(st: State, s: nat, p: Slot, rest: seq<Slot>)
    requires Q(st.queues, SemQ(s)) == [p] + rest && p != st.cur && st.pcb[st.cur].cont == User
    ensures var r, v := UpCore(st, s).st, SemAt(st, s);
      && !UpCore(st, s).parked && r.cur == st.cur && r.ready == st.ready + [p]
      && r.pcb == st.pcb[p := Woken(st.pcb[p])] && Q(r.queues, SemQ(s)) == rest
      && SemAt(r, s) == v.(count := v.count + 1, ups := v.ups + 1)
  {
    var r := UpCore(st, s).st;
    assert r.pcb == st.pcb[p := Woken(st.pcb[p])];
    QUpdated(st.queues, SemQ(s), rest);
    assert ([p] + rest)[1..] == rest;
  }

  /** The one woken retry is killed while another process sleeps: the unit is left lying. */
  lemma KillRetry() returns (st: State)
    ensures Reached(map[], map[], st) && FindLive(st.pcb, 2, 0) == Some(1) && KillSafe(st, 1) && SemOk(st, 0, true)
    ensures StealsWakeUp(st, 0, 1) && !SemOk(KillPid(st, 2), 0, true)
  {
    st := OneRetry();
    ReachedInv(map[], map[], st);
    InvLinked(st);
    assert FindLive(st.pcb, 2, 0) == Some(1);
    hide Reached, Inv, KillSlot, Linked;
    assert Retrying(st, 0) == {1};
    KillSemIff(st, 0, 1);
  }

  // ------------------------------------------------------------ stale channels

  /** The timer, with a dead process that nobody waits for at the head of the ready queue. */
  lemma TickPast(sems: map<nat, Sem>, bars: map<nat, Bar>, st: State, d: Slot, p: Slot, rest: seq<Slot>) returns (r: State)
    requires Reached(sems, bars, st) && st.pcb[st.cur].cont == User && st.ready == [d, p] + rest && p != st.cur && d != st.cur && d != p
    requires st.pcb[p].status == Ready || st.pcb[p].status == Embryo
    requires st.pcb[d].status == Exited && st.pcb[d].holding == [] && Q(st.queues, Waiting(d)) == []
    ensures Reached(sems, bars, r)
    ensures r == st.(cur := p, ready := rest + [st.cur],
                     pcb := st.pcb[st.cur := st.pcb[st.cur].(status := Ready)][p := st.pcb[p].(status := Running)])
  {
    ReachedInv(sems, bars, st);
    var st1 := ParkReady(st);
    assert st1.ready == [d, p] + (rest + [st.cur]);
    assert st1.ready[1] == p && Work(st1, st1.ready[1]);
    PassDead(st1, d, p, rest + [st.cur]);
    r := Dispatch(st1);
    hide Inv, Dispatch;
    NoTime(st);
    assert Step(st, 0, Tick) == Some(r);
    StepKeeps(st, 0, Tick);
    ReachesStep(Boot(sems, bars), st, Tick, r);
  }

  lemma PassDead(st: State, d: Slot, p: Slot, rest: seq<Slot>)
    requires st.ready == [d, p] + rest && d != p && Eligible(st, p) && HasWork(st)
    requires st.pcb[d].status == Exited && st.pcb[d].holding == [] && Q(st.queues, Waiting(d)) == []
    ensures Dispatch(st) == st.(cur := p, ready := rest, pcb := st.pcb[p := st.pcb[p].(status := Running)])
  {
    assert !Eligible(st, st.ready[0]);
    var st1 := Pop(st);
    assert st1.ready == [p] + rest;
    assert WakeAll(st1, Waiting(d)) == st1;
    assert Turn(st) == st1;
    TurnProgress(st);
    assert Dispatch(st) == Dispatch(st1);
  }

  /** The kill of a blocked process. */
  lemma KillBlocked(sems: map<nat, Sem>, bars: map<nat, Bar>, st: State, pid: nat, p: Slot, q: QueueId) returns (r: State)
    requires Reached(sems, bars, st) && st.pcb[st.cur].cont == User && FindLive(st.pcb, pid, 0) == Some(p) && p != st.cur
    requires st.pcb[p].status == Blocked && st.pcb[p].chan == Some(q) && Q(st.queues, q) == [p]
    ensures Reached(sems, bars, r)
    ensures r == st.(ready := st.ready + [p], pcb := st.pcb[p := st.pcb[p].(status := Exited)], queues := st.queues[q := []])
  {
    hide Reached, FindLive;
    assert Without<Slot>([p], p) == [];
    r := Stay(sems, bars, st, Kill(pid));
  }

  /** Slot 1 was killed while it waited for the shell, and its slot has been reaped. */
  lemma ReapedWaiter() returns (st: State)
    ensures Reached(map[], map[], st) && st.cur == 0 && st.ready == [2] && st.nextPid == 4
    ensures st.pcb[0].pid == 1 && Live(st, 0) && st.pcb[0].cont == User && st.pcb[2].pid == 3 && Live(st, 2)
    ensures st.pcb[1].status == Exited && st.pcb[1].chan == Some(Waiting(0)) && st.pcb[3] == FREE_PCB
  {
    hide Reached;
    var s6 := KilledWaiter();
    var s7 := TickTo(map[], map[], s6, 2, [1]);
    assert s7.ready == [1, 0] + [];
    st := TickPast(map[], map[], s7, 1, 0, []);
  }

  lemma KilledWaiter() returns (st: State)
    ensures Reached(map[], map[], st) && st.cur == 0 && st.ready == [2] + [1] && st.nextPid == 4
    ensures st.pcb[0].pid == 1 && st.pcb[0].status == Running && st.pcb[0].cont == User
    ensures st.pcb[2].pid == 3 && st.pcb[2].status == Ready && st.pcb[2].cont == User
    ensures st.pcb[1].status == Exited && st.pcb[1].chan == Some(Waiting(0)) && st.pcb[1].holding == []
    ensures Q(st.queues, Waiting(1)) == [] && st.pcb[3] == FREE_PCB
  {
    hide Reached;
    var s3 := TwoSpawned();
    var s4 := WaitTo(map[], map[], s3, 1, 0, 2, [0]);
    QUpdated(s3.queues, Waiting(0), Q(s3.queues, Waiting(0)) + [1]);
    assert s4.ready == [0] + [];
    var s5 := TickTo(map[], map[], s4, 0, []);
    assert FindLive(s5.pcb, 2, 0) == Some(1);
    st := KillBlocked(map[], map[], s5, 2, 1, Waiting(0));
    QUpdated(s5.queues, Waiting(0), []);
  }

  /**
   The slot of a process killed while blocked keeps its channel. Its next process
   cannot be killed at the end of the ready queue, where it starts, but can once
   others are queued before and behind it.
   */
  lemma StaleChannel() returns (st: State, st': State)
    ensures Reached(map[], map[], st) && FindLive(st.pcb, 4, 0) == Some(1) && st.pcb[1].chan == Some(Waiting(0))
    ensures st.pcb[1].status == Embryo && st.ready == [2, 1] && !Inv(KillPid(st, 4))
    ensures Reached(map[], map[], st') && FindLive(st'.pcb, 4, 0) == Some(1) && st'.pcb[1].chan == Some(Waiting(0))
    ensures st'.pcb[1].status == Embryo && st'.ready == [2, 1, 3] && Inv(KillPid(st', 4))
  {
    hide Reached;
    var s8 := ReapedWaiter();
    assert FindExited(s8.pcb, 0) == Some(1);
    st := Stay(map[], map[], s8, Spawn);
    assert st.ready == [2, 1];
    StaleAt(st);
    assert FindExited(st.pcb, 0) == Some(3);
    st' := Stay(map[], map[], st, Spawn);
    assert st'.ready == [2, 1, 3];
    StaleAt(st');
  }

  lemma StaleAt(st: State)
    requires Reached(map[], map[], st) && st.cur == 0 && st.pcb[0].pid == 1 && st.pcb[1].pid == 4 && Live(st, 1)
    requires st.pcb[1].chan.Some? && st.pcb[1].status != Blocked
    ensures FindLive(st.pcb, 4, 0) == Some(1) && (Inv(KillPid(st, 4)) <==> Inside(st.ready, 1))
  {
    ReachedInv(map[], map[], st);
    assert FindLive(st.pcb, 4, 0) == Some(1);
    hide FindLive, Reached, Inv, KillSlot;
    KillIff(st, 1);
  }
}

