/**
 What every system call does, told by what its caller and everybody else can
 see afterwards: who runs, who sleeps where, who holds what. Stretches of kernel
 code are judged up to the scheduler call that ends them; what that adds is in
 Fairness.dfy.
 */
module Calls {
  import opened Prelude
  import opened KernelState
  import opened Scheduler
  import opened Linkage
  import opened Mutexes
  import opened Syscalls
  import opened Invariant
  import opened Steps
  import opened Fairness
  import opened Runs

  // ---------------------------------------------------------------- vocabulary

  /** Every process outside `ps` is as it was. */
  ghost predicate OthersSame(st: State, r: State, ps: set<Slot>) {
    forall p: Slot {:trigger r.pcb[p]} :: p !in ps ==> r.pcb[p] == st.pcb[p]
  }

  /** Every queue but those of `qs` is as it was. */
  ghost predicate QueuesSame(st: State, r: State, qs: set<QueueId>) {
    forall q {:trigger Q(r.queues, q)} :: q !in qs ==> Q(r.queues, q) == Q(st.queues, q)
  }

  /** Time, pids and the state of the machine are as they were. */
  ghost predicate ClockSame(st: State, r: State) {
    r.cur == st.cur && r.time == st.time && r.nextPid == st.nextPid && r.faults == st.faults && r.intact == st.intact
  }

  ghost predicate SyncSame(st: State, r: State) {
    r.sems == st.sems && r.bars == st.bars
  }

  /** The caller sleeps on `q`, last in line, to go on at `c`; what it has it keeps. */
  ghost predicate CallerSleeps(st: State, r: State, q: QueueId, c: Cont) {
    var was, b := st.pcb[st.cur], r.pcb[st.cur];
    && Q(r.queues, q) == Q(st.queues, q) + [st.cur]
    && b.status == Blocked && b.chan == Some(q) && b.cont == c && b.pid == was.pid
  }

  /** The caller is still running, back in user code. */
  ghost predicate CallerReturns(st: State, seg: Seg) {
    !seg.parked && seg.st.cur == st.cur && seg.st.pcb[st.cur].cont == User && seg.st.pcb[st.cur].status == st.pcb[st.cur].status
  }

  /** Exactly the processes of `w`, in order, join the ready queue; each is READY and goes on where it stopped. */
  ghost predicate BecomeReady(st: State, r: State, w: seq<Slot>) {
    && r.ready == st.ready + w
    && forall p: Slot {:trigger p in w} :: p in w ==>
         && r.pcb[p].status == Ready && r.pcb[p].chan == None && r.pcb[p].cont == st.pcb[p].cont
         && r.pcb[p].pid == st.pcb[p].pid && r.pcb[p].holding == st.pcb[p].holding
  }

  function Members(s: seq<Slot>): set<Slot> {
    set p | p in s
  }

  /** Nobody but `p` holds `l`. */
  ghost predicate SoleOwner(st: State, p: Slot, l: LockId) {
    && l in st.locked && l in st.pcb[p].holding
    && forall p': Slot {:trigger st.pcb[p']} :: l in st.pcb[p'].holding ==> p' == p
  }

  // -------------------------------------------------------------------- mutexes

  /** Acquire on a lock somebody holds: the caller sleeps on it and will try again. */
  lemma AcquireSleeps(st: State, l: nat)
    requires Inv(st) && UserLock(l) in st.locked
    ensures var seg := Segment(st, Acquire(l));
      && seg.parked && CallerSleeps(st, seg.st, LockQ(UserLock(l)), Acquiring(UserLock(l), Return))
      && seg.st.pcb[st.cur].holding == st.pcb[st.cur].holding && seg.st.locked == st.locked
      && seg.st.ready == st.ready && OthersSame(st, seg.st, {st.cur}) && QueuesSame(st, seg.st, {LockQ(UserLock(l))})
      && ClockSame(st, seg.st) && SyncSame(st, seg.st)
  {
  }

  /** Acquire on a free lock: the caller returns as its only owner. */
  lemma AcquireTakes(st: State, l: nat)
    requires Inv(st) && UserLock(l) !in st.locked
    ensures var seg := Segment(st, Acquire(l));
      && CallerReturns(st, seg) && SoleOwner(seg.st, st.cur, UserLock(l))
      && seg.st.pcb[st.cur].holding == st.pcb[st.cur].holding + [UserLock(l)]
      && seg.st.locked == st.locked + {UserLock(l)}
      && seg.st.ready == st.ready && OthersSame(st, seg.st, {st.cur}) && QueuesSame(st, seg.st, {})
      && ClockSame(st, seg.st) && SyncSame(st, seg.st)
  {
    var h, L := st.pcb[st.cur].holding, UserLock(l);
    assert (h + [L])[|h|] == L;
  }

  /** A release by the owner, or of a free lock: it is free, and everyone who slept on it is ready, in order. */
  lemma UnlockFrees(st: State, l: nat)
    requires Inv(st) && CanRelease(st, UserLock(l)) && st.pcb[st.cur].cont == User
    ensures var seg, L := Segment(st, Unlock(l)), UserLock(l);
      && CallerReturns(st, seg)
      && L !in seg.st.locked && seg.st.locked == st.locked - {L} && (forall p: Slot :: L !in seg.st.pcb[p].holding)
      && (forall k :: k != L ==> (k in seg.st.pcb[st.cur].holding <==> k in st.pcb[st.cur].holding))
      && Q(seg.st.queues, LockQ(L)) == [] && QueuesSame(st, seg.st, {LockQ(L)})
      && BecomeReady(st, seg.st, Q(st.queues, LockQ(L)))
      && OthersSame(st, seg.st, {st.cur} + Members(Q(st.queues, LockQ(L))))
      && ClockSame(st, seg.st) && SyncSame(st, seg.st)
  {
    ReleaseFrees(st, UserLock(l));
  }

  lemma ReleaseFrees(st: State, l: LockId)
    requires Linked(st, st.cur) && Owners(st) && CanRelease(st, l)
    ensures var r := Release(st, l);
      && r.locked == st.locked - {l} && (forall p: Slot :: l !in r.pcb[p].holding)
      && (forall k :: k != l ==> (k in r.pcb[st.cur].holding <==> k in st.pcb[st.cur].holding))
      && Q(r.queues, LockQ(l)) == [] && QueuesSame(st, r, {LockQ(l)})
      && BecomeReady(st, r, Q(st.queues, LockQ(l)))
      && OthersSame(st, r, {st.cur} + Members(Q(st.queues, LockQ(l))))
      && ClockSame(st, r) && SyncSame(st, r)
      && r.pcb[st.cur] == st.pcb[st.cur].(holding := r.pcb[st.cur].holding)
  {
    ReleaseSpec(st, l);
    var r, w := Release(st, l), Q(st.queues, LockQ(l));
    forall p: Slot
      ensures r.pcb[p] == (if p in w then Woken(st.pcb[p]) else st.pcb[p]).(holding := r.pcb[p].holding)
    {
      assert r.pcb[p].(holding := st.pcb[p].holding) == if p in w then Woken(st.pcb[p]) else st.pcb[p];
    }
    assert forall p: Slot :: l in st.pcb[p].holding ==> p == st.cur;
  }

  /**
   condition_wait, up to its block: the mutex is free, everyone who slept on it
   is ready, and the caller is the last in line for the condition.
   */
  lemma CondWaitFrees(st: State, l: nat, c: nat)
    requires Inv(st) && CanRelease(st, UserLock(l))
    ensures var seg, L := Segment(st, CondWait(l, c)), UserLock(l);
      && seg.parked && CallerSleeps(st, seg.st, CondQ(c), CondWoken(L))
      && (forall k :: k != L ==> (k in seg.st.pcb[st.cur].holding <==> k in st.pcb[st.cur].holding))
      && seg.st.locked == st.locked - {L} && (forall p: Slot :: L !in seg.st.pcb[p].holding)
      && Q(seg.st.queues, LockQ(L)) == [] && QueuesSame(st, seg.st, {LockQ(L), CondQ(c)})
      && BecomeReady(st, seg.st, Q(st.queues, LockQ(L)))
      && OthersSame(st, seg.st, {st.cur} + Members(Q(st.queues, LockQ(L))))
      && ClockSame(st, seg.st) && SyncSame(st, seg.st)
  {
    ReleaseFrees(st, UserLock(l));
    hide Release;
    var st1, L := Release(st, UserLock(l)), UserLock(l);
    QUpdated(st1.queues, CondQ(c), Q(st1.queues, CondQ(c)) + [st.cur]);
    assert st.cur !in Q(st.queues, LockQ(L));
  }

  // ------------------------------------------------------- semaphores, barriers

  /** Everything but the processes of `ps`, the queue `q` and the ready queue is as it was, semaphores and barriers aside. */
  ghost predicate Around(st: State, r: State, ps: set<Slot>, q: QueueId) {
    && OthersSame(st, r, ps) && QueuesSame(st, r, {q}) && r.locked == st.locked && ClockSame(st, r)
    && forall p: Slot {:trigger r.pcb[p]} :: r.pcb[p].holding == st.pcb[p].holding
  }

  /** The calls without the locks embedded in semaphores and barriers. */
  lemma Cores(st: State, n: nat)
    requires Inv(st)
    ensures Segment(st, Up(n)) == UpCore(st, n) && Segment(st, Down(n)) == DownCore(st, n)
    ensures st.pcb[st.cur].cont == DownWoken(n) ==> Segment(st, Resume) == DownCore(st, n)
    ensures Segment(st, BarrierWait(n)) == BarrierCore(st, n)
  {
    hide Inv, AcquireThen, UpCore, DownCore, BarrierCore;
    UpIsCore(st, n);
    DownIsCore(st, n);
    BarrierIsCore(st, n);
  }

  lemma CallerIsInNone(st: State)
    requires Inv(st)
    ensures forall q :: st.cur !in Q(st.queues, q)
  {
  }

  lemma UserAlready(st: State)
    requires st.pcb[st.cur].cont == User
    ensures SetCont(st, User) == st
  {
    assert st.pcb[st.cur].(cont := User) == st.pcb[st.cur];
  }

  lemma Blocks(st: State, q: QueueId, c: Cont)
    ensures var seg := BlockOn(st, q, c);
      && seg.parked && CallerSleeps(st, seg.st, q, c) && SyncSame(st, seg.st) && seg.st.ready == st.ready
      && Around(st, seg.st, {st.cur}, q)
  {
    QUpdated(st.queues, q, Q(st.queues, q) + [st.cur]);
  }

  /** semaphore_up: one unit more, and the first sleeper, if there is one, is ready to take it. */
  lemma UpGives(st: State, s: nat)
    requires Inv(st) && st.pcb[st.cur].cont == User
    ensures var seg, q := Segment(st, Up(s)), Q(st.queues, SemQ(s));
      && CallerReturns(st, seg) && SemAt(seg.st, s).count == SemAt(st, s).count + 1
      && (forall t :: t != s ==> SemAt(seg.st, t) == SemAt(st, t)) && seg.st.bars == st.bars
      && BecomeReady(st, seg.st, if q == [] then [] else [q[0]])
      && Q(seg.st.queues, SemQ(s)) == (if q == [] then [] else q[1..])
      && Around(st, seg.st, if q == [] then {} else {q[0]}, SemQ(s))
  {
    hide Inv, Segment, SetCont;
    Cores(st, s);
    CallerIsInNone(st);
    var q := Q(st.queues, SemQ(s));
    assert q != [] ==> q[0] in q;
    QUpdated(st.queues, SemQ(s), if q == [] then [] else q[1..]);
    UserAlready(SemPlus(st, s));
  }

  /** semaphore_down, first call or retry, with a unit there: it is taken, and nothing else happens. */
  lemma DownTakes(st: State, s: nat, op: Op)
    requires Inv(st) && SemAt(st, s).count > 0
    requires op == Down(s) || (op == Resume && st.pcb[st.cur].cont == DownWoken(s))
    ensures var seg := Segment(st, op);
      && CallerReturns(st, seg) && SemAt(seg.st, s).count == SemAt(st, s).count - 1
      && (forall t :: t != s ==> SemAt(seg.st, t) == SemAt(st, t)) && seg.st.bars == st.bars
      && seg.st.ready == st.ready && Around(st, seg.st, {st.cur}, SemQ(s)) && seg.st.queues == st.queues
  {
    hide Inv, Segment;
    Cores(st, s);
  }

  /** With none there, the caller sleeps on the semaphore and will try again. */
  lemma DownSleeps(st: State, s: nat, op: Op)
    requires Inv(st) && SemAt(st, s).count <= 0
    requires op == Down(s) || (op == Resume && st.pcb[st.cur].cont == DownWoken(s))
    ensures var seg := Segment(st, op);
      && seg.parked && CallerSleeps(st, seg.st, SemQ(s), DownWoken(s))
      && SyncSame(st, seg.st) && seg.st.ready == st.ready && Around(st, seg.st, {st.cur}, SemQ(s))
  {
    hide Inv, Segment, BlockOn;
    Cores(st, s);
    Blocks(st, SemQ(s), DownWoken(s));
  }

  /** The last arrival opens the barrier: everyone asleep on it is ready, in order, and a new round begins. */
  lemma BarrierOpensAll(st: State, b: nat)
    requires Inv(st) && BarAt(st, b).count + 1 == BarAt(st, b).max && st.pcb[st.cur].cont == User
    ensures var seg, v := Segment(st, BarrierWait(b)), BarAt(st, b);
      && CallerReturns(st, seg) && BarAt(seg.st, b) == Bar(0, v.max, v.gen + 1, v.arrivals + 1)
      && (forall c :: c != b ==> BarAt(seg.st, c) == BarAt(st, c)) && seg.st.sems == st.sems
      && BecomeReady(st, seg.st, Q(st.queues, BarQ(b))) && Q(seg.st.queues, BarQ(b)) == []
      && Around(st, seg.st, Members(Q(st.queues, BarQ(b))), BarQ(b))
  {
    hide Inv, Segment, SetCont;
    Cores(st, b);
    CallerIsInNone(st);
    UserAlready(BarrierOpens(Arrive(st, b), b));
  }

  /** An earlier one sleeps on it, counted in the current round. */
  lemma BarrierSleeps(st: State, b: nat)
    requires Inv(st) && BarAt(st, b).count + 1 != BarAt(st, b).max
    ensures var seg, v := Segment(st, BarrierWait(b)), BarAt(st, b);
      && seg.parked && CallerSleeps(st, seg.st, BarQ(b), BarrierWoken(b, v.gen))
      && BarAt(seg.st, b) == Bar(v.count + 1, v.max, v.gen, v.arrivals + 1)
      && (forall c :: c != b ==> BarAt(seg.st, c) == BarAt(st, c)) && seg.st.sems == st.sems
      && seg.st.ready == st.ready && Around(st, seg.st, {st.cur}, BarQ(b))
  {
    hide Inv, Segment, BlockOn;
    Cores(st, b);
    Blocks(Arrive(st, b), BarQ(b), BarrierWoken(b, BarAt(st, b).gen));
  }

  /** A process woken from a barrier returns at once, and nothing else happens. */
  lemma BarrierLeaves(st: State, b: nat, g: nat)
    requires Inv(st) && st.pcb[st.cur].cont == BarrierWoken(b, g)
    ensures var seg := Segment(st, Resume);
      && CallerReturns(st, seg) && seg.st == st.(pcb := seg.st.pcb) && OthersSame(st, seg.st, {st.cur})
      && seg.st.pcb[st.cur].holding == st.pcb[st.cur].holding
  {
    BarrierTailIsFinish(st, b, g);
  }

  // ------------------------------------------------------------- blocking queues

  /** do_block: the caller is the last in line. */
  lemma BlockSleeps(st: State, q: nat)
    requires Inv(st)
    ensures var seg := Segment(st, Block(q));
      && seg.parked && CallerSleeps(st, seg.st, UserQ(q), User)
      && SyncSame(st, seg.st) && seg.st.ready == st.ready && Around(st, seg.st, {st.cur}, UserQ(q))
  {
  }

  /** The queue a wake-up call is about. */
  function Channel(op: Op): QueueId
    requires op.UnblockOne? || op.UnblockAll? || op.Signal? || op.Broadcast?
  {
    match op
    case UnblockOne(q) => UserQ(q)
    case UnblockAll(q) => UserQ(q)
    case Signal(c) => CondQ(c)
    case Broadcast(c) => CondQ(c)
  }

  /** do_unblock_one and condition_signal: the longest sleeper is ready; with nobody asleep nothing happens. */
  lemma SignalWakesOne(st: State, op: Op)
    requires Inv(st) && (op.UnblockOne? || op.Signal?) && st.pcb[st.cur].cont == User
    ensures var seg, q := Segment(st, op), Q(st.queues, Channel(op));
      && CallerReturns(st, seg) && SyncSame(st, seg.st) && (q == [] ==> seg.st == st)
      && BecomeReady(st, seg.st, if q == [] then [] else [q[0]])
      && Q(seg.st.queues, Channel(op)) == (if q == [] then [] else q[1..])
      && Around(st, seg.st, if q == [] then {} else {q[0]}, Channel(op))
  {
    var q := Q(st.queues, Channel(op));
    assert q != [] ==> q[0] in q;
    QUpdated(st.queues, Channel(op), if q == [] then [] else q[1..]);
  }

  /** do_unblock_all and condition_broadcast: everyone asleep there is ready, in order. */
  lemma BroadcastWakesAll(st: State, op: Op)
    requires Inv(st) && (op.UnblockAll? || op.Broadcast?) && st.pcb[st.cur].cont == User
    ensures var seg, q := Segment(st, op), Q(st.queues, Channel(op));
      && CallerReturns(st, seg) && SyncSame(st, seg.st)
      && BecomeReady(st, seg.st, q) && Q(seg.st.queues, Channel(op)) == []
      && Around(st, seg.st, Members(q), Channel(op))
  {
    assert st.cur !in Q(st.queues, Channel(op));
  }

  // ------------------------------------------------------------------- processes

  /** wait on a live process other than the caller: the caller sleeps until that one is gone. */
  lemma WaitSleeps(st: State, pid: nat, p: Slot)
    requires Inv(st) && Live(st, p) && st.pcb[p].pid == pid && p != st.cur
    ensures var seg := Segment(st, Wait(pid));
      && seg.parked && CallerSleeps(st, seg.st, Waiting(p), User)
      && SyncSame(st, seg.st) && seg.st.ready == st.ready && Around(st, seg.st, {st.cur}, Waiting(p))
  {
    assert FindLive(st.pcb, pid, 0) == Some(p);
  }

  /** wait on oneself, or on a pid no live process has, returns at once with nothing changed. */
  lemma WaitReturns(st: State, pid: nat)
    requires Inv(st) && (st.pcb[st.cur].pid == pid || forall p: Slot :: Live(st, p) ==> st.pcb[p].pid != pid)
    ensures Segment(st, Wait(pid)) == Seg(st, false)
  {
  }

  /** The timer: the caller goes to the end of the ready queue, READY, and the scheduler runs. */
  lemma TickYields(st: State)
    requires Inv(st)
    ensures var seg := Segment(st, Tick);
      && seg.parked && seg.st.ready == st.ready + [st.cur] && seg.st.pcb[st.cur] == st.pcb[st.cur].(status := Ready)
      && seg.st == st.(pcb := seg.st.pcb, ready := seg.st.ready) && OthersSame(st, seg.st, {st.cur})
  {
  }

  /** spawn with a free slot: the lowest one gets a process of its own pid, EMBRYO, last in the ready queue, owning nothing. */
  lemma SpawnStarts(st: State, p: Slot)
    requires Inv(st) && Disciplined(st, Spawn) && st.pcb[p].status == Exited
    requires forall j: Slot :: j < p ==> Live(st, j)
    ensures var seg := Segment(st, Spawn); var b := seg.st.pcb[p];
      && !seg.parked && seg.st.ready == st.ready + [p] && b.status == Embryo && b.cont == User && b.holding == []
      && b.pid == st.nextPid && seg.st.nextPid == st.nextPid + 1
      && (forall j: Slot :: Live(st, j) ==> b.pid != st.pcb[j].pid)
      && OthersSame(st, seg.st, {p}) && QueuesSame(st, seg.st, {}) && Q(seg.st.queues, Waiting(p)) == []
      && SyncSame(st, seg.st) && seg.st.locked == st.locked && seg.st.cur == st.cur
  {
    assert FindExited(st.pcb, 0) == Some(p);
    assert Q(st.queues, Waiting(p)) == [];
    QUpdated(st.queues, Waiting(p), []);
  }

  /** With every slot taken it changes nothing. */
  lemma SpawnFull(st: State)
    requires forall p: Slot :: Live(st, p)
    ensures Segment(st, Spawn) == Seg(st, false)
  {
    assert forall p: Slot :: Live(st, p) ==> st.pcb[p].status != Exited;
  }

  /** kill of a live process: it is dead, in the ready queue to be reaped and in no other, and nobody else notices. */
  lemma KillEnds(st: State, pid: nat, p: Slot)
    requires Inv(st) && Disciplined(st, Kill(pid)) && Live(st, p) && st.pcb[p].pid == pid
    ensures var seg := Segment(st, Kill(pid));
      && !seg.parked && seg.st.pcb[p] == st.pcb[p].(status := Exited) && OthersSame(st, seg.st, {p})
      && p in seg.st.ready && (forall q :: p !in Q(seg.st.queues, q))
      && (forall j: Slot :: j != p ==> (j in seg.st.ready <==> j in st.ready))
      && (forall q, j: Slot :: j != p ==> (j in Q(seg.st.queues, q) <==> j in Q(st.queues, q)))
      && SyncSame(st, seg.st) && seg.st.locked == st.locked && ClockSame(st, seg.st)
  {
    assert FindLive(st.pcb, pid, 0) == Some(p);
    KillShape(st, p);
    hide KillSlot, FindLive;
  }

  /** kill of a pid nobody has changes nothing. */
  lemma KillNobody(st: State, pid: nat)
    requires forall p: Slot :: Live(st, p) ==> st.pcb[p].pid != pid
    ensures Segment(st, Kill(pid)) == Seg(st, false)
  {
  }

  // ----------------------------------------------------------- critical sections

  /** In event e process p comes back to user code from an acquire of l, or from a condition_wait with l. */
  predicate Enters(st: State, e: Event, r: State, p: Slot, l: nat) {
    && st.cur == p && r.cur == p && r.pcb[p].cont == User
    && (e.op == Acquire(l) || (e.op == Resume && (st.pcb[p].cont == Acquiring(UserLock(l), Return) || st.pcb[p].cont == CondWoken(UserLock(l)))))
  }

  /** In event e process p gives l up, by a release, a condition_wait or its end. */
  predicate GivesUp(st: State, e: Event, p: Slot, l: nat) {
    (st.cur == p && (e.op == Unlock(l) || (e.op.CondWait? && e.op.l == l) || e.op.Exit?)) || Kills(st, e, p)
  }

  /** After n events, p is between a return from acquiring l and giving it up. */
  ghost predicate Inside(run: seq<State>, es: seq<Event>, n: nat, p: Slot, l: nat)
    requires n <= |es| && |run| == |es| + 1
  {
    n > 0 && (Enters(run[n - 1], es[n - 1], run[n], p, l)
              || (Inside(run, es, n - 1, p, l) && !GivesUp(run[n - 1], es[n - 1], p, l)))
  }

  ghost predicate Holds(st: State, p: Slot, l: LockId) {
    Live(st, p) && l in st.pcb[p].holding
  }

  /** A live process keeps its locks through the dispatch loop. */
  lemma {:induction false} DispatchHolds(st: State, p: Slot, l: LockId)
    requires Linked(st, -1) && HasWork(st) && Holds(st, p, l)
    ensures Holds(Dispatch(st), p, l)
    decreases CountIn(Departing(st), st.ready), FirstIn(Workers(st), st.ready)
  {
    if !Eligible(st, st.ready[0]) {
      TurnProgress(st);
      hide Turn, CountIn, FirstIn, Workers, Departing, HasWork, Linked, Holds;
      LinkedTurn(st);
      TurnHolds(st, p, l);
      DispatchHolds(Turn(st), p, l);
    }
  }

  lemma TurnHolds(st: State, p: Slot, l: LockId)
    requires Linked(st, -1) && st.ready != [] && !Eligible(st, st.ready[0]) && Holds(st, p, l)
    ensures Holds(Turn(st), p, l)
  {
    UntouchedTurn(st);
    if st.pcb[st.ready[0]].status == Exited {
      ReapSpec(Pop(st));
    }
  }

  lemma SegmentHoldsProc(st: State, op: Op, p: Slot, l: LockId)
    requires Inv(st) && Disciplined(st, op) && Holds(st, p, l) && ProcOp(op)
    requires !(st.cur == p && op.Exit?) && !Kills(st, Event(0, op), p)
    ensures Holds(Segment(st, op).st, p, l)
  {
    if op.Exit? {
      ExitHolds(st, p, l);
    } else if op.Kill? && FindLive(st.pcb, op.pid, 0).Some? {
      KillShape(st, FindLive(st.pcb, op.pid, 0).value);
    }
    hide Inv, KillSlot, FindLive, FindExited, ParkExited;
  }

  lemma ExitHolds(st: State, p: Slot, l: LockId)
    requires Linked(st, st.cur) && Holds(st, p, l) && p != st.cur
    ensures Holds(ParkExited(st), p, l)
  {
    var st1 := SetPcb(st, st.cur, st.pcb[st.cur].(status := Exited));
    ReapSpec(st1);
    UntouchedReap(st1, st.cur);
  }

  lemma WakeHolds(st: State, q: QueueId, p: Slot, l: LockId)
    requires Holds(st, p, l)
    ensures Holds(WakeOne(st, q), p, l) && Holds(WakeAll(st, q), p, l)
  {
  }

  lemma ReleaseHolds(st: State, k: LockId, p: Slot, l: LockId)
    requires Holds(st, p, l) && (st.cur == p ==> k != l)
    ensures Holds(Release(st, k), p, l)
  {
    ReleaseSpec(st, k);
  }

  lemma AcquireHolds(st: State, k: LockId, p: Slot, l: LockId)
    requires Holds(st, p, l)
    ensures Holds(AcquireThen(st, k, Return).st, p, l)
  {
  }

  lemma UpHolds(st: State, n: nat, p: Slot, l: LockId)
    requires Holds(st, p, l)
    ensures Holds(UpCore(st, n).st, p, l)
  {
    hide WakeOne;
    var v := SemAt(st, n);
    WakeHolds(SetSem(st, n, v.(count := v.count + 1, ups := v.ups + 1)), SemQ(n), p, l);
  }

  lemma DownHolds(st: State, n: nat, p: Slot, l: LockId)
    requires Holds(st, p, l)
    ensures Holds(DownCore(st, n).st, p, l)
  {
  }

  lemma BarrierHolds(st: State, n: nat, p: Slot, l: LockId)
    requires Holds(st, p, l)
    ensures Holds(BarrierCore(st, n).st, p, l)
  {
    hide WakeAll;
    WakeHolds(Arrive(st, n), BarQ(n), p, l);
  }

  lemma ResumeHolds(st: State, p: Slot, l: LockId)
    requires Inv(st) && Holds(st, p, l)
    ensures Holds(ResumeSeg(st).st, p, l)
  {
    hide Inv, AcquireThen, Holds, DownCore;
    match st.pcb[st.cur].cont
    case User =>
    case Acquiring(k, after) => ReturnOnly(st); AcquireHolds(st, k, p, l);
    case CondWoken(k) => AcquireHolds(st, k, p, l);
    case BarrierWoken(b, g) => BarrierTailIsFinish(st, b, g); FinishHolds(st, p, l);
    case DownWoken(s) => DownIsCore(st, s); DownHolds(st, s, p, l);
  }

  lemma FinishHolds(st: State, p: Slot, l: LockId)
    requires Holds(st, p, l)
    ensures Holds(Finish(st).st, p, l)
  {
  }

  lemma ReturnOnly(st: State)
    requires Inv(st)
    ensures st.pcb[st.cur].cont.Acquiring? ==> st.pcb[st.cur].cont.after == Return
  {
  }

  lemma SegmentHoldsQueue(st: State, op: Op, p: Slot, l: LockId)
    requires Inv(st) && Holds(st, p, l) && QueueOp(op)
    ensures Holds(Segment(st, op).st, p, l)
  {
    forall q
      ensures Holds(WakeOne(st, q), p, l) && Holds(WakeAll(st, q), p, l)
    {
      WakeHolds(st, q, p, l);
    }
    hide WakeOne, WakeAll, Inv;
  }

  lemma SegmentHoldsLock(st: State, op: Op, p: Slot, l: nat)
    requires Inv(st) && Holds(st, p, UserLock(l)) && !ProcOp(op) && !QueueOp(op)
    requires !GivesUp(st, Event(0, op), p, l)
    ensures Holds(Segment(st, op).st, p, UserLock(l))
  {
    hide Inv, AcquireThen, Holds, UpCore, DownCore, BarrierCore, Release, ResumeSeg, CondWaitSeg;
    var L := UserLock(l);
    match op
    case Acquire(k) => AcquireHolds(st, UserLock(k), p, L);
    case Unlock(k) => ReleaseHolds(st, UserLock(k), p, L);
    case CondWait(k, c) => CondWaitHolds(st, UserLock(k), c, p, L);
    case Up(s) => UpIsCore(st, s); UpHolds(st, s, p, L);
    case Down(s) => DownIsCore(st, s); DownHolds(st, s, p, L);
    case BarrierWait(b) => BarrierIsCore(st, b); BarrierHolds(st, b, p, L);
    case Resume => ResumeHolds(st, p, L);
    case _ =>
  }

  lemma CondWaitHolds(st: State, k: LockId, c: nat, p: Slot, l: LockId)
    requires Holds(st, p, l) && (st.cur == p ==> k != l)
    ensures Holds(CondWaitSeg(st, k, c).st, p, l)
  {
    ReleaseHolds(st, k, p, l);
    hide Release;
  }

  /** A live process that does not give a lock up keeps it, whatever anybody does. */
  lemma StepHolds(st: State, e: Event, r: State, p: Slot, l: nat)
    requires Inv(st) && Follows(st, e, r) && Holds(st, p, UserLock(l)) && !GivesUp(st, e, p, l)
    ensures Holds(r, p, UserLock(l))
  {
    hide Inv, Segment, Dispatch, HasWork, Disciplined, FindLive;
    var st0 := Later(st, e.dt);
    InvLater(st, e.dt);
    LaterDisciplined(st, e.op, e.dt);
    var seg := Segment(st0, e.op);
    if ProcOp(e.op) {
      SegmentHoldsProc(st0, e.op, p, UserLock(l));
    } else if QueueOp(e.op) {
      SegmentHoldsQueue(st0, e.op, p, UserLock(l));
    } else {
      SegmentHoldsLock(st0, e.op, p, l);
    }
    if seg.parked {
      ParkedLinked(st0, e.op);
      DispatchHolds(seg.st, p, UserLock(l));
    }
  }

  lemma LaterDisciplined(st: State, op: Op, dt: nat)
    requires Disciplined(st, op)
    ensures Disciplined(Later(st, dt), op)
  {
  }

  lemma ParkedLinked(st: State, op: Op)
    requires Inv(st) && Disciplined(st, op) && Segment(st, op).parked
    ensures Linked(Segment(st, op).st, -1)
  {
    SegmentKeeps(st, op);
  }

  /** One pass of the acquire loop that does not sleep has taken the lock. */
  lemma PassTakes(st: State, l: LockId)
    ensures var seg := AcquireThen(st, l, Return);
      if seg.parked then seg.st.pcb[st.cur].cont == Acquiring(l, Return)
      else l in seg.st.pcb[st.cur].holding && seg.st.pcb[st.cur].status == st.pcb[st.cur].status
  {
    var h := st.pcb[st.cur].holding;
    assert (h + [l])[|h|] == l;
  }

  lemma EntersPass(st: State, op: Op, l: nat)
    requires op == Acquire(l) || (op == Resume && (st.pcb[st.cur].cont == Acquiring(UserLock(l), Return) || st.pcb[st.cur].cont == CondWoken(UserLock(l))))
    ensures Segment(st, op) == AcquireThen(st, UserLock(l), Return)
  {
    hide AcquireThen;
  }

  /** Whoever comes back from an acquire has the lock. */
  lemma EntersHolds(st: State, e: Event, r: State, p: Slot, l: nat)
    requires Inv(st) && Follows(st, e, r) && Enters(st, e, r, p, l)
    ensures Holds(r, p, UserLock(l))
  {
    var st0 := Later(st, e.dt);
    InvLater(st, e.dt);
    LaterDisciplined(st, e.op, e.dt);
    EntersPass(st0, e.op, l);
    PassTakes(st0, UserLock(l));
    hide Segment, Dispatch, HasWork, Disciplined, AcquireThen;
    var seg := Segment(st0, e.op);
    if seg.parked {
      ParkedLinked(st0, e.op);
      UntouchedDispatch(seg.st);
    }
  }

  /** Whoever is inside a critical section holds its lock. */
  lemma {:induction false} InsideHolds(run: seq<State>, es: seq<Event>, n: nat, p: Slot, l: nat)
    requires IsRun(run, es) && Inv(run[0]) && n <= |es| && Inside(run, es, n, p, l)
    ensures Holds(run[n], p, UserLock(l))
  {
    hide Inv, Follows, Holds, Enters, GivesUp;
    RunKeeps(run, es, n - 1);
    assert Follows(run[n - 1], es[n - 1], run[n]);
    if Enters(run[n - 1], es[n - 1], run[n], p, l) {
      EntersHolds(run[n - 1], es[n - 1], run[n], p, l);
    } else {
      InsideHolds(run, es, n - 1, p, l);
      StepHolds(run[n - 1], es[n - 1], run[n], p, l);
    }
  }

  /**
   Mutual exclusion of critical sections: between a process's return from
   acquiring a mutex and its giving it up, it is the only owner and nobody else
   is between the two.
   */
  lemma CriticalSection(run: seq<State>, es: seq<Event>, n: nat, p: Slot, l: nat)
    requires IsRun(run, es) && Inv(run[0]) && n <= |es| && Inside(run, es, n, p, l)
    ensures SoleOwner(run[n], p, UserLock(l))
    ensures forall p': Slot :: Inside(run, es, n, p', l) ==> p' == p
  {
    InsideHolds(run, es, n, p, l);
    RunKeeps(run, es, n);
    forall p': Slot | Inside(run, es, n, p', l)
      ensures p' == p
    {
      InsideHolds(run, es, n, p', l);
    }
  }
}
