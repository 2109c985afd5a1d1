/**
 kernel/sched/sched.c as functions on State: waking, parking, reaping and the
 dispatch loop. The imperative form is in KernelImpl.dfy.
 */
module Scheduler {
  import opened Prelude
  import opened KernelState

  // ---------------------------------------------------------------- waking

  /** do_unblock_one */
  function WakeOne(st: State, q: QueueId): State {
    var s := Q(st.queues, q);
    if s == [] then st
    else
      SetQueue(SetPcb(st, s[0], Woken(st.pcb[s[0]])), q, s[1..])
      .(ready := st.ready + [s[0]])
  }

  /** `b` once it has been woken. */
  function Woken(b: Pcb): Pcb {
    b.(status := Ready, chan := None)
  }

  /**
   do_unblock_all: the whole queue, in order, moves to the end of the ready
   queue, and nothing else changes.
   */
  function WakeAll(st: State, q: QueueId): (r: State)
    ensures r == st.(pcb := r.pcb, ready := st.ready + Q(st.queues, q), queues := r.queues)
    ensures forall p: Slot {:trigger r.pcb[p]} :: r.pcb[p] == if p in Q(st.queues, q) then Woken(st.pcb[p]) else st.pcb[p]
    ensures forall q' {:trigger Q(r.queues, q')} :: Q(r.queues, q') == if q' == q then [] else Q(st.queues, q')
    decreases |Q(st.queues, q)|
  {
    if Q(st.queues, q) == [] then
      assert st.ready + Q(st.queues, q) == st.ready;
      st
    else
      var st1 := WakeOne(st, q);
      assert st1.ready + Q(st1.queues, q) == st.ready + Q(st.queues, q);
      WakeAll(st1, q)
  }

  // --------------------------------------------------------------- mutexes

  /** do_mutex_lock_release, called with `st.cur` as current_running. */
  function Release(st: State, l: LockId): State {
    var b := st.pcb[st.cur];
    var st1 := SetPcb(st, st.cur, b.(holding := Without(b.holding, l)));
    WakeAll(st1.(locked := st1.locked - {l}), LockQ(l))
  }

  /** The end of do_mutex_lock_acquire, once the lock is seen UNLOCKED. */
  function TakeLock(st: State, l: LockId): State {
    var b := st.pcb[st.cur];
    SetPcb(st, st.cur, b.(holding := b.holding + [l])).(locked := st.locked + {l})
  }

  // --------------------------------------------------------------- parking

  function ParkBlocked(st: State, q: QueueId): State {
    SetQueue(SetPcb(st, st.cur, st.pcb[st.cur].(status := Blocked, chan := Some(q))),
             q, Q(st.queues, q) + [st.cur])
  }

  function ParkReady(st: State): State {
    SetPcb(st, st.cur, st.pcb[st.cur].(status := Ready)).(ready := st.ready + [st.cur])
  }

  function ParkSleeping(st: State, d: nat): State {
    SetPcb(st, st.cur, st.pcb[st.cur].(status := Sleeping, sleepEnd := st.time + d))
    .(ready := st.ready + [st.cur])
  }

  /** The processes woken by releasing the locks of `h` one after the other. */
  function HeldQueues(queues: Queues, h: seq<LockId>): seq<Slot>
    decreases |h|
  {
    if h == [] then [] else Q(queues, LockQ(h[0])) + HeldQueues(queues, Without(h[1..], h[0]))
  }

  lemma {:induction false} HeldQueuesFrame(queues: Queues, queues': Queues, h: seq<LockId>)
    requires forall l :: l in h ==> Q(queues, LockQ(l)) == Q(queues', LockQ(l))
    ensures HeldQueues(queues, h) == HeldQueues(queues', h)
    decreases |h|
  {
    if h != [] {
      HeldQueuesFrame(queues, queues', Without(h[1..], h[0]));
    }
  }

  /** `r` is `st` after exactly the processes of `w`, in order, were woken; holdings aside. */
  ghost predicate Wakes(st: State, r: State, w: seq<Slot>) {
    && r.ready == st.ready + w
    && forall p: Slot {:trigger r.pcb[p]} ::
         r.pcb[p].(holding := st.pcb[p].holding) == if p in w then Woken(st.pcb[p]) else st.pcb[p]
  }

  /** The fields that waking and releasing leave alone. */
  ghost predicate SameRest(st: State, r: State) {
    r.cur == st.cur && r.sems == st.sems && r.bars == st.bars
    && r.nextPid == st.nextPid && r.time == st.time && r.faults == st.faults && r.intact == st.intact
  }

  lemma WakesTrans(st: State, st1: State, st2: State, w1: seq<Slot>, w2: seq<Slot>)
    requires Wakes(st, st1, w1) && Wakes(st1, st2, w2)
    ensures Wakes(st, st2, w1 + w2)
  {
    assert st.ready + (w1 + w2) == st.ready + w1 + w2;
    forall p: Slot
      ensures st2.pcb[p].(holding := st.pcb[p].holding) == if p in w1 + w2 then Woken(st.pcb[p]) else st.pcb[p]
    {
      assert st1.pcb[p].(holding := st.pcb[p].holding) == if p in w1 then Woken(st.pcb[p]) else st.pcb[p];
      assert st2.pcb[p].(holding := st1.pcb[p].holding) == if p in w2 then Woken(st1.pcb[p]) else st1.pcb[p];
    }
  }

  /** `r` is `st` after its current process gave up the locks `gone` and kept `kept`. */
  ghost predicate Frees(st: State, r: State, gone: set<LockId>, kept: seq<LockId>) {
    && r.cur == st.cur
    && (forall q {:trigger Q(r.queues, q)} :: Q(r.queues, q) == if q.LockQ? && q.lock in gone then [] else Q(st.queues, q))
    && (forall p: Slot {:trigger r.pcb[p]} :: r.pcb[p].holding == if p == st.cur then kept else st.pcb[p].holding)
    && r.locked == st.locked - gone
  }

  lemma FreesTrans(st: State, st1: State, r: State, g1: set<LockId>, k1: seq<LockId>, g2: set<LockId>, k2: seq<LockId>)
    requires Frees(st, st1, g1, k1) && Frees(st1, r, g2, k2)
    ensures Frees(st, r, g1 + g2, k2)
  {
  }

  function LockSet(h: seq<LockId>): set<LockId> {
    set l | l in h
  }

  /** One release: exactly the lock's waiters wake, and only its queue and status change. */
  lemma ReleaseSpec(st: State, l: LockId)
    ensures Wakes(st, Release(st, l), Q(st.queues, LockQ(l))) && SameRest(st, Release(st, l))
    ensures Frees(st, Release(st, l), {l}, Without(st.pcb[st.cur].holding, l))
  {
  }

  /** One turn of the loop that gives up the locks of current_running. */
  function DropOne(st: State): State
    requires st.pcb[st.cur].holding != []
  {
    var h := st.pcb[st.cur].holding;
    Release(SetPcb(st, st.cur, st.pcb[st.cur].(holding := h[1..])), h[0])
  }

  lemma DropOneSpec(st: State)
    requires st.pcb[st.cur].holding != []
    ensures var h, r := st.pcb[st.cur].holding, DropOne(st);
      && Wakes(st, r, Q(st.queues, LockQ(h[0]))) && SameRest(st, r)
      && Frees(st, r, {h[0]}, Without(h[1..], h[0]))
  {
    var h := st.pcb[st.cur].holding;
    ReleaseSpec(SetPcb(st, st.cur, st.pcb[st.cur].(holding := h[1..])), h[0]);
  }

  /** The loop of the exit and reap paths: release every lock of current_running. */
  function DropLocks(st: State): State
    decreases |st.pcb[st.cur].holding|
  {
    if st.pcb[st.cur].holding == [] then st
    else
      DropOneSpec(st);
      DropLocks(DropOne(st))
  }

  /** It holds nothing afterwards; its locks are free and their queues empty. */
  lemma {:induction false} DropLocksFrees(st: State)
    ensures Frees(st, DropLocks(st), LockSet(st.pcb[st.cur].holding), [])
    decreases |st.pcb[st.cur].holding|
  {
    var h := st.pcb[st.cur].holding;
    if h != [] {
      var st1 := DropOne(st);
      var rest := Without(h[1..], h[0]);
      DropOneSpec(st);
      DropLocksFrees(st1);
      FreesTrans(st, st1, DropLocks(st1), {h[0]}, rest, LockSet(rest), []);
      assert LockSet(h) == {h[0]} + LockSet(rest);
    }
  }

  /** All waiters of all its locks become ready, in order. */
  lemma {:induction false} DropLocksWakes(st: State)
    ensures Wakes(st, DropLocks(st), HeldQueues(st.queues, st.pcb[st.cur].holding))
    ensures SameRest(st, DropLocks(st))
    decreases |st.pcb[st.cur].holding|
  {
    var h := st.pcb[st.cur].holding;
    if h != [] {
      var st1 := DropOne(st);
      var rest := Without(h[1..], h[0]);
      DropOneSpec(st);
      DropLocksWakes(st1);
      HeldQueuesFrame(st.queues, st1.queues, rest);
      WakesTrans(st, st1, DropLocks(st1), Q(st.queues, LockQ(h[0])), HeldQueues(st.queues, rest));
    }
  }

  /** Everyone who becomes ready when `p` is reaped. */
  function WokenByReap(st: State, p: Slot): seq<Slot> {
    Q(st.queues, Waiting(p)) + HeldQueues(st.queues, st.pcb[p].holding)
  }

  /** `r` is `st` after its current process lost its waiters and the locks `gone`. */
  ghost predicate Reaped(st: State, r: State, gone: set<LockId>) {
    && (forall q {:trigger Q(r.queues, q)} :: Q(r.queues, q) == if q == Waiting(st.cur) || (q.LockQ? && q.lock in gone) then [] else Q(st.queues, q))
    && (forall p: Slot {:trigger r.pcb[p]} :: r.pcb[p].holding == if p == st.cur then [] else st.pcb[p].holding)
    && r.locked == st.locked - gone
  }

  /** What happens to an exited current_running: waiters, then locks. */
  function Reap(st: State): State {
    DropLocks(WakeAll(st, Waiting(st.cur)))
  }

  /** `r` is `st` with the queue `q` emptied and no lock touched. */
  ghost predicate Drained(st: State, r: State, q: QueueId) {
    && (forall q' {:trigger Q(r.queues, q')} :: Q(r.queues, q') == if q' == q then [] else Q(st.queues, q'))
    && (forall p: Slot {:trigger r.pcb[p]} :: r.pcb[p].holding == st.pcb[p].holding)
    && r.locked == st.locked
  }

  lemma ReapCompose(st: State, st1: State, r: State)
    requires Wakes(st, st1, Q(st.queues, Waiting(st.cur))) && SameRest(st, st1) && Drained(st, st1, Waiting(st.cur))
    requires Wakes(st1, r, HeldQueues(st.queues, st.pcb[st.cur].holding)) && SameRest(st1, r)
    requires Frees(st1, r, LockSet(st.pcb[st.cur].holding), [])
    ensures Wakes(st, r, WokenByReap(st, st.cur)) && SameRest(st, r)
    ensures Reaped(st, r, LockSet(st.pcb[st.cur].holding))
  {
    WakesTrans(st, st1, r, Q(st.queues, Waiting(st.cur)), HeldQueues(st.queues, st.pcb[st.cur].holding));
  }

  lemma ReapSpec(st: State)
    ensures var h, r := st.pcb[st.cur].holding, Reap(st);
      && Wakes(st, r, WokenByReap(st, st.cur)) && SameRest(st, r)
      && Reaped(st, r, LockSet(h))
  {
    var h := st.pcb[st.cur].holding;
    var st1 := WakeAll(st, Waiting(st.cur));
    DropLocksFrees(st1);
    DropLocksWakes(st1);
    HeldQueuesFrame(st.queues, st1.queues, h);
    ReapCompose(st, st1, Reap(st));
  }

  function ParkExited(st: State): State {
    Reap(SetPcb(st, st.cur, st.pcb[st.cur].(status := Exited)))
  }

  // --------------------------------------------------------- dispatch loop

  /** May be dispatched now: READY after check_sleeping, or EMBRYO. */
  predicate Eligible(st: State, p: Slot) {
    match st.pcb[p].status
    case Embryo => true
    case Ready => true
    case Sleeping => st.time >= st.pcb[p].sleepEnd
    case _ => false
  }

  /** A ready-queue entry that brings the loop nearer to its end. */
  predicate Work(st: State, p: Slot) {
    Eligible(st, p) || (st.pcb[p].status == Exited && WokenByReap(st, p) != [])
  }

  function Workers(st: State): set<Slot> {
    set p: Slot | 0 <= p < NUM_MAX_TASK && Work(st, p)
  }

  /** Entries that leave the ready queue for good when the loop meets them. */
  function Departing(st: State): set<Slot> {
    set p: Slot | 0 <= p < NUM_MAX_TASK && st.pcb[p].status in {Exited, Blocked, Running}
  }

  /** The index of the first element of `s` in `w`, or |s|. */
  function FirstIn(w: set<Slot>, s: seq<Slot>): (i: nat)
    ensures i <= |s|
    ensures i < |s| ==> s[i] in w
    ensures forall j :: 0 <= j < i ==> s[j] !in w
  {
    if s == [] || s[0] in w then 0 else 1 + FirstIn(w, s[1..])
  }

  function CountIn(w: set<Slot>, s: seq<Slot>): nat {
    if s == [] then 0 else (if s[0] in w then 1 else 0) + CountIn(w, s[1..])
  }

  lemma {:induction false} CountInConcat(w: set<Slot>, s: seq<Slot>, t: seq<Slot>)
    ensures CountIn(w, s + t) == CountIn(w, s) + CountIn(w, t)
  {
    if s == [] {
      assert s + t == t;
    } else {
      assert (s + t)[1..] == s[1..] + t;
      CountInConcat(w, s[1..], t);
    }
  }

  lemma {:induction false} CountInMono(w: set<Slot>, w': set<Slot>, s: seq<Slot>)
    requires w' <= w
    ensures CountIn(w', s) <= CountIn(w, s)
  {
    if s != [] {
      CountInMono(w, w', s[1..]);
    }
  }

  lemma {:induction false} CountInNone(w: set<Slot>, s: seq<Slot>)
    requires forall p :: p in s ==> p !in w
    ensures CountIn(w, s) == 0
  {
    if s != [] {
      assert s[0] in s;
      CountInNone(w, s[1..]);
    }
  }

  /** The dispatch loop can end: some entry is eligible, or reaping one wakes somebody. */
  predicate HasWork(st: State) {
    exists i :: 0 <= i < |st.ready| && Work(st, st.ready[i])
  }

  /** current_running = queue_dequeue(&ready_queue) */
  function Pop(st: State): State
    requires st.ready != []
  {
    st.(cur := st.ready[0], ready := st.ready[1..])
  }

  /** A turn of the loop that goes round again. */
  function Turn(st: State): State
    requires st.ready != []
    requires !Eligible(st, st.ready[0])
  {
    var st1 := Pop(st);
    var status := st1.pcb[st1.cur].status;
    if status == Sleeping then st1.(ready := st1.ready + [st1.cur])
    else if status == Exited then Reap(st1)
    else st1.(faults := st1.faults + 1)
  }

  /** The last turn of the loop and what follows it. */
  function Switch(st: State): State
    requires st.ready != []
  {
    var st1 := Pop(st);
    SetPcb(st1, st1.cur, st1.pcb[st1.cur].(status := Running))
  }

  lemma FirstInShift(w: set<Slot>, s: seq<Slot>)
    requires s != [] && s[0] !in w && FirstIn(w, s) < |s|
    ensures FirstIn(w, s[1..] + [s[0]]) == FirstIn(w, s) - 1
  {
    var k := FirstIn(w, s);
    var t := s[1..] + [s[0]];
    assert t[k - 1] == s[k];
    forall j | 0 <= j < k - 1
      ensures t[j] !in w
    {
      assert t[j] == s[j + 1];
    }
    assert FirstIn(w, t) == k - 1;
  }

  /** Every turn keeps the loop able to end and brings it nearer to its end. */
  lemma TurnProgress(st: State)
    requires HasWork(st) && !Eligible(st, st.ready[0])
    ensures HasWork(Turn(st))
    ensures CountIn(Departing(Turn(st)), Turn(st).ready) < CountIn(Departing(st), st.ready)
         || (CountIn(Departing(Turn(st)), Turn(st).ready) == CountIn(Departing(st), st.ready)
             && FirstIn(Workers(Turn(st)), Turn(st).ready) < FirstIn(Workers(st), st.ready))
  {
    var i :| 0 <= i < |st.ready| && Work(st, st.ready[i]);
    var p := st.ready[0];
    var st1 := Turn(st);
    assert st.ready == [p] + st.ready[1..];
    CountInConcat(Departing(st), [p], st.ready[1..]);
    if st.pcb[p].status == Sleeping {
      assert st1.ready == st.ready[1..] + [p];
      CountInConcat(Departing(st), st.ready[1..], [p]);
      assert Departing(st1) == Departing(st);
      WorkersFrame(st, st1);
      FirstInShift(Workers(st), st.ready);
      assert st1.ready[i - 1] == st.ready[i];
    } else if st.pcb[p].status == Exited {
      TurnReaps(st, i);
    } else {
      assert Departing(st1) == Departing(st);
      WorkersFrame(st, st1);
      assert st1.ready[i - 1] == st.ready[i] && st.ready[i] in Workers(st1);
    }
  }

  lemma WorkersFrame(st: State, st': State)
    requires st'.pcb == st.pcb && st'.queues == st.queues && st'.time == st.time
    ensures Workers(st') == Workers(st)
  {
  }

  lemma TurnReaps(st: State, i: nat)
    requires i < |st.ready| && Work(st, st.ready[i])
    requires st.pcb[st.ready[0]].status == Exited
    ensures HasWork(Turn(st))
    ensures CountIn(Departing(Turn(st)), Turn(st).ready) < CountIn(Departing(st), st.ready)
  {
    var st0 := Pop(st);
    ReapSpec(st0);
    ReapedCounts(st, st0, Turn(st));
    ReapedWork(st, st0, Turn(st), i);
  }

  lemma ReapedCounts(st: State, st0: State, r: State)
    requires st.ready != [] && st0 == Pop(st) && st.pcb[st0.cur].status == Exited
    requires Wakes(st0, r, WokenByReap(st0, st0.cur))
    ensures CountIn(Departing(r), r.ready) < CountIn(Departing(st), st.ready)
  {
    var woken := WokenByReap(st0, st0.cur);
    assert st.ready == [st0.cur] + st0.ready;
    CountInConcat(Departing(st), [st0.cur], st0.ready);
    CountInConcat(Departing(r), st0.ready, woken);
    CountInNone(Departing(r), woken);
    CountInMono(Departing(st), Departing(r), st0.ready);
  }

  lemma ReapedWork(st: State, st0: State, r: State, i: nat)
    requires st.ready != [] && st0 == Pop(st) && st.pcb[st0.cur].status == Exited
    requires i < |st.ready| && Work(st, st.ready[i])
    requires Wakes(st0, r, WokenByReap(st0, st0.cur)) && SameRest(st0, r)
    requires Reaped(st0, r, LockSet(st.pcb[st0.cur].holding))
    ensures HasWork(r)
  {
    var woken := WokenByReap(st0, st0.cur);
    if woken == [] {
      var p := st.ready[i];
      assert p != st0.cur;
      assert r.ready[i - 1] == p;
      NothingHeld(st.queues, st.pcb[st0.cur].holding);
      HeldQueuesFrame(st.queues, r.queues, st.pcb[p].holding);
      assert Work(r, p);
    } else {
      assert r.ready[|st0.ready|] == woken[0];
      assert woken[0] in woken;
      assert Work(r, woken[0]);
    }
  }

  lemma {:induction false} NothingHeld(queues: Queues, h: seq<LockId>)
    ensures HeldQueues(queues, h) == [] <==> forall l :: l in h ==> Q(queues, LockQ(l)) == []
    decreases |h|
  {
    if h != [] {
      NothingHeld(queues, Without(h[1..], h[0]));
      assert forall l :: l in h <==> l == h[0] || l in Without(h[1..], h[0]);
    }
  }

  /** The dispatch loop of scheduler(), from its first turn to set_timer(). */
  function Dispatch(st: State): State
    requires HasWork(st)
    decreases CountIn(Departing(st), st.ready), FirstIn(Workers(st), st.ready)
  {
    if Eligible(st, st.ready[0]) then Switch(st)
    else
      TurnProgress(st);
      Dispatch(Turn(st))
  }
}
