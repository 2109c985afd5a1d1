/**
 The queue discipline of the scheduler: every process is linked where its
 status says, and nowhere else. `x` names one process that is in nobody's
 queue for the moment (current_running, or a process being moved); -1: none.
 */
module Linkage {
  import opened Prelude
  import opened KernelState
  import opened Scheduler

  ghost predicate ReadyOk(st: State, x: int) {
    && NoDup(st.ready)
    && forall p {:trigger p in st.ready} :: p in st.ready ==> p != x && st.pcb[p].status in {Embryo, Ready, Sleeping, Exited}
  }

  ghost predicate QueuesOk(st: State, x: int) {
    && (forall q :: NoDup(Q(st.queues, q)))
    && forall q, p {:trigger p in Q(st.queues, q)} :: p in Q(st.queues, q) ==> p != x && st.pcb[p].status == Blocked && st.pcb[p].chan == Some(q)
  }

  ghost predicate PlacedOk(st: State, x: int) {
    forall p: Slot {:trigger st.pcb[p]} :: p != x ==>
      && st.pcb[p].status != Running
      && (st.pcb[p].status == Blocked ==> st.pcb[p].chan.Some? && p in Q(st.queues, st.pcb[p].chan.value))
      && (st.pcb[p].status in {Embryo, Ready, Sleeping} ==> p in st.ready)
  }

  ghost predicate Linked(st: State, x: int) {
    ReadyOk(st, x) && QueuesOk(st, x) && PlacedOk(st, x)
  }

  // ------------------------------------------------------------------ waking

  /** Emptying the queues of `e` onto the end of the ready queue. */
  lemma LinkedWakes(st: State, r: State, x: int, w: seq<Slot>, e: iset<QueueId>)
    requires Linked(st, x) && Wakes(st, r, w) && NoDup(w)
    requires forall q {:trigger Q(r.queues, q)} :: Q(r.queues, q) == if q in e then [] else Q(st.queues, q)
    requires forall p {:trigger p in w} :: p in w ==>
      && st.pcb[p].status == Blocked
      && st.pcb[p].chan.Some? && st.pcb[p].chan.value in e && p in Q(st.queues, st.pcb[p].chan.value)
    requires forall q, p {:trigger p in Q(st.queues, q)} :: q in e && p in Q(st.queues, q) ==> p in w
    ensures Linked(r, x)
  {
    NoDupSlots(st.ready, w);
    forall q, p | p in Q(r.queues, q)
      ensures p != x && r.pcb[p].status == Blocked && r.pcb[p].chan == Some(q)
    {
      assert q !in e && p in Q(st.queues, q);
      assert st.pcb[p].chan == Some(q);
      assert p !in w;
      assert r.pcb[p].(holding := st.pcb[p].holding) == st.pcb[p];
    }
  }

  lemma LinkedWakeAll(st: State, x: int, q: QueueId)
    requires Linked(st, x)
    ensures Linked(WakeAll(st, q), x)
  {
    LinkedWakes(st, WakeAll(st, q), x, Q(st.queues, q), iset{q});
  }

  lemma LinkedRelease(st: State, x: int, l: LockId)
    requires Linked(st, x)
    ensures Linked(Release(st, l), x)
  {
    ReleaseSpec(st, l);
    LinkedWakes(st, Release(st, l), x, Q(st.queues, LockQ(l)), iset{LockQ(l)});
  }

  lemma {:induction false} HeldQueuesOk(st: State, x: int, h: seq<LockId>)
    requires QueuesOk(st, x)
    ensures NoDup(HeldQueues(st.queues, h))
    ensures forall p {:trigger p in HeldQueues(st.queues, h)} :: p in HeldQueues(st.queues, h) ==>
      st.pcb[p].chan.Some? && st.pcb[p].chan.value.LockQ? && st.pcb[p].chan.value.lock in h
      && p in Q(st.queues, st.pcb[p].chan.value)
    ensures forall l, p {:trigger p in Q(st.queues, LockQ(l))} :: l in h && p in Q(st.queues, LockQ(l)) ==> p in HeldQueues(st.queues, h)
    decreases |h|
  {
    if h != [] {
      var rest := Without(h[1..], h[0]);
      HeldQueuesOk(st, x, rest);
      var a, b := Q(st.queues, LockQ(h[0])), HeldQueues(st.queues, rest);
      assert forall l :: l in h <==> l == h[0] || l in rest;
      assert forall p :: p in a ==> p !in b;
      NoDupSlots(a, b);
    }
  }

  lemma LinkedReap(st: State, x: int)
    requires Linked(st, x)
    ensures Linked(Reap(st), x)
  {
    var h := st.pcb[st.cur].holding;
    var w := WokenByReap(st, st.cur);
    HeldQueuesOk(st, x, h);
    ReapSpec(st);
    NoDupSlots(Q(st.queues, Waiting(st.cur)), HeldQueues(st.queues, h));
    LinkedWakes(st, Reap(st), x, w, iset q: QueueId | q == Waiting(st.cur) || (q.LockQ? && q.lock in h));
  }

  lemma LinkedWakeOne(st: State, x: int, q: QueueId)
    requires Linked(st, x)
    ensures Linked(WakeOne(st, q), x)
  {
    var s := Q(st.queues, q);
    if s != [] {
      var r := WakeOne(st, q);
      NoDupTail(s);
      QUpdated(st.queues, q, s[1..]);
      NoDupSlots(st.ready, [s[0]]);
    }
  }

  // ----------------------------------------------------------------- parking

  lemma LinkedPark(st: State)
    requires Linked(st, st.cur)
    ensures Linked(ParkReady(st), -1)
    ensures forall d: nat :: Linked(ParkSleeping(st, d), -1)
  {
    assert st.cur !in st.ready;
  }

  lemma LinkedParkBlocked(st: State, q: QueueId)
    requires Linked(st, st.cur)
    ensures Linked(ParkBlocked(st, q), -1)
  {
    NoDupSlots(Q(st.queues, q), [st.cur]);
    QUpdated(st.queues, q, Q(st.queues, q) + [st.cur]);
  }

  lemma LinkedParkExited(st: State)
    requires Linked(st, st.cur)
    ensures Linked(ParkExited(st), -1)
    ensures st.cur !in ParkExited(st).ready
    ensures ParkExited(st).pcb[st.cur].status == Exited
  {
    var st1 := SetPcb(st, st.cur, st.pcb[st.cur].(status := Exited));
    LinkedReap(st1, st.cur);
    ReapSpec(st1);
    HeldQueuesOk(st1, st1.cur, st1.pcb[st1.cur].holding);
  }

  // ---------------------------------------------------------------- dispatch

  lemma LinkedPop(st: State)
    requires Linked(st, -1) && st.ready != []
    ensures Linked(Pop(st), st.ready[0])
  {
    NoDupTail(st.ready);
  }

  /** The "error: scheduler" branch is never taken. */
  lemma LinkedTurn(st: State)
    requires Linked(st, -1) && st.ready != [] && !Eligible(st, st.ready[0])
    ensures Linked(Turn(st), -1)
    ensures Turn(st).faults == st.faults && Turn(st).intact == st.intact
  {
    var p := st.ready[0];
    assert p in st.ready;
    LinkedPop(st);
    if st.pcb[p].status == Exited {
      LinkedReap(Pop(st), p);
      ReapSpec(Pop(st));
      HeldQueuesOk(Pop(st), p, st.pcb[p].holding);
      assert Turn(st).pcb[p].status == Exited;
    }
  }

  lemma {:induction false} LinkedDispatch(st: State)
    requires Linked(st, -1) && HasWork(st)
    ensures Linked(Dispatch(st), Dispatch(st).cur)
    ensures Dispatch(st).pcb[Dispatch(st).cur].status == Running
    ensures Dispatch(st).faults == st.faults && Dispatch(st).intact == st.intact
    decreases CountIn(Departing(st), st.ready), FirstIn(Workers(st), st.ready)
  {
    if Eligible(st, st.ready[0]) {
      LinkedPop(st);
    } else {
      TurnProgress(st);
      LinkedTurn(st);
      LinkedDispatch(Turn(st));
    }
  }
}
