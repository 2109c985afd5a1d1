/**
 The kernel as the source writes it: a PCB array, lock words and linked queues
 updated in place, with the loops of sched.c, proc.c and the locking files.
 Every method is proved to take the abstract state `st` where the functions of
 Scheduler.dfy and Syscalls.dfy say, and to leave every queue a well-formed
 linked list, no two of which share a node.
 */
module KernelImpl {
  import opened Prelude
  import opened KernelState
  import opened LinkedQueue
  import opened Lists
  import S = Scheduler
  import Y = Syscalls
  import I = Invariant
  import T = Steps
  import R = Runs

  /** A pcb_t without its queues. */
  datatype Proc = Proc(pid: nat, status: Status, sleepEnd: nat, chan: Option<QueueId>, cont: Cont)

  function Strip(b: Pcb): Proc {
    Proc(b.pid, b.status, b.sleepEnd, b.chan, b.cont)
  }

  // ------------------------------------------------------ lists and abstract queues

  function Procs(s: seq<Slot>): (r: seq<Item>)
    ensures |r| == |s| && forall i :: 0 <= i < |s| ==> r[i] == Process(s[i])
  {
    seq(|s|, i requires 0 <= i < |s| => Process(s[i]))
  }

  function Mutexes(s: seq<LockId>): (r: seq<Item>)
    ensures |r| == |s| && forall i :: 0 <= i < |s| ==> r[i] == Mutex(s[i])
  {
    seq(|s|, i requires 0 <= i < |s| => Mutex(s[i]))
  }

  /** The lists hold what the abstract state says. */
  ghost predicate Agree(w: World, st: State) {
    && Contents(w, ReadyQ) == Procs(st.ready)
    && (forall q {:trigger Contents(w, BlockQ(q))} {:trigger Q(st.queues, q)} :: Contents(w, BlockQ(q)) == Procs(Q(st.queues, q)))
    && (forall p: Slot {:trigger Contents(w, HoldQ(p))} {:trigger st.pcb[p]} :: Contents(w, HoldQ(p)) == Mutexes(st.pcb[p].holding))
  }

  /** In no queue. */
  ghost predicate Loose(st: State, p: Slot) {
    p !in st.ready && forall q {:trigger Q(st.queues, q)} :: p !in Q(st.queues, q)
  }

  /** In nobody's hands. */
  ghost predicate Unheld(st: State, l: LockId) {
    forall p: Slot {:trigger st.pcb[p].holding} :: l !in st.pcb[p].holding
  }

  lemma LooseUnlisted(w: World, st: State, p: Slot)
    requires Good(w) && Agree(w, st) && Loose(st, p)
    ensures Process(p) !in w.at
  {
    if Process(p) in w.at {
      IndexOf(w, Process(p));
    }
  }

  lemma UnheldUnlisted(w: World, st: State, l: LockId)
    requires Good(w) && Agree(w, st) && Unheld(st, l)
    ensures Mutex(l) !in w.at
  {
    if Mutex(l) in w.at {
      IndexOf(w, Mutex(l));
    }
  }

  /** Only the list `n` changed, to `c`. */
  ghost predicate Now(w: World, r: World, n: Name, c: seq<Item>) {
    Contents(r, n) == c && forall m {:trigger Contents(r, m)} :: m != n ==> Contents(r, m) == Contents(w, m)
  }

  lemma ProcsPush(s: seq<Slot>, p: Slot)
    ensures Procs(s + [p]) == Procs(s) + [Process(p)]
  {
  }

  lemma ProcsPop(s: seq<Slot>)
    requires s != []
    ensures Procs(s[1..]) == Procs(s)[1..]
  {
  }

  lemma AgreeReady(w: World, r: World, st: State, p: Slot)
    requires Agree(w, st) && Now(w, r, ReadyQ, Contents(w, ReadyQ) + [Process(p)])
    ensures Agree(r, st.(ready := st.ready + [p]))
  {
    ProcsPush(st.ready, p);
  }

  lemma AgreePop(w: World, r: World, st: State)
    requires Agree(w, st) && st.ready != [] && Now(w, r, ReadyQ, Contents(w, ReadyQ)[1..])
    ensures Agree(r, st.(ready := st.ready[1..]))
  {
    ProcsPop(st.ready);
  }

  lemma AgreeBlock(w: World, r: World, st: State, q: QueueId, s: seq<Slot>)
    requires Agree(w, st) && Now(w, r, BlockQ(q), Procs(s))
    ensures Agree(r, SetQueue(st, q, s))
  {
    QUpdated(st.queues, q, s);
  }

  lemma AgreeHold(w: World, r: World, st: State, p: Slot, h: seq<LockId>)
    requires Agree(w, st) && Now(w, r, HoldQ(p), Mutexes(h))
    ensures Agree(r, SetPcb(st, p, st.pcb[p].(holding := h)))
  {
  }

  lemma HoldIs(w: World, st: State, p: Slot)
    requires Agree(w, st)
    ensures Contents(w, HoldQ(p)) == Mutexes(st.pcb[p].holding)
  {
  }

  lemma HeldOnly(st: State, p: Slot, h: seq<LockId>)
    ensures var r := SetPcb(st, p, st.pcb[p].(holding := h));
      && r == st.(ready := r.ready, queues := r.queues, pcb := r.pcb) && r.intact == st.intact
      && forall o: Slot {:trigger r.pcb[o]} :: r.pcb[o] == st.pcb[o].(holding := r.pcb[o].holding)
  {
  }

  lemma MutexesOnce(h: seq<LockId>)
    requires NoDup(Mutexes(h))
    ensures NoDup(h)
  {
    forall i, j | 0 <= i < j < |h|
      ensures h[i] != h[j]
    {
      assert Mutexes(h)[i] != Mutexes(h)[j];
    }
  }

  lemma MutexesPop(h: seq<LockId>)
    requires h != []
    ensures Mutexes(h[1..]) == Mutexes(h)[1..]
  {
  }

  lemma MutexesPush(h: seq<LockId>, l: LockId)
    ensures Mutexes(h + [l]) == Mutexes(h) + [Mutex(l)]
  {
  }

  /** Fields the lists know nothing of. */
  lemma AgreeFrame(w: World, r: World, st: State, st': State)
    requires Agree(w, st) && st'.ready == st.ready && st'.queues == st.queues
    requires forall p: Slot {:trigger st'.pcb[p]} :: st'.pcb[p].holding == st.pcb[p].holding
    requires forall m {:trigger Contents(r, m)} :: Contents(r, m) == Contents(w, m)
    ensures Agree(r, st')
  {
  }

  class Kernel {
    const pcb: array<Proc>
    const lists: Heap
    var cur: Slot
    var locked: set<LockId>
    var sems: map<nat, Sem>
    var bars: map<nat, Bar>
    var nextPid: nat
    var time: nat
    var faults: nat
    ghost var st: State

    /** The words outside the queues. */
    ghost predicate Words()
      reads this, pcb
    {
      && pcb.Length == NUM_MAX_TASK && (forall p: Slot {:trigger st.pcb[p]} {:trigger pcb[p]} :: pcb[p] == Strip(st.pcb[p]))
      && cur == st.cur && locked == st.locked && sems == st.sems && bars == st.bars
      && nextPid == st.nextPid && time == st.time && faults == st.faults
    }

    ghost predicate Apart()
      reads this, lists
    {
      this !in lists.Repr && pcb !in lists.Repr
    }

    ghost predicate Valid()
      reads this, pcb, lists, lists.Repr
    {
      Words() && Apart() && lists.Valid() && Agree(lists.w, st) && st.intact
    }

    /** init_pcb of init/main.c, after the shell has been taken off the ready queue. */
    constructor (sems: map<nat, Sem>, bars: map<nat, Bar>)
      ensures Valid() && fresh(pcb) && fresh(lists) && fresh(lists.Repr) && st == R.Boot(sems, bars)
    {
      pcb := new Proc[NUM_MAX_TASK](_ => Strip(FREE_PCB));
      lists := new Heap();
      cur, locked := 0, {};
      this.sems, this.bars := sems, bars;
      nextPid, time, faults := 2, 0, 0;
      st := R.Boot(sems, bars);
      new;
      pcb[0] := Strip(FREE_PCB.(pid := 1, status := Embryo));
    }

    /** A write to the fields of a process. */
    method Put(p: Slot, b: Proc)
      requires Valid()
      modifies pcb, `st
      ensures Valid() && st == SetPcb(old(st), p, Pcb(b.pid, b.status, b.sleepEnd, b.chan, old(st).pcb[p].holding, b.cont))
    {
      hide Heap.Valid, Agree;
      pcb[p] := b;
      st := SetPcb(st, p, Pcb(b.pid, b.status, b.sleepEnd, b.chan, st.pcb[p].holding, b.cont));
      AgreeFrame(lists.w, lists.w, old(st), st);
    }

    method SetWoken(p: Slot)
      requires Valid()
      modifies pcb, `st
      ensures Valid() && st == SetPcb(old(st), p, S.Woken(old(st).pcb[p]))
    {
      Put(p, pcb[p].(status := Ready, chan := None));
    }

    method SetUnlocked(l: LockId)
      requires Valid()
      modifies `locked, `st
      ensures Valid() && st == old(st).(locked := old(st).locked - {l})
    {
      hide Agree, Heap.Valid;
      locked := locked - {l};
      st := st.(locked := st.locked - {l});
      AgreeFrame(lists.w, lists.w, old(st), st);
    }

    method SetLocked(l: LockId)
      requires Valid()
      modifies `locked, `st
      ensures Valid() && st == old(st).(locked := old(st).locked + {l})
    {
      hide Agree, Heap.Valid;
      locked := locked + {l};
      st := st.(locked := st.locked + {l});
      AgreeFrame(lists.w, lists.w, old(st), st);
    }

    method SetCur(p: Slot)
      requires Valid()
      modifies `cur, `st
      ensures Valid() && st == old(st).(cur := p)
    {
      hide Agree, Heap.Valid;
      cur := p;
      st := st.(cur := p);
      AgreeFrame(lists.w, lists.w, old(st), st);
    }

    method SetStatus(s: Status)
      requires Valid()
      modifies pcb, `st
      ensures Valid() && st == SetPcb(old(st), old(st).cur, old(st).pcb[old(st).cur].(status := s))
    {
      Put(cur, pcb[cur].(status := s));
    }

    method SetContinuation(c: Cont)
      requires Valid()
      modifies pcb, `st
      ensures Valid() && st == SetCont(old(st), c)
    {
      Put(cur, pcb[cur].(cont := c));
    }

    method CountFault()
      requires Valid()
      modifies `faults, `st
      ensures Valid() && st == old(st).(faults := old(st).faults + 1)
    {
      hide Agree, Heap.Valid;
      faults := faults + 1;
      st := st.(faults := st.faults + 1);
      AgreeFrame(lists.w, lists.w, old(st), st);
    }

    /** current_running, and the fields of its process. */
    function Current(): (p: Slot)
      reads this, pcb, lists, lists.Repr
      requires Valid()
      ensures p == st.cur
    {
      cur
    }

    function StatusNow(): (s: Status)
      reads this, pcb, lists, lists.Repr
      requires Valid()
      ensures s == st.pcb[st.cur].status
    {
      pcb[cur].status
    }

    function ContNow(): (c: Cont)
      reads this, pcb, lists, lists.Repr
      requires Valid()
      ensures c == st.pcb[st.cur].cont
    {
      pcb[cur].cont
    }

    /** The test of check_sleeping. */
    function Due(): (b: bool)
      reads this, pcb, lists, lists.Repr
      requires Valid()
      ensures b <==> st.pcb[st.cur].status == Sleeping && st.time >= st.pcb[st.cur].sleepEnd
    {
      pcb[cur].status == Sleeping && time >= pcb[cur].sleepEnd
    }

    // ------------------------------------------------------- one queue call each

    method PopBlock(q: QueueId) returns (p: Option<Slot>)
      requires Valid()
      modifies `st, lists, lists.Repr
      ensures Valid() && fresh(lists.Repr - old(lists.Repr))
      ensures Q(old(st).queues, q) == [] ==> p == None && st == old(st)
      ensures Q(old(st).queues, q) != [] ==>
        && p == Some(Q(old(st).queues, q)[0]) && st == SetQueue(old(st), q, Q(old(st).queues, q)[1..]) && Loose(st, p.value)
    {
      hide Heap.Valid, Contents, Words;
      ghost var w0, s := lists.w, Q(st.queues, q);
      var x := lists.Dequeue(BlockQ(q));
      if x.None? {
        AgreeFrame(w0, lists.w, st, st);
        return None;
      }
      ProcsPop(s);
      AgreeBlock(w0, lists.w, st, q, s[1..]);
      p := Some(x.value.slot);
      Requeued(SetQueue(st, q, s[1..]));
      UnlistedLoose(lists.w, st, p.value);
    }

    /** The ghost state follows the lists. */
    ghost method Requeued(r: State)
      requires Words() && Apart() && lists.Valid() && Agree(lists.w, r) && r.intact
      requires r == st.(ready := r.ready, queues := r.queues, pcb := r.pcb)
      requires forall p: Slot {:trigger r.pcb[p]} :: r.pcb[p] == st.pcb[p].(holding := r.pcb[p].holding)
      modifies `st
      ensures Valid() && st == r && Good(lists.w)
    {
      GoodOf();
      hide Heap.Valid, Agree, Good;
      st := r;
    }

    lemma GoodOf()
      requires lists.Valid()
      ensures Good(lists.w)
    {
    }

    method PopReady() returns (p: Slot)
      requires Valid() && st.ready != []
      modifies `st, lists, lists.Repr
      ensures Valid() && fresh(lists.Repr - old(lists.Repr))
      ensures p == old(st).ready[0] && st == old(st).(ready := old(st).ready[1..]) && Loose(st, p)
    {
      hide Heap.Valid, Contents, Words;
      ghost var w0 := lists.w;
      var x := lists.Dequeue(ReadyQ);
      AgreePop(w0, lists.w, st);
      p := x.value.slot;
      Requeued(st.(ready := st.ready[1..]));
      UnlistedLoose(lists.w, st, p);
    }

    method PushReady(p: Slot)
      requires Valid() && Loose(st, p)
      modifies `st, lists, lists.Repr
      ensures Valid() && fresh(lists.Repr - old(lists.Repr)) && st == old(st).(ready := old(st).ready + [p])
    {
      GoodOf();
      hide Heap.Valid, Contents, Words, Agree, Good, Loose;
      LooseUnlisted(lists.w, st, p);
      ghost var w0 := lists.w;
      ghost var was := lists.Push(ReadyQ, Process(p));
      AgreeReady(w0, lists.w, st, p);
      Requeued(st.(ready := st.ready + [p]));
    }

    method PushBlock(q: QueueId, p: Slot)
      requires Valid() && Loose(st, p)
      modifies `st, lists, lists.Repr
      ensures Valid() && fresh(lists.Repr - old(lists.Repr)) && st == SetQueue(old(st), q, Q(old(st).queues, q) + [p])
    {
      GoodOf();
      hide Heap.Valid, Contents, Words, Good, Loose;
      LooseUnlisted(lists.w, st, p);
      ghost var w0, s := lists.w, Q(st.queues, q);
      ghost var was := lists.Push(BlockQ(q), Process(p));
      ProcsPush(s, p);
      AgreeBlock(w0, lists.w, st, q, s + [p]);
      Requeued(SetQueue(st, q, s + [p]));
    }

    /** The holding list of the current process. */
    method PopHold() returns (l: LockId)
      requires Valid() && st.pcb[st.cur].holding != []
      modifies `st, lists, lists.Repr
      ensures Valid() && fresh(lists.Repr - old(lists.Repr)) && l == old(st).pcb[old(st).cur].holding[0]
      ensures st == SetPcb(old(st), old(st).cur, old(st).pcb[old(st).cur].(holding := old(st).pcb[old(st).cur].holding[1..]))
    {
      assert cur == st.cur;
      hide Heap.Valid, Contents, Words, Agree, SetPcb;
      ghost var w0, h := lists.w, st.pcb[st.cur].holding;
      HoldIs(w0, st, cur);
      MutexesPop(h);
      var x := lists.Dequeue(HoldQ(cur));
      l := x.value.lock;
      assert Now(w0, lists.w, HoldQ(cur), Mutexes(h[1..]));
      hide Now, Heap.Get;
      AgreeHold(w0, lists.w, st, cur, h[1..]);
      HeldOnly(st, cur, h[1..]);
      Requeued(SetPcb(st, cur, st.pcb[cur].(holding := h[1..])));
    }

    method PushHold(l: LockId)
      requires Valid() && Unheld(st, l)
      modifies `st, lists, lists.Repr
      ensures Valid() && fresh(lists.Repr - old(lists.Repr))
      ensures st == SetPcb(old(st), old(st).cur, old(st).pcb[old(st).cur].(holding := old(st).pcb[old(st).cur].holding + [l]))
    {
      assert cur == st.cur;
      GoodOf();
      hide Heap.Valid, Contents, Words, Agree, Good, SetPcb;
      UnheldUnlisted(lists.w, st, l);
      ghost var w0, h := lists.w, st.pcb[st.cur].holding;
      HoldIs(w0, st, cur);
      ghost var was := lists.Push(HoldQ(cur), Mutex(l));
      MutexesPush(h, l);
      AgreeHold(w0, lists.w, st, cur, h + [l]);
      HeldOnly(st, cur, h + [l]);
      Requeued(SetPcb(st, cur, st.pcb[cur].(holding := h + [l])));
    }

    /** queue_has on the holding list of the current process. */
    method HasHold(l: LockId) returns (r: bool)
      requires Valid()
      modifies lists
      ensures Valid() && fresh(lists.Repr - old(lists.Repr)) && (r <==> l in st.pcb[st.cur].holding)
    {
      assert cur == st.cur;
      hide Heap.Valid, Contents, Words, Agree;
      ghost var w0, h := lists.w, st.pcb[st.cur].holding;
      HoldIs(w0, st, cur);
      r := lists.Has(HoldQ(cur), Mutex(l));
      InMutexes(h, l);
      AgreeFrame(w0, lists.w, st, st);
    }

    /** queue_remove on it. */
    method RemoveHold(l: LockId)
      requires Valid() && l in st.pcb[st.cur].holding
      modifies `st, lists, lists.Repr
      ensures Valid() && fresh(lists.Repr - old(lists.Repr))
      ensures st == SetPcb(old(st), old(st).cur, old(st).pcb[old(st).cur].(holding := Without(old(st).pcb[old(st).cur].holding, l)))
    {
      assert cur == st.cur;
      GoodOf();
      hide Heap.Valid, Contents, Words, Agree, SetPcb, Good;
      ghost var w0, h := lists.w, st.pcb[st.cur].holding;
      HoldIs(w0, st, cur);
      ContentsOnce(w0, HoldQ(cur));
      MutexesOnce(h);
      InMutexes(h, l);
      ghost var k := lists.Remove(HoldQ(cur), Mutex(l));
      WithoutAt(h, l, k);
      MutexesDrop(h, k);
      AgreeHold(w0, lists.w, st, cur, Without(h, l));
      HeldOnly(st, cur, Without(h, l));
      Requeued(SetPcb(st, cur, st.pcb[cur].(holding := Without(h, l))));
    }

    method DropHold(l: LockId)
      requires Valid()
      modifies `st, lists, lists.Repr
      ensures Valid() && fresh(lists.Repr - old(lists.Repr))
      ensures st == SetPcb(old(st), old(st).cur, old(st).pcb[old(st).cur].(holding := Without(old(st).pcb[old(st).cur].holding, l)))
    {
      hide Valid;
      var has := HasHold(l);
      if has {
        RemoveHold(l);
      }
    }

    // --------------------------------------------------------------- sched.c

    /** do_unblock_one */
    method UnblockOne(q: QueueId)
      requires Valid()
      modifies this, pcb, lists, lists.Repr
      ensures Valid() && fresh(lists.Repr - old(lists.Repr)) && st == S.WakeOne(old(st), q)
    {
      hide Valid;
      var x := PopBlock(q);
      if x.Some? {
        SetWoken(x.value);
        PushReady(x.value);
      }
    }

    /** do_unblock_all */
    method UnblockAll(q: QueueId)
      requires Valid()
      modifies this, pcb, lists, lists.Repr
      ensures Valid() && fresh(lists.Repr - old(lists.Repr)) && st == S.WakeAll(old(st), q)
    {
      hide Valid;
      var empty := NoneBlocked(q);
      while !empty
        invariant Valid() && fresh(lists.Repr - old(lists.Repr))
        invariant S.WakeAll(st, q) == S.WakeAll(old(st), q) && (empty <==> Q(st.queues, q) == [])
        decreases |Q(st.queues, q)|
      {
        UnblockOne(q);
        empty := NoneBlocked(q);
      }
    }

    /** queue_is_empty */
    method NoneBlocked(q: QueueId) returns (empty: bool)
      requires Valid()
      modifies lists
      ensures Valid() && fresh(lists.Repr - old(lists.Repr)) && (empty <==> Q(st.queues, q) == [])
    {
      hide Words, Contents;
      ghost var w0 := lists.w;
      empty := lists.IsEmpty(BlockQ(q));
      AgreeFrame(w0, lists.w, st, st);
    }

    method NoneHeld() returns (empty: bool)
      requires Valid()
      modifies lists
      ensures Valid() && fresh(lists.Repr - old(lists.Repr)) && (empty <==> st.pcb[st.cur].holding == [])
    {
      assert cur == st.cur;
      hide Words, Contents;
      ghost var w0 := lists.w;
      empty := lists.IsEmpty(HoldQ(cur));
      AgreeFrame(w0, lists.w, st, st);
    }

    /** do_mutex_lock_release */
    method MutexRelease(l: LockId)
      requires Valid()
      modifies this, pcb, lists, lists.Repr
      ensures Valid() && fresh(lists.Repr - old(lists.Repr)) && st == S.Release(old(st), l)
    {
      hide S.WakeAll, Valid;
      DropHold(l);
      SetUnlocked(l);
      UnblockAll(LockQ(l));
    }

    /** The two loops shared by the exit and the reap path. */
    method Reap()
      requires Valid()
      modifies this, pcb, lists, lists.Repr
      ensures Valid() && fresh(lists.Repr - old(lists.Repr)) && st == S.Reap(old(st))
    {
      hide S.WakeAll, S.Release, Valid;
      UnblockAll(Waiting(Current()));
      var empty := NoneHeld();
      while !empty
        invariant Valid() && fresh(lists.Repr - old(lists.Repr))
        invariant S.DropLocks(st) == S.Reap(old(st)) && (empty <==> st.pcb[st.cur].holding == [])
        decreases |st.pcb[st.cur].holding|
      {
        ghost var before := st;
        S.DropOneSpec(before);
        var l := PopHold();
        MutexRelease(l);
        assert st == S.DropOne(before);
        empty := NoneHeld();
      }
    }

    /** The body of the dispatch loop: one dequeue, check_sleeping, and the switch. */
    method LoopBody() returns (chosen: bool)
      requires Valid() && st.ready != []
      modifies this, pcb, lists, lists.Repr
      ensures Valid() && fresh(lists.Repr - old(lists.Repr))
      ensures chosen == S.Eligible(old(st), old(st).ready[0])
      ensures !chosen ==> st == S.Turn(old(st))
      ensures chosen ==> SetPcb(st, st.cur, st.pcb[st.cur].(status := Running)) == S.Switch(old(st))
    {
      hide Valid, S.Reap;
      ghost var start := st;
      chosen := false;
      var p := PopReady();
      SetCur(p);
      assert st == S.Pop(start);
      if Due() {
        SetStatus(Ready);
      }
      var status := StatusNow();
      if status == Sleeping {
        PushReady(p);
      } else if status == Embryo {
        SetStatus(Ready);
        chosen := true;
      } else if status == Exited {
        Reap();
      } else if status == Ready {
        chosen := true;
      } else {
        CountFault();
      }
      if chosen {
        assert SetPcb(st, p, st.pcb[p].(status := Running)).pcb == S.Switch(start).pcb;
      }
    }

    /** The dispatch loop of scheduler(); it needs work in the ready queue to end. */
    method DispatchLoop()
      requires Valid() && S.HasWork(st)
      modifies this, pcb, lists, lists.Repr
      ensures Valid() && fresh(lists.Repr - old(lists.Repr)) && st == S.Dispatch(old(st))
    {
      hide Valid;
      ghost var start := st;
      var chosen := false;
      while !chosen
        invariant Valid() && fresh(lists.Repr - old(lists.Repr))
        invariant !chosen ==> S.HasWork(st) && S.Dispatch(st) == S.Dispatch(start)
        invariant chosen ==> SetPcb(st, st.cur, st.pcb[st.cur].(status := Running)) == S.Dispatch(start)
        decreases !chosen, S.CountIn(S.Departing(st), st.ready), S.FirstIn(S.Workers(st), st.ready)
      {
        ghost var before := st;
        if !S.Eligible(before, before.ready[0]) { S.TurnProgress(before); }
        chosen := LoopBody();
      }
      SetStatus(Running);
    }

    // -------------------------------------------------- the scheduler's front end

    /** Case TASK_BLOCKED of scheduler(), to be continued at `c`. */
    method BlockOn(q: QueueId, c: Cont)
      requires Valid() && Loose(st, st.cur)
      modifies this, pcb, lists, lists.Repr
      ensures Valid() && fresh(lists.Repr - old(lists.Repr)) && st == Y.BlockOn(old(st), q, c).st
    {
      hide Valid;
      SetContinuation(c);
      SetBlocked(q);
      PushBlock(q, Current());
    }

    method SetBlocked(q: QueueId)
      requires Valid()
      modifies pcb, `st
      ensures Valid() && st == SetPcb(old(st), old(st).cur, old(st).pcb[old(st).cur].(status := Blocked, chan := Some(q)))
    {
      Put(cur, pcb[cur].(status := Blocked, chan := Some(q)));
    }

    /** Cases TASK_READY and default. */
    method ParkReady()
      requires Valid() && Loose(st, st.cur)
      modifies this, pcb, lists, lists.Repr
      ensures Valid() && fresh(lists.Repr - old(lists.Repr)) && st == S.ParkReady(old(st))
    {
      hide Valid;
      SetStatus(Ready);
      PushReady(Current());
    }

    /** Case TASK_SLEEPING. */
    method ParkSleeping(d: nat)
      requires Valid() && Loose(st, st.cur)
      modifies this, pcb, lists, lists.Repr
      ensures Valid() && fresh(lists.Repr - old(lists.Repr)) && st == S.ParkSleeping(old(st), d)
    {
      hide Valid;
      SetSleeping(d);
      PushReady(Current());
    }

    method SetSleeping(d: nat)
      requires Valid()
      modifies pcb, `st
      ensures Valid() && st == SetPcb(old(st), old(st).cur, old(st).pcb[old(st).cur].(status := Sleeping, sleepEnd := old(st).time + d))
    {
      Put(cur, pcb[cur].(status := Sleeping, sleepEnd := time + d));
    }

    /** Case TASK_EXITED. */
    method ParkExited()
      requires Valid()
      modifies this, pcb, lists, lists.Repr
      ensures Valid() && fresh(lists.Repr - old(lists.Repr)) && st == S.ParkExited(old(st))
    {
      hide Valid, S.Reap;
      SetStatus(Exited);
      Reap();
    }

    // ---------------------------------------------------------------- proc.c

    /**
     assign_task. The ready queue stays a list exactly when the slot was not in
     it; pushing it a second time leaves links that spell no list at all.
     */
    method AssignTask(p: Slot)
      requires Valid() && (forall q {:trigger Q(st.queues, q)} :: p !in Q(st.queues, q))
      requires p !in st.ready ==> st.pcb[p].holding == [] && Q(st.queues, Waiting(p)) == []
      modifies this, pcb, lists, lists.Repr
      ensures fresh(lists.Repr - old(lists.Repr)) && st == Y.AssignTask(old(st), p) && (st.intact ==> Valid())
      ensures !st.intact ==> ReadyQ in lists.queue && forall s: seq<Node> :: !lists.queue[ReadyQ].Spells(s)
    {
      hide Good, Agree, Contents, Heap.Valid, Words, Queue.Spells, Y.AssignTask;
      ghost var w0, st0 := lists.w, st;
      GoodOf();
      AssignCase(w0, st, p);
      Assigned(st, p);
      SetFresh(p);
      lists.Assign(p);
      if p !in st0.ready { AgreeAssigned(w0, lists.w, st0, p); }
    }

    /** The fields of the new process. */
    method SetFresh(p: Slot)
      requires Words()
      modifies pcb, `nextPid, `st
      ensures Words() && st == Y.AssignTask(old(st), p)
    {
      pcb[p] := Proc(nextPid, Embryo, pcb[p].sleepEnd, pcb[p].chan, User);
      nextPid := nextPid + 1;
      st := Y.AssignTask(st, p);
    }

    /**
     The body of kill. The ready queue stays a list except when a channel left
     over from an earlier life has the head or the tail of it removed.
     */
    method KillSlot(p: Slot)
      requires Valid() && (forall q {:trigger Q(st.queues, q)} :: p in Q(st.queues, q) ==> st.pcb[p].chan == Some(q))
      modifies this, pcb, lists, lists.Repr
      ensures fresh(lists.Repr - old(lists.Repr)) && st == Y.KillSlot(old(st), p) && (st.intact ==> Valid())
      ensures !st.intact ==> ReadyQ in lists.queue && forall s: seq<Node> :: !lists.queue[ReadyQ].Spells(s)
    {
      hide Good, Agree, Contents, Heap.Valid, Words, Queue.Spells, Y.KillSlot;
      ghost var w0, st0 := lists.w, st;
      GoodOf();
      var chan := ChanOf(p);
      SetKilled(p);
      match chan
      case None =>
        KilledPlain(w0, st0, p);
      case Some(q) =>
        TransferCase(w0, st0, p, q);
        ghost var k := lists.Transfer(BlockQ(q), Process(p));
        KilledEnd(w0, st0, p, q, k);
        if st.intact { AgreeKilled(w0, lists.w, st0, p, q, k); }
    }

    function ChanOf(p: Slot): (c: Option<QueueId>)
      reads this, pcb, lists, lists.Repr
      requires Valid()
      ensures c == st.pcb[p].chan
    {
      pcb[p].chan
    }

    method SetKilled(p: Slot)
      requires Words()
      modifies pcb, `st
      ensures Words() && st == Y.KillSlot(old(st), p)
    {
      pcb[p] := pcb[p].(status := Exited);
      st := Y.KillSlot(st, p);
    }

    function StatusOf(p: Slot): (r: Status)
      reads this, pcb, lists, lists.Repr
      requires Valid()
      ensures r == st.pcb[p].status
    {
      pcb[p].status
    }

    function PidOf(p: Slot): (r: nat)
      reads this, pcb, lists, lists.Repr
      requires Valid()
      ensures r == st.pcb[p].pid
    {
      pcb[p].pid
    }

    method Spawn()
      requires Valid() && Reusable(st)
      modifies this, pcb, lists, lists.Repr
      ensures fresh(lists.Repr - old(lists.Repr)) && st == Y.SpawnTask(old(st)) && (st.intact ==> Valid())
      ensures !st.intact ==> ReadyQ in lists.queue && forall s: seq<Node> :: !lists.queue[ReadyQ].Spells(s)
    {
      assert st.intact;
      hide Valid, Queue.Spells;
      var i := 0;
      while i < NUM_MAX_TASK
        invariant 0 <= i <= NUM_MAX_TASK && Valid() && st == old(st) && lists.Repr == old(lists.Repr)
        invariant Y.FindExited(st.pcb, i) == Y.FindExited(st.pcb, 0)
      {
        if StatusOf(i) == Exited {
          AssignTask(i);
          return;
        }
        i := i + 1;
      }
    }

    method Kill(pid: nat)
      requires Valid() && Channelled(st)
      modifies this, pcb, lists, lists.Repr
      ensures fresh(lists.Repr - old(lists.Repr)) && st == Y.KillPid(old(st), pid) && (st.intact ==> Valid())
      ensures !st.intact ==> ReadyQ in lists.queue && forall s: seq<Node> :: !lists.queue[ReadyQ].Spells(s)
    {
      assert st.intact;
      hide Valid, Queue.Spells;
      var i := 0;
      while i < NUM_MAX_TASK
        invariant 0 <= i <= NUM_MAX_TASK && Valid() && st == old(st) && lists.Repr == old(lists.Repr)
        invariant Y.FindLive(st.pcb, pid, i) == Y.FindLive(st.pcb, pid, 0)
      {
        if PidOf(i) == pid && StatusOf(i) != Exited {
          KillSlot(i);
          return;
        }
        i := i + 1;
      }
    }

    method Wait(pid: nat) returns (parked: bool)
      requires Valid() && Loose(st, st.cur)
      modifies this, pcb, lists, lists.Repr
      ensures Valid() && fresh(lists.Repr - old(lists.Repr)) && Y.Seg(st, parked) == Y.WaitSeg(old(st), pid)
    {
      hide Valid, Loose;
      parked := false;
      var i := 0;
      while i < NUM_MAX_TASK
        invariant 0 <= i <= NUM_MAX_TASK && Valid() && st == old(st) && lists.Repr == old(lists.Repr) && !parked
        invariant Y.FindLive(st.pcb, pid, i) == Y.FindLive(st.pcb, pid, 0)
      {
        if PidOf(i) == pid && StatusOf(i) != Exited {
          if PidOf(Current()) != pid {
            BlockOn(Waiting(i), User);
            parked := true;
          }
          return;
        }
        i := i + 1;
      }
    }

    // --------------------------------------------------------- kernel/locking

    /** One pass of do_mutex_lock_acquire; true when the lock is now held. */
    method TryAcquire(l: LockId, k: AfterLock) returns (taken: bool)
      requires Valid() && Loose(st, st.cur) && (l !in st.locked ==> Unheld(st, l))
      modifies this, pcb, lists, lists.Repr
      ensures Valid() && fresh(lists.Repr - old(lists.Repr)) && taken == (l !in old(st).locked)
      ensures taken ==> st == S.TakeLock(old(st), l)
      ensures !taken ==> st == Y.BlockOn(old(st), LockQ(l), Acquiring(l, k)).st
    {
      hide Valid, Loose, Unheld;
      taken := !IsLocked(l);
      if taken {
        PushHold(l);
        SetLocked(l);
      } else {
        BlockOn(LockQ(l), Acquiring(l, k));
      }
    }

    function IsLocked(l: LockId): (b: bool)
      reads this, pcb, lists, lists.Repr
      requires Valid()
      ensures b <==> l in st.locked
    {
      l in locked
    }

    method MutexAcquire(l: LockId) returns (parked: bool)
      requires Valid() && Loose(st, st.cur) && (l !in st.locked ==> Unheld(st, l))
      modifies this, pcb, lists, lists.Repr
      ensures Valid() && fresh(lists.Repr - old(lists.Repr)) && Y.Seg(st, parked) == Y.AcquireThen(old(st), l, Return)
    {
      hide Valid, Loose, Unheld;
      var taken := TryAcquire(l, Return);
      if taken { SetContinuation(User); }
      parked := !taken;
    }

    method SetSem(s: nat, v: Sem)
      requires Valid()
      modifies `sems, `st
      ensures Valid() && st == Y.SetSem(old(st), s, v)
    {
      hide Agree, Heap.Valid;
      sems := sems[s := v];
      st := Y.SetSem(st, s, v);
      AgreeFrame(lists.w, lists.w, old(st), st);
    }

    method SetBar(b: nat, v: Bar)
      requires Valid()
      modifies `bars, `st
      ensures Valid() && st == Y.SetBar(old(st), b, v)
    {
      hide Agree, Heap.Valid;
      bars := bars[b := v];
      st := Y.SetBar(st, b, v);
      AgreeFrame(lists.w, lists.w, old(st), st);
    }

    function SemOf(s: nat): (v: Sem)
      reads this, pcb, lists, lists.Repr
      requires Valid()
      ensures v == SemAt(st, s)
    {
      if s in sems then sems[s] else Sem(0, 0, 0, 0)
    }

    function BarOf(b: nat): (v: Bar)
      reads this, pcb, lists, lists.Repr
      requires Valid()
      ensures v == BarAt(st, b)
    {
      if b in bars then bars[b] else Bar(0, 0, 0, 0)
    }

    /** count++ and do_unblock_one */
    method SemPlus(s: nat)
      requires Valid()
      modifies this, pcb, lists, lists.Repr
      ensures Valid() && fresh(lists.Repr - old(lists.Repr)) && st == Y.SemPlus(old(st), s)
    {
      hide Valid, S.WakeOne;
      var v := SemOf(s);
      SetSem(s, v.(count := v.count + 1, ups := v.ups + 1));
      UnblockOne(SemQ(s));
    }

    method SemaphoreUp(s: nat) returns (parked: bool)
      requires Valid() && Loose(st, st.cur) && (SemLock(s) !in st.locked ==> Unheld(st, SemLock(s)))
      modifies this, pcb, lists, lists.Repr
      ensures Valid() && fresh(lists.Repr - old(lists.Repr)) && Y.Seg(st, parked) == Y.AcquireThen(old(st), SemLock(s), UpBody(s))
    {
      hide Valid, Loose, Unheld, Y.SemPlus, S.Release, S.TakeLock, S.ParkBlocked, SetCont;
      var taken := TryAcquire(SemLock(s), UpBody(s));
      if taken {
        SemPlus(s);
        MutexRelease(SemLock(s));
        SetContinuation(User);
      }
      parked := !taken;
    }

    /** semaphore_down from its (re)acquire of the lock to the next block or return. */
    method SemaphoreDown(s: nat) returns (parked: bool)
      requires Valid() && Loose(st, st.cur) && (SemLock(s) !in st.locked ==> Unheld(st, SemLock(s)))
      modifies this, pcb, lists, lists.Repr
      ensures Valid() && fresh(lists.Repr - old(lists.Repr)) && Y.Seg(st, parked) == Y.AcquireThen(old(st), SemLock(s), DownBody(s))
    {
      hide Valid, Loose, Unheld, S.Release, S.TakeLock, S.ParkBlocked, SetCont;
      LooseTaken(st, SemLock(s));
      var taken := TryAcquire(SemLock(s), DownBody(s));
      parked := !taken;
      if taken {
        var v := SemOf(s);
        if v.count <= 0 {
          LooseReleased(st, SemLock(s));
          MutexRelease(SemLock(s));
          BlockOn(SemQ(s), DownWoken(s));
          parked := true;
        } else {
          SetSem(s, v.(count := v.count - 1, downs := v.downs + 1));
          MutexRelease(SemLock(s));
          SetContinuation(User);
        }
      }
    }

    method BarrierOpens(b: nat)
      requires Valid()
      modifies this, pcb, lists, lists.Repr
      ensures Valid() && fresh(lists.Repr - old(lists.Repr)) && st == Y.BarrierOpens(old(st), b)
    {
      hide Valid;
      UnblockAll(BarQ(b));
      var v := BarOf(b);
      SetBar(b, v.(count := 0, gen := v.gen + 1));
    }

    method BarrierArrive(b: nat) returns (parked: bool)
      requires Valid() && Loose(st, st.cur) && (BarLock(b) !in st.locked ==> Unheld(st, BarLock(b)))
      modifies this, pcb, lists, lists.Repr
      ensures Valid() && fresh(lists.Repr - old(lists.Repr)) && Y.Seg(st, parked) == Y.AcquireThen(old(st), BarLock(b), BarrierBody(b))
    {
      hide Valid, Loose, Unheld, S.Release, S.TakeLock, S.ParkBlocked, SetCont, Y.BarrierOpens;
      LooseTaken(st, BarLock(b));
      var taken := TryAcquire(BarLock(b), BarrierBody(b));
      parked := !taken;
      if taken {
        var v := BarOf(b);
        LooseArrived(st, b);
        SetBar(b, v.(count := v.count + 1, arrivals := v.arrivals + 1));
        if v.count + 1 == v.max {
          BarrierOpens(b);
          MutexRelease(BarLock(b));
          SetContinuation(User);
        } else {
          LooseReleased(st, BarLock(b));
          MutexRelease(BarLock(b));
          BlockOn(BarQ(b), BarrierWoken(b, v.gen));
          parked := true;
        }
      }
    }

    method BarrierLeave(b: nat, g: nat) returns (parked: bool)
      requires Valid() && Loose(st, st.cur) && (BarLock(b) !in st.locked ==> Unheld(st, BarLock(b)))
      modifies this, pcb, lists, lists.Repr
      ensures Valid() && fresh(lists.Repr - old(lists.Repr)) && Y.Seg(st, parked) == Y.AcquireThen(old(st), BarLock(b), BarrierTail(b, g))
    {
      hide Valid, Loose, Unheld, S.Release, S.TakeLock, S.ParkBlocked, SetCont;
      var taken := TryAcquire(BarLock(b), BarrierTail(b, g));
      if taken {
        MutexRelease(BarLock(b));
        SetContinuation(User);
      }
      parked := !taken;
    }

    method ConditionWait(l: LockId, c: nat)
      requires Valid() && Loose(st, st.cur)
      modifies this, pcb, lists, lists.Repr
      ensures Valid() && fresh(lists.Repr - old(lists.Repr)) && st == Y.CondWaitSeg(old(st), l, c).st
    {
      hide Valid, Loose, S.Release, S.ParkBlocked, SetCont;
      LooseReleased(st, l);
      MutexRelease(l);
      BlockOn(CondQ(c), CondWoken(l));
    }

    /** A dispatched process goes on with its system call. */
    method Resume() returns (parked: bool)
      requires Valid() && Loose(st, st.cur) && I.Conts(st) && (forall l {:trigger Unheld(st, l)} :: l !in st.locked ==> Unheld(st, l))
      modifies this, pcb, lists, lists.Repr
      ensures Valid() && fresh(lists.Repr - old(lists.Repr)) && Y.Seg(st, parked) == Y.ResumeSeg(old(st))
    {
      assert st.pcb[st.cur].cont.Acquiring? ==> st.pcb[st.cur].cont.after == Return;
      hide Valid, Loose, Unheld, Y.AcquireThen, I.Conts;
      match ContNow()
      case User => parked := false;
      case Acquiring(l, k) => assert l !in st.locked ==> Unheld(st, l); parked := MutexAcquire(l);
      case DownWoken(s) => assert SemLock(s) !in st.locked ==> Unheld(st, SemLock(s)); parked := SemaphoreDown(s);
      case BarrierWoken(b, g) => assert BarLock(b) !in st.locked ==> Unheld(st, BarLock(b)); parked := BarrierLeave(b, g);
      case CondWoken(l) => assert l !in st.locked ==> Unheld(st, l); parked := MutexAcquire(l);
    }

    // ----------------------------------------------------------------- the steps

    method ProcCall(op: Y.Op) returns (parked: bool)
      requires Valid() && Y.ProcOp(op) && Loose(st, st.cur) && Reusable(st) && Channelled(st)
      modifies this, pcb, lists, lists.Repr
      ensures fresh(lists.Repr - old(lists.Repr)) && Y.Seg(st, parked) == Y.Segment(old(st), op) && (st.intact ==> Valid())
    {
      hide Valid, Loose, Reusable, Channelled, Queue.Spells, S.ParkReady, S.ParkSleeping, S.ParkExited, Y.SpawnTask, Y.KillPid, Y.WaitSeg;
      parked := true;
      if op.Tick? { ParkReady(); }
      else if op.Sleep? { ParkSleeping(op.d); }
      else if op.Exit? { ParkExited(); }
      else if op.Spawn? { Spawn(); parked := false; }
      else if op.Kill? { Kill(op.pid); parked := false; }
      else { parked := Wait(op.pid); }
    }

    method QueueCall(op: Y.Op) returns (parked: bool)
      requires Valid() && Y.QueueOp(op) && Loose(st, st.cur)
      modifies this, pcb, lists, lists.Repr
      ensures Valid() && fresh(lists.Repr - old(lists.Repr)) && Y.Seg(st, parked) == Y.Segment(old(st), op)
    {
      hide Valid, Loose, S.WakeOne, S.WakeAll;
      parked := op.Block?;
      if op.Block? { BlockOn(UserQ(op.q), User); }
      else if op.UnblockOne? { UnblockOne(UserQ(op.q)); }
      else if op.UnblockAll? { UnblockAll(UserQ(op.q)); }
      else if op.Signal? { UnblockOne(CondQ(op.c)); }
      else { UnblockAll(CondQ(op.c)); }
    }

    method LockCall(op: Y.Op) returns (parked: bool)
      requires Valid() && !Y.ProcOp(op) && !Y.QueueOp(op) && Loose(st, st.cur) && I.Conts(st)
      requires forall l {:trigger Unheld(st, l)} :: l !in st.locked ==> Unheld(st, l)
      modifies this, pcb, lists, lists.Repr
      ensures Valid() && fresh(lists.Repr - old(lists.Repr)) && Y.Seg(st, parked) == Y.Segment(old(st), op)
    {
      hide Valid, Loose, Unheld, Y.AcquireThen, Y.ResumeSeg, Y.CondWaitSeg, S.Release, I.Conts;
      if op.Acquire? { assert UserLock(op.l) !in st.locked ==> Unheld(st, UserLock(op.l)); parked := MutexAcquire(UserLock(op.l)); }
      else if op.Unlock? { MutexRelease(UserLock(op.l)); parked := false; }
      else if op.Up? { assert SemLock(op.s) !in st.locked ==> Unheld(st, SemLock(op.s)); parked := SemaphoreUp(op.s); }
      else if op.Down? { assert SemLock(op.s) !in st.locked ==> Unheld(st, SemLock(op.s)); parked := SemaphoreDown(op.s); }
      else if op.BarrierWait? { assert BarLock(op.b) !in st.locked ==> Unheld(st, BarLock(op.b)); parked := BarrierArrive(op.b); }
      else if op.CondWait? { Waits(st, UserLock(op.l), op.c); ConditionWait(UserLock(op.l), op.c); parked := true; }
      else { parked := Resume(); }
    }

    method SetTime(dt: nat)
      requires Valid()
      modifies `time, `st
      ensures Valid() && st == old(st).(time := old(st).time + dt)
    {
      hide Agree, Heap.Valid;
      time := time + dt;
      st := st.(time := st.time + dt);
      AgreeFrame(lists.w, lists.w, old(st), st);
    }

    /** One step of the kernel, in place: the abstract step, with invariant and lists kept. */
    method Step(dt: nat, op: Y.Op)
      requires Valid() && I.Inv(st) && Y.Disciplined(st, op) && Y.Step(st, dt, op).Some?
      modifies this, pcb, lists, lists.Repr
      ensures Valid() && fresh(lists.Repr - old(lists.Repr)) && st == Y.Step(old(st), dt, op).value && I.Inv(st)
    {
      hide Valid, I.Inv, Y.Segment, Y.Disciplined, S.HasWork, I.Conts, Loose, Reusable, Channelled, Unheld;
      T.StepKeeps(st, dt, op);
      T.InvLater(st, dt);
      SetTime(dt);
      assert st == T.Later(old(st), dt);
      Facts(st);
      SegmentIntact(old(st), dt, op);
      var parked;
      if op.Tick? || op.Sleep? || op.Exit? || op.Spawn? || op.Kill? || op.Wait? {
        parked := ProcCall(op);
      } else if op.Block? || op.UnblockOne? || op.UnblockAll? || op.Signal? || op.Broadcast? {
        parked := QueueCall(op);
      } else {
        parked := LockCall(op);
      }
      if parked {
        DispatchLoop();
      }
    }

    // ------------------------------------------------------------------ the runs

    /** The queue of a name spells out `c`, head to tail by next links and back by prev links. */
    ghost predicate Chain(n: Name, c: seq<Item>)
      reads this, lists, lists.Repr
    {
      if n in lists.queue then
        var q := lists.queue[n];
        q in lists.Repr && (forall y: Node :: y in q.items ==> y in lists.Repr) && q.Valid() && Owners(q.items) == c
      else c == []
    }

    /**
     The queues of the kernel are well-formed linked lists of what the state says,
     no two of them share a node, and the current process is in none.
     */
    ghost predicate WellLinked()
      reads this, lists, lists.Repr
    {
      && Chain(ReadyQ, Procs(st.ready))
      && (forall q {:trigger Q(st.queues, q)} :: Chain(BlockQ(q), Procs(Q(st.queues, q))))
      && (forall p: Slot {:trigger st.pcb[p]} :: Chain(HoldQ(p), Mutexes(st.pcb[p].holding)))
      && (forall n, m {:trigger lists.queue[n], lists.queue[m]} :: n in lists.queue && m in lists.queue && n != m ==>
            lists.queue[n] in lists.Repr && lists.queue[m] in lists.Repr
            && forall y: Node :: y in lists.queue[n].items ==> y !in lists.queue[m].items)
      && (forall n {:trigger lists.queue[n]} :: n in lists.queue ==>
            lists.queue[n] in lists.Repr && forall y: Node :: y in lists.queue[n].items ==> y.owner != Process(st.cur))
    }

    lemma ChainOf(n: Name, c: seq<Item>)
      requires lists.Valid() && Contents(lists.w, n) == c
      ensures Chain(n, c)
    {
      if n in lists.queue {
        lists.QueueValid(n);
        lists.ContentsAre(n);
        assert Owners(lists.queue[n].items) == c;
      }
    }

    lemma Linked()
      requires Valid() && I.Inv(st)
      ensures WellLinked()
    {
      ChainOf(ReadyQ, Procs(st.ready));
      forall q
        ensures Chain(BlockQ(q), Procs(Q(st.queues, q)))
      {
        ChainOf(BlockQ(q), Procs(Q(st.queues, q)));
      }
      forall p: Slot
        ensures Chain(HoldQ(p), Mutexes(st.pcb[p].holding))
      {
        ChainOf(HoldQ(p), Mutexes(st.pcb[p].holding));
      }
      Facts(st);
      GoodOf();
      LooseUnlisted(lists.w, st, st.cur);
      forall n | n in lists.queue
        ensures lists.queue[n] in lists.Repr
        ensures forall y: Node :: y in lists.queue[n].items ==> y.owner in lists.w.at && lists.w.at[y.owner] == n
      {
        lists.QueueValid(n);
      }
    }
  }

  /**
   Every run from boot, carried out in place: the kernel ends in the state the run
   ends in, and all its queues are well-formed disjoint linked lists. As a run may
   stop anywhere, this holds of every reachable kernel.
   */
  method Run(sems: map<nat, Sem>, bars: map<nat, Bar>, es: seq<R.Event>, ghost run: seq<State>) returns (k: Kernel)
    requires R.Fresh(sems, bars) && R.IsRun(run, es) && run[0] == R.Boot(sems, bars)
    ensures k.Valid() && k.st == run[|es|] && I.Inv(k.st) && k.WellLinked()
  {
    R.BootInv(sems, bars);
    k := new Kernel(sems, bars);
    hide I.Inv, Kernel.Valid, R.Fresh, Kernel.WellLinked, R.Boot, Y.Step, Y.Disciplined, Y.Enabled;
    var i := 0;
    while i < |es|
      invariant 0 <= i <= |es| && k.Valid() && k.st == run[i] && I.Inv(k.st)
      invariant fresh(k) && fresh(k.pcb) && fresh(k.lists) && fresh(k.lists.Repr)
    {
      assert R.Follows(run[i], es[i], run[i + 1]);
      k.Step(es[i].dt, es[i].op);
      i := i + 1;
    }
    k.Linked();
  }

  lemma UnlistedLoose(w: World, st: State, p: Slot)
    requires Good(w) && Agree(w, st) && Process(p) !in w.at
    ensures Loose(st, p)
  {
    assert forall n {:trigger Contents(w, n)} :: Process(p) !in Contents(w, n) by {
      forall n
        ensures Process(p) !in Contents(w, n)
      {
        NotIn(w, n, Process(p));
      }
    }
    InProcs(st.ready, p);
    forall q
      ensures p !in Q(st.queues, q)
    {
      InProcs(Q(st.queues, q), p);
      assert Contents(w, BlockQ(q)) == Procs(Q(st.queues, q));
    }
  }

  lemma NotIn(w: World, n: Name, x: Item)
    requires Good(w) && x !in w.at
    ensures x !in Contents(w, n)
  {
    if n in w.view {
      var s := w.view[n].items;
      forall i | 0 <= i < |s|
        ensures s[i].owner != x
      {
        assert s[i] in w.view[n].items;
      }
    }
  }

  lemma InProcs(s: seq<Slot>, p: Slot)
    ensures p in s <==> Process(p) in Procs(s)
  {
    if p in s {
      var i :| 0 <= i < |s| && s[i] == p;
      assert Procs(s)[i] == Process(p);
    }
  }

  lemma InMutexes(h: seq<LockId>, l: LockId)
    ensures l in h <==> Mutex(l) in Mutexes(h)
  {
    if l in h {
      var i :| 0 <= i < |h| && h[i] == l;
      assert Mutexes(h)[i] == Mutex(l);
    }
  }

  lemma MutexesDrop(h: seq<LockId>, k: nat)
    requires k < |h|
    ensures Less(Mutexes(h), k) == Mutexes(h[..k] + h[k + 1..])
  {
  }

  lemma {:induction false} WithoutAt<T(!new)>(s: seq<T>, x: T, k: nat)
    requires NoDup(s) && k < |s| && s[k] == x
    ensures Without(s, x) == s[..k] + s[k + 1..]
  {
    WithoutFirst(s, x);
    NoDupTail(s);
    hide NoDup, Without;
    if k == 0 {
      assert s[..0] + s[1..] == s[1..];
    } else {
      assert s[1..][k - 1] == x;
      WithoutAt(s[1..], x, k - 1);
      DropFirst(s, k);
    }
  }

  lemma WithoutFirst<T(!new)>(s: seq<T>, x: T)
    requires s != [] && NoDup(s)
    ensures s[0] == x ==> Without(s, x) == s[1..]
    ensures s[0] != x ==> Without(s, x) == [s[0]] + Without(s[1..], x)
  {
    NoDupTail(s);
  }

  lemma DropFirst<T>(s: seq<T>, k: nat)
    requires 0 < k < |s|
    ensures s[..k] + s[k + 1..] == [s[0]] + (s[1..][..k - 1] + s[1..][k..])
  {
  }

  /** No item is in a list twice. */
  lemma ContentsOnce(w: World, n: Name)
    requires Good(w)
    ensures NoDup(Contents(w, n))
  {
    if n in w.view {
      var s := w.view[n].items;
      forall i, j | 0 <= i < j < |s|
        ensures s[i].owner != s[j].owner
      {
        assert s[i] in w.view[n].items && s[j] in w.view[n].items;
      }
    }
  }

  /** An item of a list is listed there. */
  lemma ListedAt(w: World, n: Name, x: Item)
    requires Good(w) && x in Contents(w, n)
    ensures x in w.at && w.at[x] == n
  {
    var k :| 0 <= k < |Contents(w, n)| && Contents(w, n)[k] == x;
    assert w.view[n].items[k] in w.view[n].items;
  }

  lemma AssignCase(w: World, st: State, p: Slot)
    requires Good(w) && Agree(w, st) && (forall q {:trigger Q(st.queues, q)} :: p !in Q(st.queues, q))
    ensures p in st.ready ==> Process(p) in w.at && w.at[Process(p)] == ReadyQ
    ensures p !in st.ready ==> Process(p) !in w.at
    ensures st.pcb[p].holding == [] ==> Contents(w, HoldQ(p)) == []
    ensures Q(st.queues, Waiting(p)) == [] ==> Contents(w, BlockQ(Waiting(p))) == []
  {
    if p in st.ready {
      InProcs(st.ready, p);
      ListedAt(w, ReadyQ, Process(p));
    } else {
      LooseUnlisted(w, st, p);
    }
  }

  lemma Assigned(st: State, p: Slot)
    ensures Y.AssignTask(st, p).intact <==> st.intact && p !in st.ready
  {
  }

  lemma AgreeAssigned(w: World, r: World, st: State, p: Slot)
    requires Agree(w, st) && p !in st.ready && st.pcb[p].holding == [] && Q(st.queues, Waiting(p)) == []
    requires Now(w, r, ReadyQ, Contents(w, ReadyQ) + [Process(p)])
    ensures Agree(r, Y.AssignTask(st, p))
  {
    ProcsPush(st.ready, p);
    QUpdated(st.queues, Waiting(p), []);
  }

  lemma KilledPlain(w: World, st: State, p: Slot)
    requires Agree(w, st) && st.pcb[p].chan.None?
    ensures Agree(w, Y.KillSlot(st, p)) && Y.KillSlot(st, p).intact == st.intact
  {
    AgreeFrame(w, w, st, Y.KillSlot(st, p));
  }

  /** Where a process with a channel is listed. */
  lemma TransferCase(w: World, st: State, p: Slot, q: QueueId)
    requires Good(w) && Agree(w, st) && st.pcb[p].chan == Some(q)
    requires forall q' {:trigger Q(st.queues, q')} :: p in Q(st.queues, q') ==> q' == q
    ensures p in Q(st.queues, q) ==> Process(p) in w.at && w.at[Process(p)] == BlockQ(q) && p !in st.ready
    ensures p in st.ready ==> Process(p) in w.at && w.at[Process(p)] == ReadyQ
    ensures p !in Q(st.queues, q) && p !in st.ready ==> Process(p) !in w.at
  {
    if p in Q(st.queues, q) {
      InProcs(Q(st.queues, q), p);
      ListedAt(w, BlockQ(q), Process(p));
    }
    if p in st.ready {
      InProcs(st.ready, p);
      ListedAt(w, ReadyQ, Process(p));
    }
    if p !in Q(st.queues, q) && p !in st.ready {
      LooseUnlisted(w, st, p);
    }
  }

  /** Member k of the ready queue is an end of it exactly when it is not inside. */
  lemma KilledEnd(w: World, st: State, p: Slot, q: QueueId, k: nat)
    requires Good(w) && Agree(w, st) && st.pcb[p].chan == Some(q)
    requires forall q' {:trigger Q(st.queues, q')} :: p in Q(st.queues, q') ==> q' == q
    requires Process(p) in w.at ==> k < |Contents(w, w.at[Process(p)])| && Contents(w, w.at[Process(p)])[k] == Process(p)
    ensures Y.KillSlot(st, p).intact <==> st.intact && !(Process(p) in w.at && w.at[Process(p)] == ReadyQ && !(0 < k < |Contents(w, ReadyQ)| - 1))
  {
    TransferCase(w, st, p, q);
    if p in st.ready {
      ContentsOnce(w, ReadyQ);
      ProcsOnce(st.ready);
      hide Good;
      assert st.ready[k] == p;
      assert Y.Inside(st.ready, p) <==> 0 < k < |st.ready| - 1;
    }
  }

  lemma ProcsOnce(s: seq<Slot>)
    requires NoDup(Procs(s))
    ensures NoDup(s)
  {
    forall i, j | 0 <= i < j < |s|
      ensures s[i] != s[j]
    {
      assert Procs(s)[i] != Procs(s)[j];
    }
  }

  lemma ProcsDrop(s: seq<Slot>, p: Slot, k: nat)
    requires NoDup(Procs(s)) && k < |s| && s[k] == p
    ensures Less(Procs(s), k) == Procs(Without(s, p))
  {
    ProcsOnce(s);
    WithoutAt(s, p, k);
    assert Less(Procs(s), k) == Procs(s[..k] + s[k + 1..]);
  }

  /** `r` is `w` with `x` taken out of the list it was member k of, and pushed onto the ready queue. */
  ghost predicate Moved(w: World, r: World, x: Item, k: nat) {
    forall m {:trigger Contents(r, m)} :: Contents(r, m) ==
      (if x in w.at && m == w.at[x] then Less(Contents(w, m), k) else Contents(w, m)) + (if m == ReadyQ then [x] else [])
  }

  lemma AgreeKilled(w: World, r: World, st: State, p: Slot, q: QueueId, k: nat)
    requires Good(w) && Agree(w, st) && st.pcb[p].chan == Some(q) && Moved(w, r, Process(p), k)
    requires forall q' {:trigger Q(st.queues, q')} :: p in Q(st.queues, q') ==> q' == q
    requires Process(p) in w.at ==> k < |Contents(w, w.at[Process(p)])| && Contents(w, w.at[Process(p)])[k] == Process(p)
    ensures Agree(r, Y.KillSlot(st, p))
  {
    hide Good, Contents, Agree;
    TransferCase(w, st, p, q);
    ContentsOnce(w, ReadyQ);
    ContentsOnce(w, BlockQ(q));
    AgreesAt(w, st, q);
    KilledQueues(st, p, q);
    var to := Y.KillSlot(st, p);
    if p in Q(st.queues, q) {
      ProcsDrop(Q(st.queues, q), p, k);
      ProcsPush(st.ready, p);
    } else if p in st.ready {
      ProcsDrop(st.ready, p, k);
      ProcsPush(Without(st.ready, p), p);
    } else {
      ProcsPush(st.ready, p);
    }
    MovedEnds(w, r, Process(p), k, q);
    hide Y.KillSlot, Moved;
    AgreeParts(w, r, st, to, p, q, k);
  }

  lemma MovedEnds(w: World, r: World, x: Item, k: nat, q: QueueId)
    requires Moved(w, r, x, k)
    ensures Contents(r, ReadyQ) == (if x in w.at && w.at[x] == ReadyQ then Less(Contents(w, ReadyQ), k) else Contents(w, ReadyQ)) + [x]
    ensures Contents(r, BlockQ(q)) == if x in w.at && w.at[x] == BlockQ(q) then Less(Contents(w, BlockQ(q)), k) else Contents(w, BlockQ(q))
  {
    hide Contents;
  }

  lemma AgreesAt(w: World, st: State, q: QueueId)
    requires Agree(w, st)
    ensures Contents(w, ReadyQ) == Procs(st.ready) && Contents(w, BlockQ(q)) == Procs(Q(st.queues, q))
  {
  }

  lemma KilledQueues(st: State, p: Slot, q: QueueId)
    requires st.pcb[p].chan == Some(q)
    ensures var to := Y.KillSlot(st, p);
      && (forall q' {:trigger Q(to.queues, q')} :: q' != q ==> Q(to.queues, q') == Q(st.queues, q'))
      && Q(to.queues, q) == Without(Q(st.queues, q), p)
      && (forall o: Slot {:trigger to.pcb[o]} :: to.pcb[o].holding == st.pcb[o].holding)
  {
    QUpdated(st.queues, q, Without(Q(st.queues, q), p));
  }

  lemma AgreeParts(w: World, r: World, st: State, to: State, p: Slot, q: QueueId, k: nat)
    requires Agree(w, st) && Moved(w, r, Process(p), k)
    requires Process(p) in w.at ==> w.at[Process(p)] == BlockQ(q) || w.at[Process(p)] == ReadyQ
    requires Contents(r, ReadyQ) == Procs(to.ready) && Contents(r, BlockQ(q)) == Procs(Q(to.queues, q))
    requires forall q' {:trigger Q(to.queues, q')} :: q' != q ==> Q(to.queues, q') == Q(st.queues, q')
    requires forall o: Slot {:trigger to.pcb[o]} :: to.pcb[o].holding == st.pcb[o].holding
    ensures Agree(r, to)
  {
    hide Contents;
    forall q'
      ensures Contents(r, BlockQ(q')) == Procs(Q(to.queues, q'))
    {
      if q' != q {
        assert Contents(r, BlockQ(q')) == Contents(w, BlockQ(q')) + [];
      }
    }
    forall o: Slot
      ensures Contents(r, HoldQ(o)) == Mutexes(to.pcb[o].holding)
    {
      assert Contents(r, HoldQ(o)) == Contents(w, HoldQ(o)) + [];
    }
  }

  /** What spawn finds true of a dead slot: in no blocking queue, and clean once it is out of the ready queue. */
  ghost predicate Reusable(st: State) {
    forall p: Slot {:trigger st.pcb[p]} :: st.pcb[p].status == Exited ==>
      && (forall q {:trigger Q(st.queues, q)} :: p !in Q(st.queues, q))
      && (p !in st.ready ==> st.pcb[p].holding == [] && Q(st.queues, Waiting(p)) == [])
  }

  /** Whoever is in a blocking queue has it for channel. */
  ghost predicate Channelled(st: State) {
    forall q, p {:trigger p in Q(st.queues, q)} :: p in Q(st.queues, q) ==> st.pcb[p].chan == Some(q)
  }

  /** Taking, releasing and arriving put nobody into a queue who was in none. */
  lemma LooseTaken(st: State, l: LockId)
    requires Loose(st, st.cur)
    ensures Loose(S.TakeLock(st, l), st.cur) && S.TakeLock(st, l).cur == st.cur
    ensures forall n: nat :: SemAt(S.TakeLock(st, l), n) == SemAt(st, n) && BarAt(S.TakeLock(st, l), n) == BarAt(st, n)
  {
  }

  lemma LooseReleased(st: State, l: LockId)
    requires Loose(st, st.cur)
    ensures Loose(S.Release(st, l), st.cur) && S.Release(st, l).cur == st.cur
  {
    S.ReleaseSpec(st, l);
  }

  lemma LooseArrived(st: State, b: nat)
    requires Loose(st, st.cur)
    ensures Loose(Y.Arrive(st, b), st.cur) && Y.Arrive(st, b).cur == st.cur
  {
  }

  lemma Waits(st: State, l: LockId, c: nat)
    ensures Y.CondWaitSeg(st, l, c).parked
  {
  }

  /** The invariant gives every call what it needs. */
  lemma Facts(st: State)
    requires I.Inv(st)
    ensures Loose(st, st.cur) && Reusable(st) && Channelled(st) && I.Conts(st)
    ensures forall l {:trigger Unheld(st, l)} :: l !in st.locked ==> Unheld(st, l)
  {
  }

  lemma SegmentIntact(st: State, dt: nat, op: Y.Op)
    requires I.Inv(st) && Y.Disciplined(st, op)
    ensures Y.Segment(T.Later(st, dt), op).st.intact
  {
    T.InvLater(st, dt);
    T.SegmentKeeps(T.Later(st, dt), op);
  }
}
