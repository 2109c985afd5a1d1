/**
 The state of the scheduler and of everything that blocks through it
 (include/os/sched.h, lock.h, sem.h, barrier.h, cond.h).

 Every queue_t is the sequence of its members, head first; `queue_t *` is a
 QueueId. A process blocked inside a system call remembers where it will
 continue: the kernel stack saved by block_sched becomes a `Cont`.
 */
module KernelState {
  import opened Prelude

  const NUM_MAX_TASK: nat := 32

  /** An index of the process table, i.e. a `pcb_t *`. */
  type Slot = i: int | 0 <= i < NUM_MAX_TASK witness 0

  datatype Status = Embryo | Sleeping | Blocked | Running | Ready | Exited

  /** User mutexes and the mutexes embedded in semaphores and barriers. */
  datatype LockId = UserLock(id: nat) | SemLock(sem: nat) | BarLock(bar: nat)

  /** The blocking queues; the ready queue is a field of its own. */
  datatype QueueId =
    | Waiting(slot: Slot)
    | LockQ(lock: LockId)
    | SemQ(sem: nat)
    | BarQ(bar: nat)
    | CondQ(cond: nat)
    | UserQ(id: nat)

  /** What is left of a system call once do_mutex_lock_acquire returns. */
  datatype AfterLock =
    | Return
    | UpBody(sem: nat)
    | DownBody(sem: nat)
    | BarrierBody(bar: nat)
    | BarrierTail(bar: nat, gen: nat)

  /** Where a process continues when it is dispatched. */
  datatype Cont =
    | User                                  // back in user code
    | Acquiring(lock: LockId, after: AfterLock) // in the retry loop of acquire
    | DownWoken(sem: nat)                   // after do_block in semaphore_down
    | BarrierWoken(bar: nat, gen: nat)      // after do_block in barrier_wait
    | CondWoken(lock: LockId)               // after do_block in condition_wait

  datatype Pcb = Pcb(
    pid: nat,
    status: Status,
    sleepEnd: nat,
    chan: Option<QueueId>,
    holding: seq<LockId>,
    cont: Cont)

  const FREE_PCB := Pcb(0, Exited, 0, None, [], User)

  type Table = t: seq<Pcb> | |t| == NUM_MAX_TASK witness seq(NUM_MAX_TASK, _ => FREE_PCB)

  /** A semaphore; `init`, `ups` and `downs` record its history. */
  datatype Sem = Sem(count: int, init: int, ups: nat, downs: nat)

  /** A barrier; `gen` counts completed rounds, `arrivals` all calls so far. */
  datatype Bar = Bar(count: int, max: int, gen: nat, arrivals: nat)

  datatype State = State(
    pcb: Table,
    cur: Slot,                          // current_running
    ready: seq<Slot>,                   // ready_queue
    queues: Queues,                     // absent: empty
    locked: set<LockId>,                // the locks whose status is LOCKED
    sems: map<nat, Sem>,                // absent: zero-initialised memory
    bars: map<nat, Bar>,
    nextPid: nat,                       // process_id
    time: nat,                          // get_timer()
    faults: nat,                        // times "error: scheduler" was printed
    intact: bool)                       // head, tail, prev and next still spell out every queue

  type Queues = map<QueueId, seq<Slot>>

  function Q(queues: Queues, q: QueueId): seq<Slot> {
    if q in queues then queues[q] else []
  }

  lemma QUpdated(queues: Queues, q: QueueId, s: seq<Slot>)
    ensures forall q' {:trigger Q(queues[q := s], q')} ::
      Q(queues[q := s], q') == if q' == q then s else Q(queues, q')
  {
  }

  function SemAt(st: State, s: nat): Sem {
    if s in st.sems then st.sems[s] else Sem(0, 0, 0, 0)
  }

  function BarAt(st: State, b: nat): Bar {
    if b in st.bars then st.bars[b] else Bar(0, 0, 0, 0)
  }

  function SetPcb(st: State, p: Slot, b: Pcb): State {
    st.(pcb := st.pcb[p := b])
  }

  function SetQueue(st: State, q: QueueId, s: seq<Slot>): State {
    st.(queues := st.queues[q := s])
  }

  function SetCont(st: State, c: Cont): State {
    SetPcb(st, st.cur, st.pcb[st.cur].(cont := c))
  }

  predicate Live(st: State, p: Slot) {
    st.pcb[p].status != Exited
  }

  lemma NoDupSlots(s: seq<Slot>, t: seq<Slot>)
    requires NoDup(s) && NoDup(t)
    requires forall p: Slot :: p in s ==> p !in t
    ensures NoDup(s + t)
  {
    forall i, j | 0 <= i < j < |s + t|
      ensures (s + t)[i] != (s + t)[j]
    {
      if i < |s| <= j {
        assert s[i] in s && (s + t)[j] == t[j - |s|] && t[j - |s|] in t;
      }
    }
  }
}
