# A verified model of a small MIPS teaching kernel

This project models the parts of the kernel that carry its guarantees and
proves those guarantees, for all inputs and over all runs. Nothing is executed:
`dafny verify dfyconfig.toml` checks everything.

The model follows the source. Code that updates global structures in place is a
class whose methods carry the loops of the source; each method is proved to take
the abstract state where a function says, and the theorems are about those
functions.

**Processes and synchronisation.** A state holds the process table,
`current_running`, the ready queue, every blocking queue, the locks, semaphores
and barriers (`KernelState`). Exceptions are taken with interrupts masked, so a
system call is atomic up to its next `do_block`; what follows the block is a
later step of the same process, remembered as a continuation (`Syscalls`).
`Scheduler`, `DispatchLoop`, `Linkage`, `Mutexes`, `Invariant`, `Steps`, `Sync`
and `Fairness` prove what the pieces do; `Runs` and `Guarantees` state what holds
of every interleaved run from boot; `Calls` tells what every single call does and
what a mutex gives its owner over a run; `Discipline` shows that each demand on
callers is exact, and `Witnesses` that each can be missed from boot. `LinkedQueue`
has the intrusive doubly linked lists of queue.c, `Lists` all the lists of the
kernel over one set of nodes, and `KernelImpl` the kernel in place on them:
`KernelImpl.Run` carries every run out on the links. `Mailbox` is the 32-byte ring
built on two semaphores, and `MailKernel` the same ring on the kernel itself.

**File system.** `FileSystem` is the inode table, the directory blocks and the
calls on them, with a consistency invariant over every run; `FileCalls` tells what
each call does to names, files and the current directory; `Bitmap` is the inode
map; `Paths` the path tokeniser; `FileSystemImpl` the calls as loops. `DiskLayout`
and `SdCard` place everything on the sectors of the card, `CardFs` carries out every
call on those bytes and proves it to be the same call, `FileIo` reads and
writes open files, and `Descriptors` puts the table of open files on the card.

**Memory, text, screen.** `Paging` is demand paging and the TLB; `Numerals` and
`Printk` are number printing and bounded formatting, and `Formats` says what a
format means; `Screen` is the screen buffer with its dirty-cell refresh, and
`Terminal` the characters it sends.

## Where the code needs care

- `queue_remove` (kernel/sched/queue.c:87) stores through `pcb->next` where the
  item's own next link was meant. `LinkedQueue.Queue.Remove` is the code as it is,
  with the exact condition under which the list survives, for any place of slot 0
  and with its next link NULL too; the kernel model uses the intended unlink,
  `LinkedQueue.Queue.Unlink`.
- `spawn` may pick a killed slot that is still queued, and queue_push then cuts the
  ready queue at that slot. `kill` may hit the running process. It may also follow a
  channel left over by an earlier life of the slot (`assign_task` does not clear
  `chan`): queue_remove then unlinks the victim from the list it is really in, which
  does no harm strictly inside the ready queue and ruins the queue at either end. A
  release does not check ownership. In the abstract state a ruined queue is the flag
  `intact` going down; that the links then spell out no list is proved in
  `LinkedQueue`, `Lists` and `KernelImpl`. `Discipline` proves that the invariant
  survives exactly when these cases are avoided, and `Witnesses` reaches each of them.
- The dispatch loop does not handle an empty ready queue and time stands still
  inside it. `DispatchLoop` says exactly when it ends, crashes or turns for ever.
- A kill can take away the retry that the sleepers of a semaphore depend on;
  `Sync.KillSemIff` says exactly when. A kill of a process asleep on a barrier leaves
  the count above the number of sleepers (`Sync.KillBarIff`); the barrier still opens
  after max arrivals, and nobody leaves it early (`Runs.NoEarlyReturn`). Whether the
  missing arrivals ever come is up to the programs.
- The mailbox reduces its index before it waits, so with two senders a store can
  leave the buffer; `Mailbox.SafeIff` says exactly who may use it safely.
- A descriptor keeps the inode of a removed file, which a new directory may reuse;
  `Descriptors.WriteIff` says exactly which writes are then harmless.
- Directory scans in kernel/fs/text.c run to 0x200 although a block holds 16
  entries; the model scans 16. Creating a name needs a free inode and a free slot,
  which the code does not check; the model says None there.
- The superblock structure is shorter than the sector moved into it; the model
  pads the sector with whatever memory held.
- A NUL in the screen buffer can be mistaken for a cell already up to date;
  `Screen.ReflushIsRedrawIff` gives the exact condition.
- The refresh ends with the cursor of the buffer, counted from 0, handed to a terminal
  that counts from 1; `Screen.CursorShownIff` says when the two agree.
- `holding` lists link mutexes through the offsets of a process structure; the model has
  generic nodes that know their owner.
- Lists and nodes come into being in the model when they are first used, where the
  source has them in static memory.
- `init_pcb` leaves the shell current with status EMBRYO, and the invariant allows it.

## Model

| member | source | states |
|---|---|---|
| `DispatchLoop.LoopEndsIffWork` | kernel/sched/sched.c:57-80 | From any state whatever, the dispatch loop ends if and only if the ready queue holds an eligible entry or a dead one whose reaping wakes somebody. |
| `DispatchLoop.LoopCrashesIffDrained` | kernel/sched/sched.c:57-80 | The loop dequeues from an empty queue if and only if there is neither such an entry nor a sleeper; with sleepers only it turns for ever, since time stands still inside it. |
| `DispatchLoop.WorkEnds` | kernel/sched/sched.c:57-80 | With work in the queue, a number of turns exists after which the turn-by-turn loop has stopped in exactly the state the recursive specification gives. |
| `Scheduler.TurnProgress` | kernel/sched/sched.c:57-80 | Every turn that goes round again keeps the loop able to end and lowers a lexicographic measure: departing entries, then the index of the first entry worth reaching. |
| `Scheduler.WakeAll` | kernel/sched/sched.c:119-128 | do_unblock_all moves the whole queue, in order, to the end of the ready queue, readies exactly its members and changes nothing else. |
| `Scheduler.ReleaseSpec` | kernel/locking/lock.c:36-42 | A release wakes exactly the sleepers of that lock, in order, drops it from the caller, and leaves every other queue, owner and field alone. |
| `Scheduler.DropLocksFrees` | kernel/sched/sched.c:45-48 | However many locks a dying process holds, afterwards it holds none, all of them are unlocked and their queues are empty. |
| `Scheduler.DropLocksWakes` | kernel/sched/sched.c:45-48 | The sleepers of all those locks become ready, queue after queue, and nobody else does. |
| `Scheduler.ReapSpec` | kernel/sched/sched.c:67-74 | Reaping appends the waiters and then the sleepers of each lock to the ready queue, empties exactly those queues and frees exactly those locks. |
| `Linkage.LinkedTurn` | kernel/sched/sched.c:57-79 | A turn keeps every process linked where its status says and never reaches the branch that prints the scheduler error. |
| `Linkage.LinkedDispatch` | kernel/sched/sched.c:57-83 | The whole loop keeps the linkage, prints no error, and leaves a RUNNING current process that is in no queue. |
| `Mutexes.MutexReap` | kernel/sched/sched.c:67-74 | Reaping keeps every lock with exactly one owner, nobody asleep on a free lock, and leaves the dead slot with no locks and no waiters. |
| `Mutexes.MutexDispatch` | kernel/sched/sched.c:57-83 | The same holds after the whole dispatch loop. |
| `Mutexes.MutexTakeLock` | kernel/locking/lock.c:27-34 | Taking a free lock keeps LOCKED equivalent to being in exactly one holding list, once. |
| `Fairness.DispatchSelects` | kernel/sched/sched.c:14-19 | The loop dispatches exactly the first eligible entry of the ready queue; passed-over sleepers and the processes woken by reaping follow the rest of the queue in order; a chosen sleeper was due. |
| `Fairness.DispatchProgress` | kernel/sched/sched.c:57-83 | One scheduler call dispatches a ready entry, reaps a dead one, or brings it strictly nearer to the head. |
| `Invariant.InvDispatch` | kernel/sched/sched.c:57-83 | The loop turns the invariant with nobody running into the invariant with a RUNNING current process. |
| `Invariant.UpIsCore` | kernel/locking/sem.c:12-18 | In every reachable state the internal acquire of semaphore_up finds its lock free, and taking and releasing it leaves no trace. |
| `Invariant.DownIsCore` | kernel/locking/sem.c:20-30 | The same for a first call and for every retry of semaphore_down. |
| `Invariant.BarrierIsCore` | kernel/locking/barrier.c:11-24 | The same for barrier_wait up to its block or return. |
| `Invariant.BarrierTailIsFinish` | kernel/locking/barrier.c:18-24 | A process woken from a barrier passes its re-acquire without ever blocking. |
| `Steps.SegmentKeeps` | kernel/sched/sched.c:21-128 | Any stretch of kernel code between two switch points keeps the invariant: queues are disjoint and well formed, locks have one owner, pids differ, embedded locks are free, no error was printed. |
| `Steps.StepKeeps` | kernel/sched/sched.c:21-86 | So does every disciplined step, scheduler call included. |
| `Steps.InvAssign` | kernel/sched/proc.c:64-88 | Reusing a reaped slot keeps the invariant: resetting its queues drops nobody. |
| `Steps.InvKill` | kernel/sched/proc.c:22-36 | Killing a process that is not running keeps the invariant when it has no channel, is blocked on it, or is strictly inside the ready queue. |
| `Discipline.SegmentKeepsIff` | kernel/sched/proc.c:9-88 | For every call in every invariant state: the invariant survives the kernel code if and only if the call meets a condition its caller could check. |
| `Discipline.SpawnIff` | kernel/sched/proc.c:9-20 | spawn is sound if and only if the slot it picks has already left the ready queue; to push it a second time leaves no well-formed list. |
| `Discipline.KillIff` | kernel/sched/proc.c:22-36 | kill is sound if and only if its victim is not the running process and either has no channel, or is BLOCKED, or has a channel left over from an earlier life of the slot but stands strictly inside the ready queue. |
| `Discipline.ReleaseIff` | kernel/locking/lock.c:36-42 | A release is sound if and only if nobody but the caller holds the lock. |
| `Discipline.CondWaitIff` | kernel/locking/cond.c:13-18 | The release inside condition_wait is sound under exactly the same condition. |
| `Sync.StepSync` | kernel/locking/sem.c:12-30 | Every step, kill included, keeps units conserved and counts from going negative, barrier counts between the number of sleepers and max, and rounds apart; without kills so far it also keeps units and sleepers from coexisting without a wake-up in flight, and barrier counts exact. |
| `Sync.PlusKeeps` | kernel/locking/sem.c:12-18 | An up adds a unit together with a retry in flight, or nobody sleeps. |
| `Sync.OpensKeeps` | kernel/locking/barrier.c:11-17 | The last arrival opens the barrier for exactly its own round. |
| `Sync.JoinKeeps` | kernel/locking/barrier.c:11-20 | An earlier arrival, fast re-entry included, counts towards the current round only. |
| `Sync.KillSemIff` | kernel/sched/proc.c:22-36 | A kill keeps a semaphore sound if and only if it does not take away the retry its sleepers depend on. |
| `Sync.KillBarIff` | kernel/sched/proc.c:22-36 | After a kill the count of a barrier is still the number of its sleepers if and only if the victim was not asleep on it. |
| `Sync.KillSync` | kernel/sched/proc.c:22-36 | A kill keeps units conserved and every barrier at a count between the number of its sleepers and max, with rounds apart. |
| `Runs.BootInv` | init/main.c:42-51 | The state init_pcb leaves satisfies every invariant, whatever initialised semaphores and barriers there are. |
| `Runs.RunKeeps` | kernel/sched/sched.c:21-128 | The invariant holds in every state of every run of disciplined steps. |
| `Runs.RunSync` | kernel/locking/sem.c:12-30 | In every state of every run, kills included, semaphores and barriers are sound; while there was no kill, no wake-up is lost and barrier counts are exact. |
| `Runs.NobodyIsLost` | kernel/sched/sched.c:21-128 | In every state reachable from boot: the current process is in no queue, every other live one is in the ready queue exactly when EMBRYO, READY or SLEEPING and in exactly the queue its channel names when BLOCKED, and the error branch was never taken. KernelImpl.Run has the same of the linked lists. |
| `Runs.MutualExclusion` | kernel/locking/lock.c:27-42 | In every run a lock is LOCKED exactly when some process holds it, never two, and a non-empty block queue means LOCKED; locks embedded in semaphores and barriers are free. Calls.CriticalSection says what that means for those who call acquire. |
| `Calls.CriticalSection` | kernel/locking/lock.c:27-42 | In every run, from a return of acquire, or of condition_wait, to the release, condition_wait, exit or kill that ends it, a process is the only owner of the mutex and nobody else is between the two. |
| `Calls.InsideHolds` | kernel/locking/lock.c:27-42 | Whoever is between the two holds the lock, whatever anybody else does. |
| `Calls.StepHolds` | kernel/locking/lock.c:36-42 | A live process keeps a lock through every step in which it does not give it up itself. |
| `Calls.EntersHolds` | kernel/locking/lock.c:27-34 | Whoever comes back to user code from an acquire, or from a condition_wait, has the lock. |
| `Calls.AcquireSleeps` | kernel/locking/lock.c:27-34 | Acquire of a lock somebody holds: the caller is the last sleeper on it, will try again, and nothing else changes. |
| `Calls.AcquireTakes` | kernel/locking/lock.c:27-34 | Acquire of a free lock: the caller returns at once as its only owner, and nothing else changes. |
| `Calls.UnlockFrees` | kernel/locking/lock.c:36-42 | A release by the owner, or of a free lock: it is free, nobody holds or sleeps on it, its sleepers are ready in order, and nobody else notices. |
| `Calls.CondWaitFrees` | kernel/locking/cond.c:13-18 | condition_wait up to its block: the mutex is free, its sleepers are ready in order, and the caller is the last in line for the condition. |
| `Calls.UpGives` | kernel/locking/sem.c:12-18 | One unit more, and the first sleeper, if any, is ready to take it; nobody else notices. |
| `Calls.DownTakes` | kernel/locking/sem.c:20-30 | A down, first call or retry, with a unit there takes it and returns; nothing else changes. |
| `Calls.DownSleeps` | kernel/locking/sem.c:20-30 | With none there the caller sleeps on the semaphore and will try again; nothing else changes. |
| `Calls.BarrierOpensAll` | kernel/locking/barrier.c:11-17 | The last arrival returns at once, everyone asleep on the barrier is ready in order, and a new round begins. |
| `Calls.BarrierSleeps` | kernel/locking/barrier.c:11-20 | An earlier arrival sleeps on the barrier, counted in the current round. |
| `Calls.BarrierLeaves` | kernel/locking/barrier.c:20-24 | A process woken from a barrier returns at once and nothing else changes. |
| `Calls.BlockSleeps` | kernel/sched/sched.c:98-101 | do_block: the caller is the last in line. |
| `Calls.SignalWakesOne` | kernel/sched/sched.c:108-117 | do_unblock_one and condition_signal ready exactly the longest sleeper; with nobody asleep nothing happens. |
| `Calls.BroadcastWakesAll` | kernel/sched/sched.c:119-128 | do_unblock_all and condition_broadcast ready everyone asleep there, in order, and nobody else. |
| `Calls.TickYields` | kernel/sched/sched.c:37-40 | The timer puts the caller, READY, at the end of the ready queue and calls the scheduler. |
| `Calls.WaitSleeps` | kernel/sched/proc.c:38-51 | wait on a live process other than the caller: the caller sleeps on its waiting queue. |
| `Calls.WaitReturns` | kernel/sched/proc.c:38-51 | wait on oneself, or on a pid no live process has, returns at once with nothing changed. |
| `Calls.SpawnStarts` | kernel/sched/proc.c:9-20 | The lowest free slot gets a process with a pid no live process has, EMBRYO, last in the ready queue, owning nothing; nobody else notices. |
| `Calls.SpawnFull` | kernel/sched/proc.c:9-20 | With every slot taken spawn changes nothing. |
| `Calls.KillEnds` | kernel/sched/proc.c:22-36 | The victim is dead, in the ready queue to be reaped and in no other; everyone else is where it was, as it was. |
| `Calls.KillNobody` | kernel/sched/proc.c:22-36 | kill of a pid no live process has changes nothing. |
| `Runs.NoEarlyReturn` | kernel/locking/barrier.c:11-24 | In every run, whoever is killed meanwhile, a process leaves a barrier only after max arrivals of its own round; while it sleeps fewer have arrived. |
| `Runs.SemaphoreBalance` | kernel/locking/sem.c:12-30 | In every run, kills included, the count is the initial one plus completed ups less completed downs. |
| `Runs.BoundedOvertaking` | kernel/sched/sched.c:57-83 | A process at position k of the ready queue that is READY or EMBRYO, or whose sleep is over, is dispatched before the run has made more than k + 1 scheduler calls, whatever else happens short of killing it. |
| `Runs.ReapedInTime` | kernel/sched/sched.c:67-74 | A killed process at position k is reaped before the run has made more than k + 1 scheduler calls, is never dispatched, and then holds no lock and keeps nobody waiting. |
| `Runs.KillNearer` | kernel/sched/proc.c:22-36 | A kill of somebody else never moves an entry of the ready queue back, not even when it takes one out of the middle. |
| `Witnesses.SpawnTooSoon` | kernel/sched/proc.c:9-36 | From boot: spawn, kill the newcomer; the next spawn picks a slot that is still queued and breaks the invariant. |
| `Witnesses.KillSelf` | kernel/sched/proc.c:22-36 | From boot: the shell kills itself, and the invariant is gone. |
| `Witnesses.StaleChannel` | kernel/sched/proc.c:22-36 | From boot: two reachable states in which the same slot carries the channel of an earlier life; at the tail of the ready queue a kill breaks the invariant, inside it the kill keeps it. |
| `Witnesses.ReleaseByOther` | kernel/locking/lock.c:36-42 | From boot: one process takes a lock, another releases it, and ownership is broken. |
| `Witnesses.KillRetry` | kernel/sched/proc.c:22-36 | From boot: the one woken retry of a semaphore is killed while another process sleeps, and the unit is left lying. |
| `Witnesses.KillBarrierSleeper` | kernel/sched/proc.c:22-36 | From boot: a process asleep on a barrier is killed, and the count no longer says how many sleep. |
| `Guarantees.ExitFrees` | kernel/sched/sched.c:41-49 | After exit the caller is gone, its locks are free with nobody asleep on them, and everyone who slept on one or waited for the caller can run. |
| `Guarantees.DeadStaysDead` | kernel/sched/sched.c:67-74 | A dead process is never dispatched and keeps its pid until spawn reuses its slot. |
| `Guarantees.ConditionQueue` | kernel/locking/cond.c:13-28 | A condition queue changes only as its own calls say: the waiter is in it from the very step that gave up the mutex, so a later signal finds it. |
| `Guarantees.ConditionReturn` | kernel/locking/cond.c:13-18 | condition_wait returns to user code only with the caller as sole owner of the mutex; otherwise it sleeps on the mutex and retries. |
| `Guarantees.SleepLasts` | kernel/sched/sched.c:32-36 | In every run a process that calls sleep(d) is not dispatched, and stays in the ready queue asleep, until the clock has advanced by d. |
| `Guarantees.StepTime` | kernel/sched/sched.c:57-84 | The clock never moves inside a step. |
| `Syscalls.FindExited` | kernel/sched/proc.c:11-16 | The slot spawn picks is the lowest EXITED one, and none is picked only when all are live. |
| `Syscalls.FindLive` | kernel/sched/proc.c:24-35 | kill and wait find a live process with that pid, or none exists. |
| `KernelImpl.Kernel.constructor` | init/main.c:42-51 | The kernel starts with empty linked lists in the state whose invariant is proved: the shell current, all other slots free. |
| `KernelImpl.Kernel.UnblockOne` | kernel/sched/sched.c:108-117 | In place, the head node of a queue is unlinked and becomes the tail of the ready list, as WakeOne says; all other lists keep their words. |
| `KernelImpl.Kernel.UnblockAll` | kernel/sched/sched.c:119-128 | The loop over the linked queue has the effect WakeAll describes. |
| `KernelImpl.Kernel.MutexRelease` | kernel/locking/lock.c:36-42 | In place, with queue_has and queue_remove on the linked holding list, the release ReleaseSpec describes. |
| `KernelImpl.Kernel.Reap` | kernel/sched/sched.c:67-74 | The two loops over linked lists have the effect ReapSpec describes. |
| `KernelImpl.Kernel.LoopBody` | kernel/sched/sched.c:58-80 | One turn ends the loop exactly when the head is eligible; otherwise it is the turn of the specification. |
| `KernelImpl.Kernel.DispatchLoop` | kernel/sched/sched.c:57-83 | Whenever there is work the loop terminates in the state that LinkedDispatch, DispatchSelects and DispatchProgress speak of. |
| `KernelImpl.Kernel.ParkExited` | kernel/sched/sched.c:41-49 | The exit path is marking the caller dead and reaping it. |
| `KernelImpl.Kernel.BlockOn` | kernel/sched/sched.c:27-31 | The caller joins the queue, BLOCKED on it, with the rest of its call to come. |
| `KernelImpl.Kernel.ParkReady` | kernel/sched/sched.c:37-40 | The caller goes READY to the end of the ready queue. |
| `KernelImpl.Kernel.ParkSleeping` | kernel/sched/sched.c:32-36 | The caller goes to the end of the ready queue with its wake-up time set from the clock. |
| `KernelImpl.Kernel.Spawn` | kernel/sched/proc.c:9-20 | The loop takes the lowest EXITED slot, or changes nothing; lists stay well formed exactly as far as AssignTask says. |
| `KernelImpl.Kernel.AssignTask` | kernel/sched/proc.c:64-88 | The slot is pushed with a fresh pid and empty holding and waiting lists, its old channel stays; if it was still queued, the links of the ready queue spell out no list at all. |
| `KernelImpl.Kernel.Kill` | kernel/sched/proc.c:22-36 | The loop kills the live process of that pid, or changes nothing; lists stay well formed exactly as far as KillSlot says. |
| `KernelImpl.Kernel.KillSlot` | kernel/sched/proc.c:25-32 | queue_remove and queue_push on the links: the victim moves from its channel, or from inside the ready queue, to the tail of the ready queue; if a left-over channel made it the head or tail that is removed, the links spell out no list at all. |
| `KernelImpl.Kernel.Wait` | kernel/sched/proc.c:38-51 | The caller blocks on the waiting list of the live process of that pid, unless it is itself or nobody. |
| `KernelImpl.Kernel.TryAcquire` | kernel/locking/lock.c:27-34 | One pass of the retry loop: the lock is taken if free, else the caller blocks on it and will retry. |
| `KernelImpl.Kernel.MutexAcquire` | kernel/locking/lock.c:27-34 | The call up to its return or its next block. |
| `KernelImpl.Kernel.SemaphoreUp` | kernel/locking/sem.c:12-18 | The call, lock included; UpIsCore shows what remains of it. |
| `KernelImpl.Kernel.SemaphoreDown` | kernel/locking/sem.c:20-30 | One pass of the loop from the (re)acquire to the next block or the return. |
| `KernelImpl.Kernel.BarrierArrive` | kernel/locking/barrier.c:11-20 | The call up to its block, or through the opening of the barrier. |
| `KernelImpl.Kernel.BarrierLeave` | kernel/locking/barrier.c:20-24 | The re-acquire and release after the block. |
| `KernelImpl.Kernel.ConditionWait` | kernel/locking/cond.c:13-18 | The mutex is given up and the caller is on the condition queue in one step. |
| `KernelImpl.Kernel.Resume` | kernel/locking/sem.c:24-28 | A dispatched process goes on exactly where its blocked call left off. |
| `KernelImpl.Kernel.Step` | kernel/sched/sched.c:21-86 | One step in place, on the linked lists, is the abstract step, and keeps the invariant and the lists. |
| `KernelImpl.Kernel.Linked` | kernel/sched/queue.c:20-61 | In a valid kernel the ready queue, every blocking queue and every holding list is a well-formed doubly linked list of exactly what the state says, no two share a node, and the current process is in none. |
| `KernelImpl.Run` | kernel/sched/sched.c:21-128 | Every run from boot, carried out in place on the linked lists, ends in the state the run ends in, with every queue a well-formed list and no two sharing a node. |
| `Lists.Heap.Push` | kernel/sched/queue.c:20-38 | Among all the lists of the kernel, a push onto one adds the item there and leaves every other as it was; a second push of a queued item leaves the chain cut at that item. |
| `Lists.Heap.Dequeue` | kernel/sched/queue.c:40-61 | The head of one list comes off; every other list is as it was. |
| `Lists.Heap.Remove` | kernel/sched/queue.c:64-94 | The item leaves its list; every other list is as it was. |
| `Lists.Heap.Has` | kernel/sched/queue.c:96-108 | The walk answers whether the item is in that list; no list changes. |
| `Lists.Heap.IsEmpty` | kernel/sched/queue.c:11-18 | Whether that list is empty; no list changes. |
| `Lists.Heap.Transfer` | kernel/sched/proc.c:28-31 | The two queue calls of kill, whatever list the victim is really in: all lists stay well formed with the victim at the tail of the ready queue, or it was the head or tail of the ready queue and that is no list any more. |
| `Lists.Heap.Assign` | kernel/sched/proc.c:64-68 | The queue calls of assign_task: a slot in no list joins the ready queue; a slot still in it leaves no list. |
| `LinkedQueue.Queue.constructor` | kernel/sched/queue.c:6-9 | An initialised queue is well formed and empty. |
| `LinkedQueue.Queue.IsEmpty` | kernel/sched/queue.c:11-18 | Empty is answered exactly for the empty list. |
| `LinkedQueue.Queue.Push` | kernel/sched/queue.c:20-38 | An item from elsewhere becomes the tail of the list with links right both ways; an item already in the list cuts the chain at itself, and no sequence of nodes is spelled out any more. Only it and the old tail are written. |
| `LinkedQueue.Queue.PushedTwice` | kernel/sched/queue.c:31-37 | After a second push of the same item head, tail, next and prev spell out no sequence whatever. |
| `LinkedQueue.Queue.Dequeue` | kernel/sched/queue.c:40-61 | The head comes off, unlinked both ways, NULL from an empty queue; the rest stays a well-formed list. |
| `LinkedQueue.Queue.Remove` | kernel/sched/queue.c:64-94 | The item leaves the list and the next links come out right, wherever slot 0 of the process table is and whether or not its next link is NULL; the prev links do if and only if an end was removed, or slot 0 is the predecessor, or its next link leads to the successor anyway. |
| `LinkedQueue.Queue.RemoveEnd` | kernel/sched/queue.c:69-83 | Removing the head, the tail or the only item keeps the list well formed. |
| `LinkedQueue.Queue.RemoveInner` | kernel/sched/queue.c:84-91 | The middle case as written, with the exact condition under which it keeps the prev links. |
| `LinkedQueue.Queue.Unlink` | kernel/sched/queue.c:64-94 | With the store through the item that was meant, every removal keeps the list well formed; an item of another list is unlinked from that one by its own links. |
| `LinkedQueue.RemoveCanBreak` | kernel/sched/queue.c:84-88 | Three queued processes and a slot 0 queued elsewhere: removing the middle one leaves a broken list. |
| `LinkedQueue.RemoveByShellBreaks` | kernel/sched/queue.c:84-88 | So does the usual case, in which slot 0 is the running shell with both links NULL. |
| `LinkedQueue.Requeue` | kernel/sched/proc.c:28-31 | kill on a victim in the ready queue whose channel names another one: the ready queue stays a list, with the victim at its tail, if and only if the victim was strictly inside it. |
| `LinkedQueue.Queue.Has` | kernel/sched/queue.c:96-108 | The walk answers whether the item is in the list. |
| `Mailbox.RunConserves` | libs/mailbox.c:87-113 | For any number of users and any interleaving, both semaphore counts and the operations in flight total 32; MailKernel.MailConserves has it of the semaphores of the kernel. |
| `Mailbox.RunFifo` | libs/mailbox.c:87-113 | With one sender and one receiver among any users, every state of every interleaving satisfies the ring invariant: indices follow the totals and every byte still to come is where the receiver will look. |
| `Mailbox.RunObeys` | libs/mailbox.c:87-99 | With one sender and any receivers, the bytes stored are in every state those the sender was told to send, in order, the one it is busy with aside. |
| `Mailbox.Delivery` | libs/mailbox.c:87-113 | Then the bytes received are a prefix of the bytes the sender was told to send, at most 32 stored ones are outstanding, no access leaves the buffer, and with both out of the mailbox and nothing left to take all of them have been received. |
| `Mailbox.RunFilling` | libs/mailbox.c:87-99 | With any senders and no receiver at most 32 stores are granted, each to a place of its own. |
| `Mailbox.RunStarved` | libs/mailbox.c:101-113 | With any receivers and no sender nothing is ever loaded. |
| `Mailbox.TwoSendersOverrun` | libs/mailbox.c:92-95 | Any two senders and a receiver have an interleaving in which a store leaves the buffer, because the index is reduced before the down and used after it. |
| `Mailbox.TwoReceiversOverrun` | libs/mailbox.c:106-109 | Any two receivers and a sender have one in which a load does. |
| `Mailbox.SafeIff` | libs/mailbox.c:87-113 | For any sets of senders and receivers: no interleaving ever leaves the buffer if and only if there is at most one of each, or no sender, or no receiver. |
| `MailKernel.StepDowns` | kernel/locking/sem.c:20-30 | Over a whole step of the kernel nobody is inside a down who was not, except its caller, and a completed down is back in user code. |
| `MailKernel.MailRefines` | libs/mailbox.c:87-113 | Every run of the kernel with user programs on a mailbox, in which they block, are woken, retry and are preempted among everything else, is a run of the mailbox, whoever sends and receives, with the same bytes to send. |
| `MailKernel.MailDelivery` | libs/mailbox.c:87-113 | On the kernel, with one sender and one receiver: the bytes received are a prefix of the bytes the sender was told to send, at most 32 stored ones are outstanding, no access leaves the buffer, and with both out of the mailbox and rsem at zero all of them have been received. |
| `MailKernel.MailConserves` | libs/mailbox.c:87-113 | On the kernel, for any users, the counts of wsem and rsem and the accesses in flight total 32. |
| `MailKernel.MailSafe` | libs/mailbox.c:87-113 | On the kernel no access leaves the buffer when there is at most one sender and one receiver, or no sender, or no receiver. |
| `MailKernel.BootOpened` | libs/mailbox.c:17-28 | A freshly booted kernel with the two semaphores initialised to 32 and 0 is where such runs start. |
| `Bitmap.Search` | kernel/fs/bitmap.c:3-26 | The word-skipping search finds exactly what a scan flag by flag finds; a bad target yields -1. |
| `Bitmap.SearchWord` | kernel/fs/bitmap.c:18-22 | The inner loop stops at the first flag of the word with the wanted value. |
| `Bitmap.Scan` | kernel/fs/bitmap.c:16-25 | The plain scan: the first index in range with the wanted value and none before it, or -2 and none at all. |
| `Bitmap.ScanSkip` | kernel/fs/bitmap.c:17-17 | A stretch without the wanted value, such as a flat word, can be skipped. |
| `Bitmap.GetBit` | kernel/fs/bitmap.c:28-33 | The shift and mask read exactly flag number offset. |
| `Bitmap.ShiftReads` | kernel/fs/bitmap.c:32-32 | Shifting right and masking agrees with masking in place, for all words and positions. |
| `Bitmap.Modify` | kernel/fs/bitmap.c:35-45 | The word is rewritten as specified; a bad target changes nothing and yields -1. |
| `Bitmap.ModifyOne` | kernel/fs/bitmap.c:41-43 | Exactly one flag of the whole map changes, to the target. |
| `FileSystem.MakeFsKeeps` | kernel/fs/fs.c:36-57 | mkfs leaves a consistent file system, freshly laid out or found on the disk. |
| `FileSystem.CreateKeeps` | kernel/fs/path.c:58-84 | mkdir and touch keep the file system consistent, take the lowest free inode and put the name into the first free slot. |
| `FileSystem.RemoveKeeps` | kernel/fs/path.c:115-137 | rm keeps the file system consistent: no link to a freed inode remains. |
| `FileSystem.RemoveDirKeeps` | kernel/fs/path.c:86-113 | rmdir keeps it consistent too, even for a directory that is not empty, and never removes the way to the current directory. |
| `FileSystem.EnterCases` | kernel/fs/path.c:176-189 | In a consistent tree "." stays, ".." leads to the father, any other name to a child. |
| `FileSystem.WalkReach` | kernel/fs/path.c:176-195 | Every directory a path leads to, even part of the way, is reachable from the root. |
| `FileSystem.ChangeDirKeeps` | kernel/fs/path.c:22-33 | cd keeps the file system consistent: the shell stays in a directory reachable from the root. |
| `FileSystem.WalkConcat` | kernel/fs/path.c:176-195 | Resolving p/q is resolving q from where p leads; it stops where p stops. |
| `FileSystem.ThereAndBack` | kernel/fs/path.c:176-195 | d/.. comes back to its start if and only if d is a real subdirectory or the start is the root. |
| `FileSystem.CreateThenFind` | kernel/fs/text.c:4-28 | A new name is found where it was put, with the inode it was given. |
| `FileSystem.CreateThenRemove` | kernel/fs/path.c:86-137 | Removing what was just created gives back its inode and every directory and record as it was. |
| `FileSystem.OpenFinds` | kernel/fs/text.c:54-82 | fopen yields a file of that name in the current directory, old or new; opening it again yields the same one and changes nothing. |
| `FileSystem.WriteFileKeeps` | kernel/fs/text.c:97-110 | Writing to a file changes no record and no directory and keeps the file system consistent. |
| `FileSystem.PutFileKeeps` | kernel/fs/text.c:97-110 | Any bytes may go into the block of an inode that is a file or not in use. |
| `FileSystem.InodeReused` | kernel/fs/path.c:58-84 | A file opened anew, removed, and a directory made: the directory gets the inode of the file. |
| `FileSystem.StepKeeps` | kernel/fs/fs.c:36-57 | Every call keeps the file system consistent. |
| `FileSystem.RunConsistent` | kernel/fs/path.c:22-137 | In every state of every run of mkfs, mkdir, touch, rm, rmdir, cd, fopen and fwrite: links lead to used inodes with the right father, mode and name, no inode has two, "." and ".." are in place, the current directory is reachable, and the map in memory is the map on disk. |
| `FileCalls.CdGoes` | kernel/fs/path.c:22-33 | cd puts the shell where the path leads, name by name from the root or the current directory, and leaves it where it is when the path leads nowhere; the disk does not change. |
| `FileCalls.CdDown` | kernel/fs/path.c:22-33 | cd of a subdirectory puts the shell into that child. |
| `FileCalls.CdUp` | kernel/fs/path.c:22-33 | cd to the two dots puts the shell into the father, whose child it was, and at the root changes nothing; cd to one dot changes nothing. |
| `FileCalls.CdMissing` | kernel/fs/path.c:29-30 | A missing component anywhere in the path leaves the shell where it is. |
| `FileCalls.CdConcat` | kernel/fs/path.c:22-33 | When p resolves, cd p and then cd q is cd p/q if p/q resolves, and cd p otherwise. |
| `FileCalls.CdBack` | kernel/fs/path.c:22-33 | cd into a subdirectory and cd to the two dots comes back. |
| `FileCalls.WalkLeads` | kernel/fs/path.c:176-195 | Following a path ends exactly where the path leads, and fails exactly when it leads nowhere. |
| `FileCalls.MountKeepsAll` | kernel/fs/fs.c:36-43 | mkfs on a formatted card changes nothing on it and puts the shell into the root. |
| `FileCalls.FormatIsEmpty` | kernel/fs/fs.c:44-57 | mkfs on any other card leaves a root without links, and nothing else in use. |
| `FileCalls.CreateAdds` | kernel/fs/path.c:58-84 | mkdir and touch: the new inode has the name, father and time given, a new directory holds only the dots, a new file reads as the empty string, one free entry of the current directory names it, and everything else is as it was. |
| `FileCalls.RemoveTakes` | kernel/fs/path.c:86-137 | rm and rmdir: the first entry of that name is free, its inode is free and no link to it is left, and every other entry, record and block is as it was; with no such name nothing changes. |
| `FileCalls.RmdirDots` | kernel/fs/path.c:98-101 | rmdir of the dots changes nothing. |
| `FileCalls.MkdirThenRmdir` | kernel/fs/path.c:58-113 | rmdir of a directory just made gives back its inode and every entry, record and block as it was. |
| `FileCalls.WriteStores` | kernel/fs/text.c:97-110 | fwrite puts exactly the bytes given at the place given; no other byte, block or record changes. |
| `Paths.SplitCount` | kernel/fs/path.c:142-144 | A path of n characters has at most (n + 1) / 2 components, so one that fits the 32-byte buffer has at most 16. |
| `Paths.SplitClean` | kernel/fs/path.c:151-168 | No component is empty or contains a slash. |
| `Paths.SplitJoin` | kernel/fs/path.c:151-168 | Joining two paths with a slash concatenates their components. |
| `Paths.SplitJoined` | kernel/fs/path.c:151-168 | Components joined by slashes are split into the same components. |
| `Paths.SplitFlat` | kernel/fs/path.c:151-168 | No character but the slashes is lost, moved or made up. |
| `Paths.Tokenise` | kernel/fs/path.c:149-168 | The in-place tokeniser leaves pointers to exactly the components of the path, each NUL-terminated, never more than fit. |
| `Paths.EndToken` | kernel/fs/path.c:158-166 | The inner loop stops at the end of the component and terminates it, changing one character. |
| `FileSystemImpl.UsedModified` | kernel/fs/disk.c:67-80 | Setting or clearing a flag of the map adds or removes exactly that inode. |
| `FileSystemImpl.ScanIsLowest` | kernel/fs/disk.c:69-69 | The first zero of the map is the lowest free inode, and there is none exactly when all are in use. |
| `FileSystemImpl.FreeEntry` | kernel/fs/path.c:70-75 | The loop finds the first free slot. |
| `FileSystemImpl.FindEntry` | kernel/fs/path.c:103-110 | The loop finds the first live entry of that mode and name. |
| `FileSystemImpl.FileSys.InodeAlloc` | kernel/fs/disk.c:67-73 | The lowest free inode is taken, in memory and on disk alike. |
| `FileSystemImpl.FileSys.InodeDelete` | kernel/fs/fs.c:124-128 | Exactly that inode is given back, in memory and on disk alike. |
| `FileSystemImpl.FileSys.MakeNode` | kernel/fs/path.c:58-84 | make_directory and touch_file in place do what CreateKeeps and CreateThenFind speak of. |
| `FileSystemImpl.FileSys.FOpen` | kernel/fs/text.c:54-82 | sys_fopen in place does what OpenFinds speaks of. |
| `FileSystemImpl.FileSys.RemoveNode` | kernel/fs/path.c:115-137 | remove_file in place does what RemoveKeeps speaks of. |
| `FileSystemImpl.FileSys.RemoveDirectory` | kernel/fs/path.c:86-113 | remove_directory refuses "." and "..", does what RemoveDirKeeps speaks of, and leaves a consistent file system. |
| `FileSystemImpl.FileSys.DecodePath` | kernel/fs/path.c:139-196 | For every path under 32 bytes, cur_dir and the answer are those of folding directory lookup over the split path from the root or the shell. |
| `FileSystemImpl.FileSys.Follow` | kernel/fs/path.c:176-195 | The outer loop is that fold. |
| `FileSystemImpl.FileSys.EnterDir` | kernel/fs/path.c:177-193 | The inner loop enters the directory of that name if there is one. |
| `FileSystemImpl.FileSys.ChangeDirectory` | kernel/fs/path.c:22-33 | change_directory moves the shell exactly when the whole path resolves, and leaves a consistent file system. |
| `DiskLayout.OffsetsFit` | kernel/fs/disk.c:14-32 | Byte offsets of every sector, FS_BASE included, fit a signed 32-bit int. |
| `DiskLayout.RegionsDisjoint` | include/os/fs.h:6-17 | Data blocks, superblock, map and table lie one after the other without overlap. |
| `DiskLayout.InodeWriteIs` | kernel/fs/disk.c:34-49 | The read-modify-write of a sector of eight records is a write of one record at the offset inode_read uses, for every inode. |
| `DiskLayout.InodeRoundTrip` | kernel/fs/disk.c:34-49 | What inode_write stored inode_read returns, and no other record changes. |
| `DiskLayout.SectorReadWrite` | kernel/fs/disk.c:24-32 | A sector reads back as written; every other sector is unchanged. |
| `DiskLayout.InodeBlockApart` | kernel/fs/disk.c:92-126 | Records and data blocks never touch each other. |
| `DiskLayout.MapWriteSector` | kernel/fs/disk.c:59-65 | inode_map_write puts the right 512 bytes into each of its sectors and touches no other. |
| `DiskLayout.MapRoundTrip` | kernel/fs/disk.c:51-65 | The map read back after a write is the map that was in memory. |
| `DiskLayout.InodeBytesRoundTrip` | include/os/fs.h:40-49 | A record decodes from its 64 bytes to what was encoded, whatever the unused bytes held. |
| `DiskLayout.EntryBytesRep` | include/os/fs.h:60-64 | An entry decodes from its 32 bytes to what was encoded. |
| `DiskLayout.RepPutInode` | kernel/fs/disk.c:34-43 | Writing a record on the card is updating that inode and nothing else. |
| `DiskLayout.RepPutBlock` | kernel/fs/disk.c:101-126 | Writing a block on the card is updating that block and nothing else. |
| `SdCard.Device.SectorWrite` | kernel/fs/disk.c:24-27 | In place, exactly the bytes of that sector are replaced. |
| `SdCard.Device.SectorRead` | kernel/fs/disk.c:29-32 | The 512 bytes of that sector. |
| `SdCard.Device.InodeStore` | kernel/fs/disk.c:34-43 | In place, the effect is one record written at the offset inode_read uses; an out-of-range number changes nothing. |
| `SdCard.Device.InodeLoad` | kernel/fs/disk.c:45-49 | The record, or the destination unchanged for an out-of-range number. |
| `SdCard.Device.InodeMapWrite` | kernel/fs/disk.c:59-65 | After the loop the map on the card reads back as the map given. |
| `SdCard.Device.InodeMapRead` | kernel/fs/disk.c:51-57 | The loop gathers the eight sectors of the map in order. |
| `CardFs.WordsRoundTrip` | kernel/fs/disk.c:51-65 | The 0x400 words of the map survive the trip through their bytes. |
| `CardFs.HoldsPutMap` | kernel/fs/disk.c:59-65 | After inode_map_write the card holds the same file system with the inodes of the memory map in use, and the two maps are bit for bit equal. |
| `CardFs.HoldsPutSuper` | kernel/fs/disk.c:87-90 | Writing the superblock marks the card formatted and changes nothing else. |
| `CardFs.PutEntryRep` | kernel/fs/path.c:79-81 | Storing the three fields of an entry changes exactly that entry of the directory. |
| `CardFs.ClearEntryRep` | kernel/fs/path.c:106-106 | Storing -1 frees exactly that entry, whatever its other bytes say. |
| `CardFs.FreshDirRep` | kernel/fs/fs.c:96-115 | The block dir_init builds over any stack contents is a directory with "." and ".." and 14 free slots. |
| `CardFs.DirInit` | kernel/fs/fs.c:96-115 | The loop and the stores leave that block in the buffer. |
| `CardFs.MakeInodeHolds` | kernel/fs/fs.c:78-94 | inode_create on the card is the creation of the inode and its block. |
| `CardFs.CanMakeIff` | kernel/fs/path.c:70-77 | The bytes on the card show room for a new name if and only if the file system has it. |
| `CardFs.MakeRefines` | kernel/fs/path.c:58-84 | mkdir and touch, carried out byte by byte, are mkdir and touch of the file system. |
| `CardFs.UnmakeRefines` | kernel/fs/path.c:86-137 | So are rm and rmdir. |
| `CardFs.EnterRefines` | kernel/fs/path.c:176-193 | Looking a name up in the bytes of a directory block finds the directory the tree has under that name. |
| `CardFs.WalkRefines` | kernel/fs/path.c:176-195 | So does following a whole path. |
| `CardFs.GoToRefines` | kernel/fs/path.c:14-33 | cd on the card is cd, starting from the root the superblock names. |
| `CardFs.FormatRefines` | kernel/fs/fs.c:36-57 | mkfs on a card that holds a blank or a consistent disk is mkfs: mount, or a new root. |
| `CardFs.NothingUsed` | kernel/fs/fs.c:46-51 | After inode_map_init the first inode allocated is 0, so the map error cannot occur. |
| `CardFs.BlankCard` | kernel/fs/fs.c:38-39 | Any card without the magic number counts as a blank disk. |
| `CardFs.OpenRefines` | kernel/fs/text.c:54-82 | fopen on the card is fopen. |
| `CardFs.WriteRefines` | kernel/fs/text.c:97-110 | fwrite on the card is a write into the block of that file. |
| `CardFs.StepRefines` | kernel/fs/path.c:22-137 | Every call on the card is the call on the file system. |
| `CardFs.RunRefines` | kernel/fs/fs.c:36-57 | After mkfs and any calls that have a meaning, the bytes on the card and in memory stand for exactly the file system those calls mean, which is consistent, and the map on the card is bit for bit the map in memory. |
| `FileIo.LastWriteWins` | kernel/fs/text.c:97-121 | After any sequence of seeks and writes in range, every byte of the file is the one last written there. |
| `FileIo.OthersUntouched` | kernel/fs/text.c:97-110 | They change no other file and no inode record. |
| `FileIo.Files.Attach` | kernel/fs/text.c:63-66 | The next descriptor refers to the file, at its start. |
| `FileIo.Files.FRead` | kernel/fs/text.c:84-95 | The bytes at the position, which moves on; the card is unchanged. |
| `FileIo.Files.FWrite` | kernel/fs/text.c:97-110 | One chunk lands at the position, which moves on. |
| `FileIo.Files.FSeek` | kernel/fs/text.c:118-121 | Only the position of that descriptor changes. |
| `FileIo.Files.FClose` | kernel/fs/text.c:112-116 | A NUL is written at the position, which goes back to the start. |
| `FileIo.Files.WriteThenRead` | kernel/fs/text.c:84-121 | Writing, seeking back and reading returns what was written. |
| `Descriptors.WriteIff` | kernel/fs/text.c:97-110 | On the bytes of a consistent card, writes to an inode are harmless, whatever they write, if and only if it is not a directory in use. |
| `Descriptors.WriteKeeps` | kernel/fs/text.c:97-110 | A write to a file or to an inode not in use changes no record and no other block in use, and leaves a consistent file system. |
| `Descriptors.DoKeeps` | kernel/fs/text.c:54-121 | Every call, those through descriptors included, keeps the card consistent unless it writes through one whose inode is a directory. |
| `Descriptors.RunOk` | kernel/fs/text.c:54-121 | In every run with open files from a mount of a blank or consistent card, the card stays consistent up to the first write through a descriptor whose inode has become a directory. |
| `Descriptors.StaleDescriptor` | kernel/fs/text.c:54-110 | From any consistent card with room for a new file: fopen f, rm f, mkdir d, fwrite through the old descriptor leaves a card that stands for no consistent file system. |
| `Descriptors.Opens` | kernel/fs/text.c:54-82 | fopen of an old or a new file: the next descriptor is at the start of a file of that name in the current directory. |
| `Descriptors.FwriteStores` | kernel/fs/text.c:97-110 | fwrite puts the bytes at the position of the descriptor, which moves past them; no other byte of the file, no other block, record or descriptor changes. |
| `Descriptors.WritesAppend` | kernel/fs/text.c:97-110 | Two writes one after the other leave both texts one after the other. |
| `Descriptors.WriteSeekRead` | kernel/fs/text.c:84-121 | After a write and a seek back, a read returns what was written. |
| `Descriptors.FcloseEnds` | kernel/fs/text.c:112-116 | fclose puts a NUL at the position, which is at the start again. |
| `Paging.OrsAreSums` | kernel/mm/memory.c:25-27 | The shifted fields of EntryHi and EntryLo are disjoint, so the ORs of 32-bit words are sums. |
| `Paging.LoDecodes` | kernel/mm/memory.c:26-27 | EntryLo decodes, by the field layout of the MIPS32 Privileged Resource Architecture, to the frame, C = 2, and D, V, G set. |
| `Paging.HiDecodes` | kernel/mm/memory.c:25-25 | EntryHi decodes to the page pair and the low byte of the pid. |
| `Paging.RefillKeeps` | kernel/mm/memory.c:7-32 | A refill keeps the invariant, changes no mapping, maps the faulting page, and puts the pair under the pid into one TLB slot, leaving the others alone. |
| `Paging.RunOk` | kernel/mm/memory.c:7-40 | Every state of every run satisfies the invariant: one frame per fault, all distinct, every TLB entry current. |
| `Paging.FramesDistinct` | kernel/mm/memory.c:34-40 | In every run distinct pages have distinct frames, whatever the number of faults. |
| `Paging.MappingsStay` | kernel/mm/memory.c:18-21 | A mapping never changes once valid. |
| `Paging.TlbAgrees` | kernel/mm/memory.c:22-29 | Whatever the TLB answers for a page is what the page table says. |
| `Paging.UpperFramesIff` | kernel/mm/memory.c:37-40 | All frames lie in the upper half of the 13-bit range if and only if there were at most 4096 faults, the limit the code warns about. |
| `Paging.Mmu.constructor` | init/main.c:53-59 | The page table starts empty. |
| `Paging.Mmu.DoPageFault` | kernel/mm/memory.c:34-40 | In place, the page gets the next frame. |
| `Paging.Mmu.DoTlbRefill` | kernel/mm/memory.c:7-32 | In place, the refill that RefillKeeps speaks of. |
| `Numerals.DigitsValue` | libs/printk.c:74-80 | The digits read back as the number, without a leading zero. |
| `Numerals.NumeralReads` | libs/printk.c:56-101 | For every 32-bit value, signed or unsigned, every radix from 2 to 16 and every padding, the text reads back as a sign and the magnitude. |
| `Numerals.DigitsLength` | libs/printk.c:74-80 | A number below radix^k has at most k digits. |
| `Numerals.ScratchSuffices` | libs/printk.c:138-138 | Decimal text needs at most 12, hexadecimal at most 10 of the 24 scratch bytes, padding and NUL included. |
| `Numerals.PutDigits` | libs/printk.c:75-80 | The do-while loop stores the digits of the unsigned reading, least significant first. |
| `Numerals.PutZeros` | libs/printk.c:82-83 | The padding loop appends exactly the missing zeros. |
| `Numerals.ReverseInPlace` | libs/printk.c:92-98 | The swap loop reverses the text and touches nothing after it. |
| `Numerals.Itoa` | libs/printk.c:56-101 | mini_itoa leaves the numeral of the value, NUL-terminated, and returns its length; radixes above 16 change nothing. |
| `Numerals.Atoi` | test/test_shell.c:217-232 | The loop computes the sign times the accumulated digits. |
| `Numerals.AtoiInverts` | test/test_shell.c:217-232 | Over the integers, atoi inverts signed decimal printing for every 32-bit value. |
| `Numerals.AtoiFitsIff` | test/test_shell.c:217-232 | Its running total stays within an int if and only if the value is not the most negative one. |
| `Printk.Putc` | libs/printk.c:109-117 | The buffer goes from holding a prefix of the output to holding a prefix of one character more. |
| `Printk.Puts` | libs/printk.c:119-133 | The same for a whole string, cut where the buffer ends. |
| `Printk.Emit` | libs/printk.c:170-199 | A conversion puts out its text, cut where the buffer ends, and uses the arguments it should. |
| `Printk.Directive` | libs/printk.c:157-199 | From a percent sign to the end of the directive, zero padding and a premature end of the format included. |
| `Printk.Vsnprintf` | libs/printk.c:135-204 | For every format, argument list and buffer: exactly the first min(full length, buffer_len - 1) characters of the untruncated result, which Formats.EveryFormat describes, with a NUL after them whenever there is at least one, and never a store outside the buffer. |
| `Formats.EveryFormat` | libs/printk.c:135-204 | Any format is directives and plain characters with at most a directive cut short at its end; the result is their texts one after the other, each right for the argument whose turn it is, and nothing else. |
| `Formats.FormatSays` | libs/printk.c:135-204 | A format split at a directive boundary yields the texts of its first part and then what the rest yields from the next argument on. |
| `Formats.DirectiveSays` | libs/printk.c:155-199 | A directive at the head of a format: d reads back as the signed number, u in decimal and x and X in hexadecimal as the unsigned one, in the right case, padded with zeros to the width and no further; c is the one character, s the string, anything else itself. |
| `Formats.PlainSays` | libs/printk.c:149-150 | Any other character is copied. |
| `Formats.CutShort` | libs/printk.c:160-174 | A directive cut short by the end of the format puts out nothing. |
| `Terminal.MoveCursor` | drivers/screen.c:13-17 | The characters printk produces for vt100_move_cursor(x, y), read one by one by a terminal that knows CUP (section 8.3.21 of ECMA-48), move its cursor to line y, column x. |
| `Terminal.RefreshSends` | drivers/screen.c:167-185 | The characters the refresh loops send leave the terminal as the model of the loops says. |
| `Terminal.ReflushSends` | drivers/screen.c:162-189 | So do those of the whole refresh, final cursor position included. |
| `Screen.PaintsCell` | drivers/screen.c:180-181 | Moving to a cell and writing changes exactly that cell. |
| `Screen.ReflushIsRedrawIff` | drivers/screen.c:162-189 | Given a truthful cache, a dirty-only refresh shows the buffer, as a full redraw always does, if and only if no cell is NUL in buffer and cache while the terminal shows something. |
| `Screen.ReflushIsRedraw` | drivers/screen.c:162-189 | With no NUL in the buffer it always does. |
| `Screen.ClearKeeps` | drivers/screen.c:121-137 | From any state, a clear leaves a truthful cache, a blank buffer, a blank terminal and the cursor at the origin. |
| `Screen.ScrollKeeps` | drivers/screen.c:34-60 | A scroll keeps the cache truthful and the buffer free of NULs. |
| `Screen.WriteChKeeps` | drivers/screen.c:63-111 | Writing any character keeps the cache truthful and the cursor on the screen. |
| `Screen.WritesCell` | drivers/screen.c:83-111 | An ordinary character goes into the cell under the cursor, no other cell changes, and the cursor goes to the next cell in reading order; after the last one it is at the start of the last line, with the lower half moved up. |
| `Screen.FeedsLine` | drivers/screen.c:65-82 | Newline and return go to the start of the next line; below the last one the lower half moves up. |
| `Screen.Erases` | drivers/screen.c:70-77 | Backspace blanks the cell to the left and goes there; at the start of a line it does nothing. |
| `Screen.TypeThenErase` | drivers/screen.c:63-111 | A character typed and erased leaves a blank and the cursor where it was. |
| `Screen.ScrollShows` | drivers/screen.c:34-60 | A scroll shows line i + 1 on each scrolled line i and a blank last line, and leaves the upper half alone. |
| `Screen.TextGoes` | drivers/screen.c:145-154 | A text without control characters that fits goes into the cells from the cursor on, in order, and nowhere else. |
| `Screen.TextShows` | drivers/screen.c:121-189 | After a clear, such a text and a refresh the terminal shows the text and blanks after it. |
| `Screen.CursorShownIff` | drivers/screen.c:187-188 | The refresh leaves the cursor of the terminal where the cursor of the buffer is if and only if that is the origin; elsewhere it is one line up and one column to the left, as far as there is one. |
| `Screen.StepKeeps` | drivers/screen.c:63-189 | So does every operation. |
| `Screen.RunThenRefresh` | drivers/screen.c:34-189 | Whatever the terminal showed at boot, after init_screen and any run the cache is truthful, and the next refresh equals a full redraw if and only if no cell is stale, hence always when no NUL was written. |
| `Screen.NulCanBeStale` | drivers/screen.c:172-172 | A NUL written after a scroll gives a run whose refresh leaves the old character on the terminal. |
| `Screen.Display.ReflushCell` | drivers/screen.c:172-183 | In place, one turn of the refresh. |
| `Screen.Display.ScreenReflush` | drivers/screen.c:162-189 | The nested loops are the refresh that ReflushIsRedrawIff speaks of. |
| `Screen.Display.ScreenClear` | drivers/screen.c:121-137 | The nested loops are the clear that ClearKeeps speaks of. |
| `Screen.Display.ForgetLines` | drivers/screen.c:38-44 | The cache of exactly the scrolled lines is emptied. |
| `Screen.Display.MoveLines` | drivers/screen.c:46-59 | Exactly the scrolled lines move up by one, the last becomes blank. |
| `Screen.Display.ScreenWriteCh` | drivers/screen.c:63-111 | In place, the write that WriteChKeeps speaks of. |
| `Screen.Display.TypeCh` | drivers/screen.c:65-87 | The character, newline, return or backspace itself, before wrapping. |
| `Screen.Display.ScreenWrite` | drivers/screen.c:145-154 | The loop writes the characters of the text one after the other, as TextGoes speaks of. |

## Left out

- Spin locks: an unsynchronised busy wait with no guarantee of its own.
- drivers/mac.c and the network test programs: register programming and DMA.
- Assembly, boot code and createimage: used only to justify that steps are atomic.
- System call dispatch, shell commands, process_show, list_directory, cat_file, statfs and deletefs: user interface over the calls modelled here.
- Saving and restoring the screen cursor in scheduler().
- mbox_open and mbox_close: reference counting, which would only add easy members.
- 32-bit wrap-around of the clock, of pids, of semaphore counts and of reference counts; time is a natural number that does not decrease.
- Initialising a semaphore, barrier or condition while somebody sleeps on it; all are initialised before a run starts.
- cd and ls without an argument, which copy through an uninitialised pointer; the name shown in the prompt.
- Crash consistency of the file system: the code makes no ordering promise.
- Terminal behaviour other than cursor positioning and storing a character; the escape sequences of init_screen for clearing and hiding the cursor.
- KernelImpl.Kernel.DispatchLoop: requires work in the ready queue, because the loop of the source does not end without it (DispatchLoop.LoopEndsIffWork).
- FileSystemImpl.FileSys.DecodePath: requires a path under 32 bytes, the size of the buffer the source copies it into unchecked.
- CardFs.RunRefines: paths are already split; Paths.Tokenise and FileSystemImpl.FileSys.DecodePath split them.
- Numerals.AtoiInverts: computed over the integers; Numerals.AtoiFitsIff says when an int suffices.
- Printk.Vsnprintf: the argument list is a stream of words and strings, not a va_list in memory.
- Terminal.RefreshSends: stated for buffers without the escape character, which the terminal would take for the start of a sequence.
- Terminal.ReflushSends: the same restriction to buffers without the escape character.
- Mailbox.RunConserves: semaphores are their counts here; MailKernel.MailRefines connects them to the kernel. The two instructions of `wp %= BUFFER_SIZE` are one step.
- Mailbox.Delivery: stated for one sender and one receiver, because with more of either it is false; Mailbox.SafeIff is exact.
- MailKernel.MailDelivery: user programs keep to the loop bodies of mbox_send and mbox_recv, nobody is killed in the middle of one, and nobody else calls the two semaphores.
- Runs.RunSync: a lost wake-up and an inexact barrier count are excluded only while there was no kill, because a kill can cause them; Sync.KillSemIff and Sync.KillBarIff give the exact condition.
- KernelImpl.Kernel.KillSlot: queue_remove stores through the item's own next link, as was intended; LinkedQueue.Queue.Remove has the code as written.
- KernelImpl.Kernel.Step: requires a disciplined call, which Discipline.SegmentKeepsIff shows to be exactly what keeps the invariant; KillSlot and AssignTask say what the links are after the others.
- Lists.Heap.Remove: removes a member of the list named; a victim that is elsewhere is Lists.Heap.Transfer.
- Bitmap.Modify: requires an offset inside the map; inode_alloc passes -2 when the map is full, which shifts by a negative amount, undefined in C.
- FileSystemImpl.FileSys.InodeAlloc: requires a free inode, for the same reason.
- FileSystemImpl.FileSys.MakeNode: the disk is the abstract one; CardFs.MakeRefines has the same call on bytes.
- FileSystemImpl.FileSys.FOpen: the disk is the abstract one and the descriptor table is elsewhere; CardFs.OpenRefines and Descriptors.Do have both.
- FileSystemImpl.FileSys.RemoveNode: the disk is the abstract one, and consistent, so that the inode number found lies inside the map; CardFs.UnmakeRefines has the same call on bytes.
- FileSystem.WriteFileKeeps: stated for inodes in use by a file; FileSystem.PutFileKeeps and Descriptors.WriteIff have all others.
- CardFs.WriteRefines: the same; Descriptors.WriteKeeps has inodes no longer in use.
- FileIo.Files.Attach: requires a free descriptor; the seventeenth open writes past the table, unchecked.
- FileIo.Files.FRead: requires the read to stay inside the block, as the source does not check it.
- FileIo.Files.FWrite: requires the write to stay inside the block, as the source does not check it.
- FileIo.Files.FClose: requires room for the NUL inside the block, as the source does not check it.
- Descriptors.DoKeeps: calls that would leave the table, a block or the data area have no result.
