/**
 libs/mailbox.c on the kernel of Runs.dfy: wsem and rsem are two of its
 semaphores, and its users are processes that call down and up, block, are
 woken and retry among everything else the kernel does. What Mailbox.dfy proves
 with bare counters is carried over.
 */
module MailKernel {
  import opened Prelude
  import opened KernelState
  import opened Scheduler
  import opened Linkage
  import opened Syscalls
  import opened Invariant
  import opened Steps
  import opened Runs
  import M = Mailbox

  // ---------------------------------------------- who is inside semaphore_down

  /** Nobody is inside a down who was not, except the caller of one. */
  ghost predicate NoNewDown(st: State, r: State, op: Op) {
    forall p: Slot {:trigger r.pcb[p]} :: r.pcb[p].cont.DownWoken? ==>
      r.pcb[p].cont == st.pcb[p].cont || (p == st.cur && op == Down(r.pcb[p].cont.sem))
  }

  /** Waking and releasing leave continuations alone. */
  ghost predicate SameConts(st: State, r: State) {
    r.cur == st.cur && forall p: Slot {:trigger r.pcb[p]} :: r.pcb[p].cont == st.pcb[p].cont
  }

  lemma WakeConts(st: State, q: QueueId)
    ensures SameConts(st, WakeOne(st, q)) && SameConts(st, WakeAll(st, q))
  {
  }

  lemma ReleaseConts(st: State, l: LockId)
    ensures SameConts(st, Release(st, l))
  {
    ReleaseSpec(st, l);
  }

  lemma ExitConts(st: State)
    ensures SameConts(st, ParkExited(st))
  {
    ReapSpec(SetPcb(st, st.cur, st.pcb[st.cur].(status := Exited)));
  }

  lemma SegmentDownsProc(st: State, op: Op)
    requires Inv(st) && Disciplined(st, op) && ProcOp(op)
    ensures NoNewDown(st, Segment(st, op).st, op)
  {
    ExitConts(st);
    if op.Kill? && FindLive(st.pcb, op.pid, 0).Some? {
      KillShape(st, FindLive(st.pcb, op.pid, 0).value);
    }
    hide Inv, ParkExited, FindExited, FindLive, KillSlot;
  }

  lemma SegmentDownsQueue(st: State, op: Op)
    requires QueueOp(op)
    ensures NoNewDown(st, Segment(st, op).st, op)
  {
    forall q
      ensures SameConts(st, WakeOne(st, q)) && SameConts(st, WakeAll(st, q))
    {
      WakeConts(st, q);
    }
    hide WakeOne, WakeAll;
  }

  lemma UpDowns(st: State, n: nat)
    ensures NoNewDown(st, UpCore(st, n).st, Up(n))
  {
    var v := SemAt(st, n);
    WakeConts(SetSem(st, n, v.(count := v.count + 1, ups := v.ups + 1)), SemQ(n));
    hide WakeOne, WakeAll;
  }

  lemma DownDowns(st: State, n: nat, op: Op)
    requires op == Down(n) || st.pcb[st.cur].cont == DownWoken(n)
    ensures NoNewDown(st, DownCore(st, n).st, op) && (SemAt(st, n).count > 0 ==> DownCore(st, n).st.pcb[st.cur].cont == User)
  {
  }

  lemma BarrierDowns(st: State, n: nat)
    ensures NoNewDown(st, BarrierCore(st, n).st, BarrierWait(n))
  {
    WakeConts(Arrive(st, n), BarQ(n));
    hide WakeOne, WakeAll;
  }

  lemma AcquireDowns(st: State, l: LockId, op: Op)
    ensures NoNewDown(st, AcquireThen(st, l, Return).st, op)
  {
  }

  lemma ResumeDowns(st: State)
    requires Inv(st)
    ensures NoNewDown(st, ResumeSeg(st).st, Resume)
    ensures forall s: nat :: st.pcb[st.cur].cont == DownWoken(s) && SemAt(st, s).count > 0 ==> ResumeSeg(st).st.pcb[st.cur].cont == User
  {
    match st.pcb[st.cur].cont
    case User =>
    case Acquiring(l, k) => AcquireDowns(st, l, Resume);
    case CondWoken(l) => AcquireDowns(st, l, Resume);
    case BarrierWoken(b, g) => BarrierTailIsFinish(st, b, g);
    case DownWoken(s) =>
      DownIsCore(st, s);
      DownDowns(st, s, Resume);
  }

  lemma SegmentDownsLock(st: State, op: Op)
    requires Inv(st) && !ProcOp(op) && !QueueOp(op)
    ensures NoNewDown(st, Segment(st, op).st, op)
    ensures forall s: nat :: CompletesDown(st, Event(0, op), s) ==> Segment(st, op).st.pcb[st.cur].cont == User
  {
    hide AcquireThen, UpCore, DownCore, BarrierCore, ResumeSeg, Release, Inv;
    match op
    case Acquire(l) => AcquireDowns(st, UserLock(l), op);
    case Unlock(l) => ReleaseConts(st, UserLock(l));
    case CondWait(l, c) => ReleaseConts(st, UserLock(l));
    case Up(s) => UpIsCore(st, s); UpDowns(st, s);
    case Down(s) => DownIsCore(st, s); DownDowns(st, s, op);
    case BarrierWait(b) => BarrierIsCore(st, b); BarrierDowns(st, b);
    case Resume => ResumeDowns(st);
    case _ =>
  }

  lemma SegmentDowns(st: State, op: Op)
    requires Inv(st) && Disciplined(st, op)
    ensures NoNewDown(st, Segment(st, op).st, op)
    ensures forall s: nat :: CompletesDown(st, Event(0, op), s) ==> Segment(st, op).st.pcb[st.cur].cont == User
  {
    hide Segment, Inv, Disciplined, NoNewDown;
    if ProcOp(op) {
      SegmentDownsProc(st, op);
    } else if QueueOp(op) {
      SegmentDownsQueue(st, op);
    } else {
      SegmentDownsLock(st, op);
    }
  }

  lemma DispatchDowns(st: State, r: State, op: Op, from: State)
    requires Untouched(r, st) && NoNewDown(from, r, op)
    ensures NoNewDown(from, st, op) && st.pcb[from.cur].cont == r.pcb[from.cur].cont
  {
  }

  /** Over a whole step: no new down but the caller's, and a completed one is over. */
  lemma StepDowns(st: State, e: Event, r: State)
    requires Inv(st) && Follows(st, e, r)
    ensures NoNewDown(st, r, e.op)
    ensures forall s: nat :: CompletesDown(st, e, s) ==> r.pcb[st.cur].cont == User
  {
    hide Segment, Inv, Disciplined, Dispatch, HasWork;
    var st0 := Later(st, e.dt);
    InvLater(st, e.dt);
    LaterDisciplined(st, e.op, e.dt);
    SegmentDowns(st0, e.op);
    assert forall s: nat :: CompletesDown(st, e, s) ==> CompletesDown(st0, Event(0, e.op), s);
    var seg := Segment(st0, e.op);
    if seg.parked {
      SegmentLinked(st0, e.op);
      UntouchedDispatch(seg.st);
      hide Untouched;
      DispatchDowns(r, seg.st, e.op, st0);
    }
  }

  lemma LaterDisciplined(st: State, op: Op, dt: nat)
    requires Disciplined(st, op)
    ensures Disciplined(Later(st, dt), op)
  {
  }

  lemma SegmentLinked(st: State, op: Op)
    requires Inv(st) && Disciplined(st, op) && Segment(st, op).parked
    ensures Linked(Segment(st, op).st, -1)
  {
    SegmentKeeps(st, op);
  }

  // -------------------------------------------------------------- the two together

  /** The kernel, and a mailbox whose user in slot p is at `phase[p]` of its loop body. */
  datatype System = System(
    st: State, buffer: M.Ring, wp: nat, rp: nat, phase: seq<M.Phase>,
    sent: seq<M.Byte>, received: seq<M.Byte>, overrun: bool)

  /** The semaphores of the mailbox. */
  datatype Box = Box(wsem: nat, rsem: nat)

  /** A step of the system: a kernel event, or user code of the current process touching the mailbox. */
  datatype Move = Call(e: Event) | Begin(c: M.Byte) | BeginReceive | StoreByte | LoadByte

  /** The system as Mailbox.dfy sees it. */
  function Seen(y: System, x: Box): M.State
    requires SemAt(y.st, x.wsem).count >= 0 && SemAt(y.st, x.rsem).count >= 0
  {
    M.State(y.buffer, y.wp, y.rp, SemAt(y.st, x.wsem).count, SemAt(y.st, x.rsem).count,
            y.phase, y.sent, y.received, y.overrun)
  }

  /** What the program of the current process lets it call at this place; the timer may always strike. */
  predicate Permitted(y: System, x: Box, op: Op) {
    y.st.cur < |y.phase| && match y.phase[y.st.cur]
      case Out => !(op.Up? && (op.s == x.wsem || op.s == x.rsem)) && !(op.Down? && (op.s == x.wsem || op.s == x.rsem))
                  && (op.Kill? ==> Spared(y, op.pid))
      case SendReady(_) => op == Tick || op == Down(x.wsem)
      case SendGranted(_) => op == Tick
      case SendWritten => op == Tick || op == Up(x.rsem)
      case RecvReady => op == Tick || op == Down(x.rsem)
      case RecvGranted => op == Tick
      case RecvRead => op == Tick || op == Up(x.wsem)
  }

  /** Nobody is killed in the middle of a send or receive. */
  predicate Spared(y: System, pid: nat) {
    var f := FindLive(y.st.pcb, pid, 0);
    f.Some? ==> f.value < |y.phase| && y.phase[f.value] == M.Out
  }

  /** Where the loop body of the current process is after a kernel event. */
  function PhaseAfter(y: System, x: Box, e: Event): M.Phase
    requires y.st.cur < |y.phase|
  {
    var p := y.phase[y.st.cur];
    if CompletesDown(y.st, e, x.wsem) && p.SendReady? then M.SendGranted(p.c)
    else if CompletesDown(y.st, e, x.rsem) && p.RecvReady? then M.RecvGranted
    else if e.op == Up(x.rsem) || e.op == Up(x.wsem) then M.Out
    else p
  }

  /** `z` is `y` with the mailbox as user code left it. */
  function Stored(y: System, m: M.State): System {
    System(y.st, m.buffer, m.wp, m.rp, m.users, m.sent, m.received, m.overrun)
  }

  function UserOp(y: System, mv: Move): M.Op
    requires !mv.Call?
  {
    match mv
    case Begin(c) => M.BeginSend(y.st.cur, c)
    case BeginReceive => M.BeginRecv(y.st.cur)
    case StoreByte => M.Store(y.st.cur)
    case LoadByte => M.Load(y.st.cur)
  }

  ghost predicate Next(y: System, x: Box, mv: Move, z: System) {
    && |y.phase| == NUM_MAX_TASK && SemAt(y.st, x.wsem).count >= 0 && SemAt(y.st, x.rsem).count >= 0
    && if mv.Call? then
         && Follows(y.st, mv.e, z.st)
         && (y.st.pcb[y.st.cur].cont == User ==> Permitted(y, x, mv.e.op))
         && z == y.(st := z.st, phase := y.phase[y.st.cur := PhaseAfter(y, x, mv.e)])
       else
         && y.st.pcb[y.st.cur].cont == User
         && M.Enabled(Seen(y, x), UserOp(y, mv)) && z == Stored(y, M.Step(Seen(y, x), UserOp(y, mv)))
  }

  predicate InStep(sem: nat, p: M.Phase, x: Box) {
    (sem == x.wsem ==> p.SendReady?) && (sem == x.rsem ==> p.RecvReady?)
  }

  /** A process inside a down of the mailbox is at the place of its loop that calls it. */
  ghost predicate InPlace(y: System, x: Box) {
    && |y.phase| == NUM_MAX_TASK && x.wsem != x.rsem
    && forall p: Slot {:trigger y.st.pcb[p]} :: y.st.pcb[p].cont.DownWoken? ==> InStep(y.st.pcb[p].cont.sem, y.phase[p], x)
  }

  lemma NextInPlace(y: System, x: Box, mv: Move, z: System)
    requires Inv(y.st) && InPlace(y, x) && Next(y, x, mv, z)
    ensures InPlace(z, x)
  {
    if mv.Call? {
      StepDowns(y.st, mv.e, z.st);
      CallInPlace(y, x, mv.e, z);
    } else {
      UserInPlace(y, x, mv, z);
    }
  }

  lemma UserInPlace(y: System, x: Box, mv: Move, z: System)
    requires InPlace(y, x) && Next(y, x, mv, z) && !mv.Call?
    ensures InPlace(z, x)
  {
    assert z.st == y.st;
    assert forall p: Slot :: p != y.st.cur ==> z.phase[p] == y.phase[p];
  }

  lemma CallInPlace(y: System, x: Box, e: Event, z: System)
    requires InPlace(y, x) && Next(y, x, Call(e), z) && NoNewDown(y.st, z.st, e.op)
    requires forall s: nat :: CompletesDown(y.st, e, s) ==> z.st.pcb[y.st.cur].cont == User
    ensures InPlace(z, x)
  {
    assert Enabled(y.st, e.op);
    forall p: Slot | z.st.pcb[p].cont.DownWoken?
      ensures InStep(z.st.pcb[p].cont.sem, z.phase[p], x)
    {
      hide Follows;
      assert y.st.pcb[p].cont.DownWoken? ==> InStep(y.st.pcb[p].cont.sem, y.phase[p], x);
      if p == y.st.cur {
        CallerInPlace(y, x, e, z);
      }
    }
  }

  lemma FollowsEnabled(st: State, e: Event, r: State)
    requires Follows(st, e, r)
    ensures Enabled(st, e.op)
  {
  }

  lemma CallerInPlace(y: System, x: Box, e: Event, z: System)
    requires x.wsem != x.rsem && Next(y, x, Call(e), z) && z.st.pcb[y.st.cur].cont.DownWoken?
    requires forall s: nat :: !CompletesDown(y.st, e, s)
    requires var c := y.st.pcb[y.st.cur].cont; c.DownWoken? ==> InStep(c.sem, y.phase[y.st.cur], x)
    requires var c := z.st.pcb[y.st.cur].cont; c == y.st.pcb[y.st.cur].cont || e.op == Down(c.sem)
    ensures InStep(z.st.pcb[y.st.cur].cont.sem, z.phase[y.st.cur], x)
  {
    hide Follows, CompletesDown;
    FollowsEnabled(y.st, e, z.st);
  }

  // ------------------------------------------------------------------- simulation

  /** A kernel event is one step of the mailbox or none. */
  lemma CallSimulates(y: System, x: Box, e: Event, z: System) returns (op: Option<M.Op>)
    requires Inv(y.st) && InPlace(y, x) && Next(y, x, Call(e), z)
    requires SemAt(z.st, x.wsem).count >= 0 && SemAt(z.st, x.rsem).count >= 0
    ensures op.None? ==> Seen(z, x) == Seen(y, x)
    ensures op.Some? ==> M.Enabled(Seen(y, x), op.value) && Seen(z, x) == M.Step(Seen(y, x), op.value)
    ensures op.Some? ==> !op.value.BeginSend? && !op.value.BeginRecv?
  {
    hide Follows, Inv;
    StepCount(y.st, e, z.st, x.wsem);
    StepCount(y.st, e, z.st, x.rsem);
    FollowsEnabled(y.st, e, z.st);
    var me := y.st.cur;
    var p := y.phase[me];
    assert y.st.pcb[me].cont.DownWoken? ==> InStep(y.st.pcb[me].cont.sem, p, x);
    op := CallOp(y, x, e);
    if op.None? {
      assert z.phase == y.phase;
    }
  }

  function CallOp(y: System, x: Box, e: Event): Option<M.Op> {
    if CompletesDown(y.st, e, x.wsem) then Some(M.Take(y.st.cur))
    else if CompletesDown(y.st, e, x.rsem) then Some(M.TakeRecv(y.st.cur))
    else if e.op == Up(x.rsem) then Some(M.Post(y.st.cur))
    else if e.op == Up(x.wsem) then Some(M.PostRecv(y.st.cur))
    else None
  }

  // -------------------------------------------------------------------------- runs

  /** Who may begin to send and who to receive. */
  predicate KeepsRole(y: System, mv: Move, senders: set<nat>, receivers: set<nat>) {
    (mv.Begin? ==> y.st.cur in senders) && (mv.BeginReceive? ==> y.st.cur in receivers)
  }

  /** A mailbox as one_init leaves it, before anybody uses it. */
  ghost predicate Opened(y: System, x: Box) {
    && InPlace(y, x)
    && SemAt(y.st, x.wsem).count == M.BUFFER_SIZE && SemAt(y.st, x.rsem).count == 0
    && Seen(y, x) == M.Init(NUM_MAX_TASK)
  }

  /** `ys[i]` is the system before move i. */
  ghost predicate IsMailRun(ys: seq<System>, x: Box, mvs: seq<Move>, senders: set<nat>, receivers: set<nat>) {
    && |ys| == |mvs| + 1 && Inv(ys[0].st) && Opened(ys[0], x)
    && forall i {:trigger mvs[i]} :: 0 <= i < |mvs| ==>
         Next(ys[i], x, mvs[i], ys[i + 1]) && KeepsRole(ys[i], mvs[i], senders, receivers)
  }

  /** A mailbox opened on a freshly booted kernel. */
  lemma BootOpened(sems: map<nat, Sem>, bars: map<nat, Bar>, x: Box)
    requires Fresh(sems, bars) && x.wsem in sems && x.rsem in sems && x.wsem != x.rsem
    requires sems[x.wsem].init == M.BUFFER_SIZE && sems[x.rsem].init == 0
    ensures var m := M.Init(NUM_MAX_TASK);
      var y := Stored(System(Boot(sems, bars), m.buffer, 0, 0, m.users, [], [], false), m);
      Inv(y.st) && Opened(y, x)
  {
    BootInv(sems, bars);
    hide Inv;
  }

  /** Counts stay non-negative, and the kernel and the users stay in step. */
  ghost predicate Sound(y: System, x: Box) {
    Inv(y.st) && InPlace(y, x) && SemAt(y.st, x.wsem).count >= 0 && SemAt(y.st, x.rsem).count >= 0
  }

  lemma NextSound(y: System, x: Box, mv: Move, z: System)
    requires Sound(y, x) && Next(y, x, mv, z)
    ensures Sound(z, x)
  {
    hide Inv, InPlace, Follows;
    NextInPlace(y, x, mv, z);
    if mv.Call? {
      FollowsInv(y.st, mv.e, z.st);
      StepCount(y.st, mv.e, z.st, x.wsem);
      StepCount(y.st, mv.e, z.st, x.rsem);
    }
  }

  lemma FollowsInv(st: State, e: Event, r: State)
    requires Inv(st) && Follows(st, e, r)
    ensures Inv(r)
  {
    hide Inv, Step;
    StepKeeps(st, e.dt, e.op);
  }

  /** A move of the system is one step of the mailbox or none. */
  lemma NextSimulates(y: System, x: Box, mv: Move, z: System, senders: set<nat>, receivers: set<nat>) returns (op: Option<M.Op>)
    requires Sound(y, x) && Sound(z, x) && Next(y, x, mv, z) && KeepsRole(y, mv, senders, receivers)
    ensures op.None? ==> Seen(z, x) == Seen(y, x)
    ensures op.Some? ==> M.Enabled(Seen(y, x), op.value) && Seen(z, x) == M.Step(Seen(y, x), op.value)
    ensures op.Some? ==> M.Respects(op.value, senders, receivers)
    ensures mv.Begin? <==> op.Some? && op.value.BeginSend?
    ensures mv.Begin? ==> op.value == M.BeginSend(y.st.cur, mv.c)
  {
    hide Inv, InPlace, Follows;
    if mv.Call? {
      op := CallSimulates(y, x, mv.e, z);
    } else {
      op := Some(UserOp(y, mv));
    }
  }

  /** The bytes the process in slot a was told to send in the first n moves, in order. */
  function AskedOf(ys: seq<System>, mvs: seq<Move>, n: nat, a: nat): seq<M.Byte>
    requires n <= |mvs| <= |ys|
  {
    if n == 0 then []
    else
      AskedOf(ys, mvs, n - 1, a) + if mvs[n - 1].Begin? && ys[n - 1].st.cur == a then [mvs[n - 1].c] else []
  }

  ghost predicate SameAsked(ys: seq<System>, mvs: seq<Move>, n: nat, ops: seq<M.Op>)
    requires n <= |mvs| <= |ys|
  {
    forall a: nat {:trigger M.Asked(ops, a)} :: M.Asked(ops, a) == AskedOf(ys, mvs, n, a)
  }

  lemma AskedMove(ys: seq<System>, mvs: seq<Move>, n: nat, ops: seq<M.Op>, op: Option<M.Op>)
    requires n < |mvs| <= |ys| && SameAsked(ys, mvs, n, ops)
    requires mvs[n].Begin? <==> op.Some? && op.value.BeginSend?
    requires mvs[n].Begin? ==> op.value == M.BeginSend(ys[n].st.cur, mvs[n].c)
    ensures SameAsked(ys, mvs, n + 1, if op.Some? then ops + [op.value] else ops)
  {
    var ops' := if op.Some? then ops + [op.value] else ops;
    forall a: nat
      ensures M.Asked(ops', a) == AskedOf(ys, mvs, n + 1, a)
    {
      if op.Some? {
        M.AskedNext(ops', |ops|, a);
        assert ops'[..|ops| + 1] == ops' && ops'[..|ops|] == ops;
      }
      assert M.Asked(ops, a) == AskedOf(ys, mvs, n, a);
    }
  }

  /**
   Every run of the kernel with a mailbox on it is, seen through the mailbox, a
   run of Mailbox.dfy: blocking, waking, retrying, killing of bystanders and all
   other traffic leave no trace.
   */
  lemma {:induction false} MailRefines(ys: seq<System>, x: Box, mvs: seq<Move>, senders: set<nat>, receivers: set<nat>, n: nat)
    returns (run: seq<M.State>, ops: seq<M.Op>)
    requires IsMailRun(ys, x, mvs, senders, receivers) && n <= |mvs|
    ensures Sound(ys[n], x)
    ensures M.RoleRun(run, ops, NUM_MAX_TASK, senders, receivers) && run[|ops|] == Seen(ys[n], x)
    ensures SameAsked(ys, mvs, n, ops)
  {
    hide Inv, InPlace, Next, KeepsRole;
    if n == 0 {
      run, ops := [Seen(ys[0], x)], [];
    } else {
      run, ops := MailRefines(ys, x, mvs, senders, receivers, n - 1);
      assert Next(ys[n - 1], x, mvs[n - 1], ys[n]);
      NextSound(ys[n - 1], x, mvs[n - 1], ys[n]);
      var op := NextSimulates(ys[n - 1], x, mvs[n - 1], ys[n], senders, receivers);
      AskedMove(ys, mvs, n - 1, ops, op);
      if op.Some? {
        run, ops := Longer(run, ops, op.value, senders, receivers);
      }
    }
  }

  lemma Longer(run: seq<M.State>, ops: seq<M.Op>, op: M.Op, senders: set<nat>, receivers: set<nat>)
    returns (run': seq<M.State>, ops': seq<M.Op>)
    requires M.RoleRun(run, ops, NUM_MAX_TASK, senders, receivers)
    requires M.Enabled(run[|ops|], op) && M.Respects(op, senders, receivers)
    ensures M.RoleRun(run', ops', NUM_MAX_TASK, senders, receivers) && run'[|ops'|] == M.Step(run[|ops|], op) && ops' == ops + [op]
  {
    run', ops' := run + [M.Step(run[|ops|], op)], ops + [op];
  }

  /**
   One sender and one receiver on the kernel, among any other processes: what
   was received is a prefix of what the sender was told to send, at most 32
   stored bytes are outstanding and no access leaves the buffer; with both out
   of the mailbox and rsem at zero, everything has been received.
   */
  lemma MailDelivery(ys: seq<System>, x: Box, mvs: seq<Move>, a: Slot, b: Slot, n: nat)
    requires IsMailRun(ys, x, mvs, {a}, {b}) && n <= |mvs|
    ensures ys[n].received <= ys[n].sent && |ys[n].sent| - |ys[n].received| <= M.BUFFER_SIZE && !ys[n].overrun
    ensures ys[n].received <= AskedOf(ys, mvs, n, a)
    ensures |ys[n].phase| == NUM_MAX_TASK
    ensures ys[n].phase[a] == M.Out && ys[n].phase[b] == M.Out && SemAt(ys[n].st, x.rsem).count == 0 ==>
      ys[n].received == AskedOf(ys, mvs, n, a)
  {
    var run, ops := MailRefines(ys, x, mvs, {a}, {b}, n);
    assert ops[..|ops|] == ops;
    assert M.Asked(ops, a) == AskedOf(ys, mvs, n, a);
    M.Delivery(run, ops, NUM_MAX_TASK, a, b, |ops|);
  }

  /** Whoever the users are: units of both semaphores and accesses in flight always total 32. */
  lemma MailConserves(ys: seq<System>, x: Box, mvs: seq<Move>, senders: set<nat>, receivers: set<nat>, n: nat)
    requires IsMailRun(ys, x, mvs, senders, receivers) && n <= |mvs|
    ensures SemAt(ys[n].st, x.wsem).count + SemAt(ys[n].st, x.rsem).count + M.Total(ys[n].phase) == M.BUFFER_SIZE
  {
    var run, ops := MailRefines(ys, x, mvs, senders, receivers, n);
    M.RunConserves(run, ops, NUM_MAX_TASK, |ops|);
  }

  /** No access leaves the buffer for any roles that are safe for the bare mailbox (Mailbox.SafeIff). */
  lemma MailSafe(ys: seq<System>, x: Box, mvs: seq<Move>, senders: set<nat>, receivers: set<nat>, n: nat)
    requires IsMailRun(ys, x, mvs, senders, receivers) && n <= |mvs|
    requires M.Users(NUM_MAX_TASK, senders) && M.Users(NUM_MAX_TASK, receivers)
    requires (|senders| <= 1 && |receivers| <= 1) || senders == {} || receivers == {}
    ensures !ys[n].overrun
  {
    M.SafeIff(NUM_MAX_TASK, senders, receivers);
    var run, ops := MailRefines(ys, x, mvs, senders, receivers, n);
    assert !run[|ops|].overrun;
  }
}
