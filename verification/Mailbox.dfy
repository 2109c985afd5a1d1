/**
 libs/mailbox.c: a 32-byte ring shared by user programs through two
 semaphores. Each user step between two system calls is one transition; a
 semaphore is its count, taken only when positive, as proved of
 kernel/locking/sem.c in Sync.dfy and Runs.dfy.
 */
module Mailbox {
  import opened Prelude

  const BUFFER_SIZE: nat := 32

  type Byte = b: int | 0 <= b < 256

  type Ring = s: seq<Byte> | |s| == BUFFER_SIZE witness seq(BUFFER_SIZE, _ => 0)

  /** Where a user is inside the loop body of mbox_send or mbox_recv. */
  datatype Phase =
    | Out
    | SendReady(c: Byte)     // wp has been reduced; semaphore_down(&wsem) is next
    | SendGranted(c: Byte)   // the store is next
    | SendWritten            // semaphore_up(&rsem) is next
    | RecvReady
    | RecvGranted
    | RecvRead

  datatype State = State(
    buffer: Ring, wp: nat, rp: nat, wcount: nat, rcount: nat,
    users: seq<Phase>,
    sent: seq<Byte>, received: seq<Byte>,  // everything stored and loaded so far
    overrun: bool)                         // a store or load went outside the buffer

  datatype Op =
    | BeginSend(u: nat, c: Byte) | Take(u: nat) | Store(u: nat) | Post(u: nat)
    | BeginRecv(u: nat) | TakeRecv(u: nat) | Load(u: nat) | PostRecv(u: nat)

  /** one_init */
  function Init(n: nat): State {
    State(seq(BUFFER_SIZE, i => if i == 0 then 0xff else 0), 0, 0, BUFFER_SIZE, 0, seq(n, _ => Out), [], [], false)
  }

  predicate Enabled(s: State, op: Op) {
    op.u < |s.users| &&
    var p := s.users[op.u];
    match op
    case BeginSend(_, _) => p == Out
    case Take(_) => p.SendReady? && s.wcount > 0
    case Store(_) => p.SendGranted?
    case Post(_) => p.SendWritten?
    case BeginRecv(_) => p == Out
    case TakeRecv(_) => p.RecvReady? && s.rcount > 0
    case Load(_) => p.RecvGranted?
    case PostRecv(_) => p.RecvRead?
  }

  function Step(s: State, op: Op): State
    requires Enabled(s, op)
  {
    var u := op.u;
    match op
    case BeginSend(_, c) => s.(wp := s.wp % BUFFER_SIZE, users := s.users[u := SendReady(c)])
    case Take(_) => s.(wcount := s.wcount - 1, users := s.users[u := SendGranted(s.users[u].c)])
    case Store(_) =>
      var c := s.users[u].c;
      var inside := s.wp < BUFFER_SIZE;
      s.(buffer := if inside then s.buffer[s.wp := c] else s.buffer, overrun := s.overrun || !inside,
         wp := s.wp + 1, sent := s.sent + [c], users := s.users[u := SendWritten])
    case Post(_) => s.(rcount := s.rcount + 1, users := s.users[u := Out])
    case BeginRecv(_) => s.(rp := s.rp % BUFFER_SIZE, users := s.users[u := RecvReady])
    case TakeRecv(_) => s.(rcount := s.rcount - 1, users := s.users[u := RecvGranted])
    case Load(_) =>
      var inside := s.rp < BUFFER_SIZE;
      s.(received := s.received + [if inside then s.buffer[s.rp] else 0], overrun := s.overrun || !inside,
         rp := s.rp + 1, users := s.users[u := RecvRead])
    case PostRecv(_) => s.(wcount := s.wcount + 1, users := s.users[u := Out])
  }

  /** A run of enabled steps; `run[i]` is the state before step i. */
  ghost predicate IsRun(run: seq<State>, ops: seq<Op>) {
    |run| == |ops| + 1 &&
    forall i :: 0 <= i < |ops| ==> Enabled(run[i], ops[i]) && run[i + 1] == Step(run[i], ops[i])
  }

  // ------------------------------------------------------------- conservation

  /** A user between its two semaphore calls. */
  function InFlight(p: Phase): nat {
    if p.SendGranted? || p.SendWritten? || p.RecvGranted? || p.RecvRead? then 1 else 0
  }

  function Total(users: seq<Phase>): nat {
    if users == [] then 0 else InFlight(users[0]) + Total(users[1..])
  }

  lemma {:induction false} TotalUpdate(users: seq<Phase>, u: nat, p: Phase)
    requires u < |users|
    ensures Total(users[u := p]) == Total(users) - InFlight(users[u]) + InFlight(p)
  {
    if u == 0 {
      assert users[u := p][1..] == users[1..];
    } else {
      assert users[u := p][1..] == users[1..][u - 1 := p];
      TotalUpdate(users[1..], u - 1, p);
    }
  }

  lemma {:induction false} TotalOut(n: nat)
    ensures Total(seq(n, _ => Out)) == 0
  {
    if n != 0 {
      assert seq(n, _ => Out)[1..] == seq<Phase>(n - 1, _ => Out);
      TotalOut(n - 1);
    }
  }

  ghost predicate Conserved(s: State) {
    s.wcount + s.rcount + Total(s.users) == BUFFER_SIZE
  }

  lemma StepConserves(s: State, op: Op)
    requires Conserved(s) && Enabled(s, op)
    ensures Conserved(Step(s, op))
  {
    TotalUpdate(s.users, op.u, Step(s, op).users[op.u]);
  }

  /** Any number of users: both counts and the operations in flight always total 32. */
  lemma {:induction false} RunConserves(run: seq<State>, ops: seq<Op>, n: nat, i: nat)
    requires IsRun(run, ops) && run[0] == Init(n) && i <= |ops|
    ensures run[i].wcount + run[i].rcount + Total(run[i].users) == BUFFER_SIZE
  {
    if i == 0 {
      TotalOut(n);
    } else {
      RunConserves(run, ops, n, i - 1);
      StepConserves(run[i - 1], ops[i - 1]);
    }
  }

  // --------------------------------------------------- one sender, one receiver

  /** Who may send and who may receive. */
  predicate Respects(op: Op, senders: set<nat>, receivers: set<nat>) {
    (op.BeginSend? ==> op.u in senders) && (op.BeginRecv? ==> op.u in receivers)
  }

  predicate Sending(p: Phase) { p.SendReady? || p.SendGranted? || p.SendWritten? }

  predicate Receiving(p: Phase) { p.RecvReady? || p.RecvGranted? || p.RecvRead? }

  /** Only `a` is ever found sending and only `b` receiving; they may be the same. */
  ghost predicate Roles(s: State, a: nat, b: nat) {
    && a < |s.users| && b < |s.users|
    && forall u: nat {:trigger s.users[u]} :: u < |s.users| ==>
         (Sending(s.users[u]) ==> u == a) && (Receiving(s.users[u]) ==> u == b)
  }

  function One(b: bool): nat { if b then 1 else 0 }

  /** Bookkeeping: how stored, loaded, granted and posted bytes relate. */
  ghost predicate Balanced(s: State, a: nat, b: nat) {
    && Roles(s, a, b)
    && |s.received| + s.rcount + One(s.users[a].SendWritten?) + One(s.users[b].RecvGranted?) == |s.sent|
    && s.wcount + s.rcount + InFlight(s.users[a]) + (if a == b then 0 else InFlight(s.users[b])) == BUFFER_SIZE
  }

  /** The indices follow the totals, and are inside the buffer when they are used. */
  ghost predicate Indexed(s: State, a: nat, b: nat) {
    && a < |s.users| && b < |s.users| && !s.overrun && s.wp <= BUFFER_SIZE && s.rp <= BUFFER_SIZE
    && s.wp % BUFFER_SIZE == |s.sent| % BUFFER_SIZE && s.rp % BUFFER_SIZE == |s.received| % BUFFER_SIZE
    && (s.users[a].SendReady? || s.users[a].SendGranted? ==> s.wp < BUFFER_SIZE)
    && (s.users[b].RecvReady? || s.users[b].RecvGranted? ==> s.rp < BUFFER_SIZE)
  }

  /** What was received is the beginning of what was sent; the rest is in the ring. */
  ghost predicate Ordered(s: State) {
    && s.received <= s.sent
    && forall k {:trigger s.sent[k]} :: |s.received| <= k < |s.sent| ==> s.buffer[k % BUFFER_SIZE] == s.sent[k]
  }

  ghost predicate Fifo(s: State, a: nat, b: nat) {
    Balanced(s, a, b) && Indexed(s, a, b) && Ordered(s)
  }

  /** Two numbers less than 32 apart differ modulo 32. */
  lemma DistinctMod(a: nat, b: nat)
    requires a < b < a + BUFFER_SIZE
    ensures a % BUFFER_SIZE != b % BUFFER_SIZE
  {
  }

  lemma NextMod(a: nat, b: nat)
    requires a % BUFFER_SIZE == b % BUFFER_SIZE
    ensures (a + 1) % BUFFER_SIZE == (b + 1) % BUFFER_SIZE
  {
  }

  /** The store goes to a slot that holds no byte still to be received. */
  lemma StoreOrdered(s: State, r: State, c: Byte)
    requires Ordered(s) && s.wp < BUFFER_SIZE && s.wp == |s.sent| % BUFFER_SIZE
    requires |s.sent| < |s.received| + BUFFER_SIZE
    requires r.received == s.received && r.sent == s.sent + [c] && r.buffer == s.buffer[s.wp := c]
    ensures Ordered(r)
  {
    forall k | |r.received| <= k < |r.sent|
      ensures r.buffer[k % BUFFER_SIZE] == r.sent[k]
    {
      if k < |s.sent| {
        DistinctMod(k, |s.sent|);
        assert s.buffer[k % BUFFER_SIZE] == s.sent[k];
      }
    }
  }

  lemma StoreKeeps(s: State, op: Op, a: nat, b: nat)
    requires Fifo(s, a, b) && op.Store? && Enabled(s, op)
    ensures Fifo(Step(s, op), a, b)
  {
    assert op.u == a;
    StoreOrdered(s, Step(s, op), s.users[a].c);
    hide Ordered;
    NextMod(s.wp, |s.sent|);
  }

  lemma LoadOrdered(s: State, r: State)
    requires Ordered(s) && s.rp == |s.received| % BUFFER_SIZE && s.rp < BUFFER_SIZE && |s.received| < |s.sent|
    requires r.sent == s.sent && r.buffer == s.buffer && r.received == s.received + [s.buffer[s.rp]]
    ensures Ordered(r)
  {
    assert s.sent[|s.received|] == s.buffer[s.rp];
  }

  lemma LoadKeeps(s: State, op: Op, a: nat, b: nat)
    requires Fifo(s, a, b) && op.Load? && Enabled(s, op)
    ensures Fifo(Step(s, op), a, b)
  {
    assert op.u == b;
    LoadOrdered(s, Step(s, op));
    hide Ordered;
    NextMod(s.rp, |s.received|);
  }

  lemma StepFifo(s: State, op: Op, a: nat, b: nat)
    requires Fifo(s, a, b) && Respects(op, {a}, {b}) && Enabled(s, op)
    ensures Fifo(Step(s, op), a, b)
  {
    hide Fifo, Enabled, Step;
    if op.Store? {
      StoreKeeps(s, op, a, b);
    } else if op.Load? {
      LoadKeeps(s, op, a, b);
    } else {
      OtherKeeps(s, op, a, b);
    }
  }

  lemma OtherKeeps(s: State, op: Op, a: nat, b: nat)
    requires Fifo(s, a, b) && Respects(op, {a}, {b}) && Enabled(s, op) && !op.Store? && !op.Load?
    ensures Fifo(Step(s, op), a, b)
  {
    var r := Step(s, op);
    SameOrder(s, r);
    assert r.users == s.users[op.u := r.users[op.u]];
    if op.u == a && a != b {
      assert r.users[b] == s.users[b];
    }
    hide Ordered;
  }

  lemma SameOrder(s: State, r: State)
    requires Ordered(s) && r.sent == s.sent && r.received == s.received && r.buffer == s.buffer
    ensures Ordered(r)
  {
  }

  /** A run from an empty mailbox in which everybody keeps to the role given. */
  ghost predicate RoleRun(run: seq<State>, ops: seq<Op>, n: nat, senders: set<nat>, receivers: set<nat>) {
    IsRun(run, ops) && run[0] == Init(n) && forall j :: 0 <= j < |ops| ==> Respects(ops[j], senders, receivers)
  }

  lemma {:induction false} RunFifo(run: seq<State>, ops: seq<Op>, n: nat, a: nat, b: nat, i: nat)
    requires RoleRun(run, ops, n, {a}, {b}) && a < n && b < n && i <= |ops|
    ensures Fifo(run[i], a, b)
  {
    if i != 0 {
      RunFifo(run, ops, n, a, b, i - 1);
      StepFifo(run[i - 1], ops[i - 1], a, b);
    }
  }

  /** The bytes user a was told to send, in order. */
  function Asked(ops: seq<Op>, a: nat): seq<Byte> {
    if ops == [] then []
    else
      var op := ops[|ops| - 1];
      Asked(ops[..|ops| - 1], a) + if op.BeginSend? && op.u == a then [op.c] else []
  }

  lemma AskedNext(ops: seq<Op>, i: nat, a: nat)
    requires i < |ops|
    ensures Asked(ops[..i + 1], a) == Asked(ops[..i], a) + if ops[i].BeginSend? && ops[i].u == a then [ops[i].c] else []
  {
    assert ops[..i + 1][..i] == ops[..i];
  }

  /** Between being told to send a byte and storing it. */
  predicate StoreDue(p: Phase) {
    p.SendReady? || p.SendGranted?
  }

  /** What was stored is what the only sender was told to send, the byte it is busy with aside. */
  ghost predicate Obeys(s: State, a: nat, asked: seq<Byte>) {
    && a < |s.users| && (forall u: nat {:trigger s.users[u]} :: u < |s.users| && Sending(s.users[u]) ==> u == a)
    && if StoreDue(s.users[a]) then asked == s.sent + [s.users[a].c] else asked == s.sent
  }

  lemma StepObeys(s: State, op: Op, a: nat, asked: seq<Byte>, receivers: set<nat>)
    requires Obeys(s, a, asked) && Enabled(s, op) && Respects(op, {a}, receivers)
    ensures Obeys(Step(s, op), a, asked + if op.BeginSend? && op.u == a then [op.c] else [])
  {
    assert asked + [] == asked;
  }

  /** With one sender and any receivers: the bytes stored are those it was told to send, in order. */
  lemma {:induction false} RunObeys(run: seq<State>, ops: seq<Op>, n: nat, a: nat, receivers: set<nat>, i: nat)
    requires RoleRun(run, ops, n, {a}, receivers) && a < n && i <= |ops|
    ensures Obeys(run[i], a, Asked(ops[..i], a))
  {
    if i != 0 {
      RunObeys(run, ops, n, a, receivers, i - 1);
      AskedNext(ops, i - 1, a);
      StepObeys(run[i - 1], ops[i - 1], a, Asked(ops[..i - 1], a), receivers);
    }
  }

  /**
   With one sender and one receiver among any users, under every interleaving:
   the bytes received are a prefix of the bytes the sender was told to send, at
   most 32 stored ones are outstanding, no store or load leaves the buffer; and
   with both users out of the mailbox and nothing left to take, all of them
   have been received.
   */
  lemma Delivery(run: seq<State>, ops: seq<Op>, n: nat, a: nat, b: nat, i: nat)
    requires RoleRun(run, ops, n, {a}, {b}) && a < n && b < n && i <= |ops|
    ensures a < |run[i].users| && b < |run[i].users|
    ensures run[i].received <= run[i].sent && |run[i].sent| - |run[i].received| <= BUFFER_SIZE
    ensures !run[i].overrun
    ensures run[i].received <= Asked(ops[..i], a)
    ensures run[i].users[a] == Out && run[i].users[b] == Out && run[i].rcount == 0 ==> run[i].received == Asked(ops[..i], a)
  {
    RunFifo(run, ops, n, a, b, i);
    RunObeys(run, ops, n, a, {b}, i);
  }

  // ------------------------------------------------------ senders or receivers only

  /** Nobody sends: nothing is ever granted to a receiver. */
  ghost predicate Starved(s: State) {
    && !s.overrun && s.rcount == 0
    && forall u: nat {:trigger s.users[u]} :: u < |s.users| ==> s.users[u] == Out || s.users[u] == RecvReady
  }

  lemma {:induction false} RunStarved(run: seq<State>, ops: seq<Op>, n: nat, receivers: set<nat>, i: nat)
    requires RoleRun(run, ops, n, {}, receivers) && i <= |ops|
    ensures Starved(run[i])
  {
    if i != 0 {
      RunStarved(run, ops, n, receivers, i - 1);
      assert Respects(ops[i - 1], {}, receivers);
    }
  }

  /** The stores granted and still to come. */
  function Granted(users: seq<Phase>): nat {
    if users == [] then 0 else One(users[0].SendGranted?) + Granted(users[1..])
  }

  lemma {:induction false} GrantedUpdate(users: seq<Phase>, u: nat, p: Phase)
    requires u < |users|
    ensures Granted(users[u := p]) == Granted(users) - One(users[u].SendGranted?) + One(p.SendGranted?)
    ensures users[u].SendGranted? ==> Granted(users) > 0
  {
    if u == 0 {
      assert users[u := p][1..] == users[1..];
    } else {
      assert users[u := p][1..] == users[1..][u - 1 := p];
      GrantedUpdate(users[1..], u - 1, p);
    }
  }

  lemma {:induction false} GrantedOut(n: nat)
    ensures Granted(seq(n, _ => Out)) == 0
  {
    if n != 0 {
      assert seq(n, _ => Out)[1..] == seq<Phase>(n - 1, _ => Out);
      GrantedOut(n - 1);
    }
  }

  /** Nobody receives: at most 32 stores are ever granted, each to a place of its own. */
  ghost predicate Filling(s: State) {
    && !s.overrun && |s.sent| + s.wcount + Granted(s.users) == BUFFER_SIZE
    && (s.wp == |s.sent| || |s.sent| == BUFFER_SIZE)
    && forall u: nat {:trigger s.users[u]} :: u < |s.users| ==> !Receiving(s.users[u])
  }

  lemma StepFilling(s: State, op: Op)
    requires Filling(s) && Enabled(s, op) && !op.BeginRecv?
    ensures Filling(Step(s, op))
  {
    GrantedUpdate(s.users, op.u, Step(s, op).users[op.u]);
  }

  lemma {:induction false} RunFilling(run: seq<State>, ops: seq<Op>, n: nat, senders: set<nat>, i: nat)
    requires RoleRun(run, ops, n, senders, {}) && i <= |ops|
    ensures Filling(run[i])
  {
    if i == 0 {
      GrantedOut(n);
    } else {
      RunFilling(run, ops, n, senders, i - 1);
      assert Respects(ops[i - 1], senders, {});
      StepFilling(run[i - 1], ops[i - 1]);
    }
  }

  // --------------------------------------------------------------- runs by hand

  /** Run `ops` from `s`; None when one of them is not enabled. */
  function Exec(s: State, ops: seq<Op>): Option<State>
    decreases |ops|
  {
    if ops == [] then Some(s)
    else if Enabled(s, ops[0]) then Exec(Step(s, ops[0]), ops[1..])
    else None
  }

  lemma {:induction false} ExecConcat(s: State, a: seq<Op>, b: seq<Op>)
    requires Exec(s, a).Some?
    ensures Exec(s, a + b) == Exec(Exec(s, a).value, b)
    decreases |a|
  {
    if a == [] {
      assert a + b == b;
    } else {
      assert (a + b)[1..] == a[1..] + b;
      ExecConcat(Step(s, a[0]), a[1..], b);
    }
  }

  lemma {:induction false} ExecIsRun(s: State, ops: seq<Op>) returns (run: seq<State>)
    requires Exec(s, ops).Some?
    ensures IsRun(run, ops) && run[0] == s && run[|ops|] == Exec(s, ops).value
    decreases |ops|
  {
    if ops == [] {
      run := [s];
    } else {
      var rest := ExecIsRun(Step(s, ops[0]), ops[1..]);
      run := [s] + rest;
      forall i | 0 <= i < |ops|
        ensures Enabled(run[i], ops[i]) && run[i + 1] == Step(run[i], ops[i])
      {
        if i > 0 {
          assert Enabled(rest[i - 1], ops[1..][i - 1]);
        }
      }
    }
  }

  /** Step i of a run. */
  lemma ExecNext(s: State, ops: seq<Op>, i: nat) returns (t: State)
    requires i < |ops| && Enabled(s, ops[i])
    ensures t == Step(s, ops[i])
    ensures Exec(s, ops[i..]) == if i + 1 == |ops| then Some(t) else Exec(t, ops[i + 1..])
  {
    t := Step(s, ops[i]);
    assert ops[i..][1..] == ops[i + 1..];
  }

  /** Nobody is inside a call. */
  ghost predicate Quiet(s: State, n: nat, wp: nat, rp: nat, wcount: nat, rcount: nat) {
    && s.wp == wp && s.rp == rp && s.wcount == wcount && s.rcount == rcount && !s.overrun && |s.users| == n
    && forall u: nat {:trigger s.users[u]} :: u < n ==> s.users[u] == Out
  }

  function SendOps(a: nat): seq<Op> { [BeginSend(a, 7), Take(a), Store(a), Post(a)] }

  function RecvOps(b: nat): seq<Op> { [BeginRecv(b), TakeRecv(b), Load(b), PostRecv(b)] }

  lemma SendOne(s: State, n: nat, a: nat, wp: nat, rp: nat, wcount: nat, rcount: nat)
    requires Quiet(s, n, wp, rp, wcount, rcount) && a < n && wcount > 0 && wp <= BUFFER_SIZE
    ensures Exec(s, SendOps(a)).Some?
    ensures Quiet(Exec(s, SendOps(a)).value, n, wp % BUFFER_SIZE + 1, rp, wcount - 1, rcount + 1)
  {
    hide Exec;
    var s1 := ExecNext(s, SendOps(a), 0);
    var s2 := ExecNext(s1, SendOps(a), 1);
    var s3 := ExecNext(s2, SendOps(a), 2);
    var s4 := ExecNext(s3, SendOps(a), 3);
    assert SendOps(a)[0..] == SendOps(a) && Exec(s, SendOps(a)) == Some(s4);
  }

  lemma RecvOne(s: State, n: nat, b: nat, wp: nat, rp: nat, wcount: nat, rcount: nat)
    requires Quiet(s, n, wp, rp, wcount, rcount) && b < n && rcount > 0 && rp <= BUFFER_SIZE
    ensures Exec(s, RecvOps(b)).Some?
    ensures Quiet(Exec(s, RecvOps(b)).value, n, wp, rp % BUFFER_SIZE + 1, wcount + 1, rcount - 1)
  {
    hide Exec;
    var s1 := ExecNext(s, RecvOps(b), 0);
    var s2 := ExecNext(s1, RecvOps(b), 1);
    var s3 := ExecNext(s2, RecvOps(b), 2);
    var s4 := ExecNext(s3, RecvOps(b), 3);
    assert RecvOps(b)[0..] == RecvOps(b) && Exec(s, RecvOps(b)) == Some(s4);
  }

  predicate AllRespect(ops: seq<Op>, senders: set<nat>, receivers: set<nat>) {
    forall j {:trigger ops[j]} :: 0 <= j < |ops| ==> Respects(ops[j], senders, receivers)
  }

  /** k bytes sent and received, one at a time. */
  lemma {:induction false} Rounds(n: nat, a: nat, b: nat, k: nat) returns (ops: seq<Op>)
    requires a < n && b < n && k < BUFFER_SIZE
    ensures AllRespect(ops, {a}, {b})
    ensures Exec(Init(n), ops).Some? && Quiet(Exec(Init(n), ops).value, n, k, k, BUFFER_SIZE, 0)
  {
    if k == 0 {
      ops := [];
    } else {
      var before := Rounds(n, a, b, k - 1);
      var s := Exec(Init(n), before).value;
      hide Exec, Quiet, Init;
      SendOne(s, n, a, k - 1, k - 1, BUFFER_SIZE, 0);
      ExecConcat(Init(n), before, SendOps(a));
      var s1 := Exec(s, SendOps(a)).value;
      RecvOne(s1, n, b, k, k - 1, BUFFER_SIZE - 1, 1);
      ExecConcat(Init(n), before + SendOps(a), RecvOps(b));
      ops := (before + SendOps(a)) + RecvOps(b);
    }
  }

  // ------------------------------------------------------------------ the overrun

  /** Two sends begun at the last index, each granted a slot, each storing. */
  function SendClash(a: nat, a': nat): seq<Op> {
    [BeginSend(a, 7), BeginSend(a', 8), Take(a), Take(a'), Store(a), Store(a')]
  }

  /** Two receives begun at the last index, each granted a byte, each loading. */
  function RecvClash(b: nat, b': nat): seq<Op> {
    [BeginRecv(b), BeginRecv(b'), TakeRecv(b), TakeRecv(b'), Load(b), Load(b')]
  }

  lemma SendsOverrun(s: State, n: nat, a: nat, a': nat, rp: nat)
    requires Quiet(s, n, BUFFER_SIZE - 1, rp, BUFFER_SIZE, 0) && a < n && a' < n && a != a'
    ensures Exec(s, SendClash(a, a')).Some? && Exec(s, SendClash(a, a')).value.overrun
  {
    hide Exec;
    var ops := SendClash(a, a');
    var s1 := ExecNext(s, ops, 0);
    var s2 := ExecNext(s1, ops, 1);
    var s3 := ExecNext(s2, ops, 2);
    var s4 := ExecNext(s3, ops, 3);
    var s5 := ExecNext(s4, ops, 4);
    var s6 := ExecNext(s5, ops, 5);
    assert ops[0..] == ops && Exec(s, ops) == Some(s6);
  }

  lemma RecvsOverrun(s: State, n: nat, b: nat, b': nat, wp: nat, wcount: nat)
    requires Quiet(s, n, wp, BUFFER_SIZE - 1, wcount, 2) && b < n && b' < n && b != b'
    ensures Exec(s, RecvClash(b, b')).Some? && Exec(s, RecvClash(b, b')).value.overrun
  {
    hide Exec;
    var ops := RecvClash(b, b');
    var s1 := ExecNext(s, ops, 0);
    var s2 := ExecNext(s1, ops, 1);
    var s3 := ExecNext(s2, ops, 2);
    var s4 := ExecNext(s3, ops, 3);
    var s5 := ExecNext(s4, ops, 4);
    var s6 := ExecNext(s5, ops, 5);
    assert ops[0..] == ops && Exec(s, ops) == Some(s6);
  }

  /**
   The index is reduced before the down and used after it, so a second sender
   can move it meanwhile: with two senders and a receiver a store can leave the
   buffer.
   */
  lemma TwoSendersOverrun(n: nat, a: nat, a': nat, b: nat) returns (ops: seq<Op>)
    requires a < n && a' < n && b < n && a != a'
    ensures AllRespect(ops, {a, a'}, {b})
    ensures Exec(Init(n), ops).Some? && Exec(Init(n), ops).value.overrun
  {
    hide Exec, Init, Quiet;
    var before := Rounds(n, a, b, BUFFER_SIZE - 1);
    SendsOverrun(Exec(Init(n), before).value, n, a, a', BUFFER_SIZE - 1);
    ExecConcat(Init(n), before, SendClash(a, a'));
    ops := before + SendClash(a, a');
  }

  /** With two receivers and a sender a load can. */
  lemma TwoReceiversOverrun(n: nat, a: nat, b: nat, b': nat) returns (ops: seq<Op>)
    requires a < n && b < n && b' < n && b != b'
    ensures AllRespect(ops, {a}, {b, b'})
    ensures Exec(Init(n), ops).Some? && Exec(Init(n), ops).value.overrun
  {
    hide Exec, Init, Quiet;
    var before := Rounds(n, a, b, BUFFER_SIZE - 1);
    var s := Exec(Init(n), before).value;
    SendOne(s, n, a, BUFFER_SIZE - 1, BUFFER_SIZE - 1, BUFFER_SIZE, 0);
    ExecConcat(Init(n), before, SendOps(a));
    var s1 := Exec(s, SendOps(a)).value;
    SendOne(s1, n, a, BUFFER_SIZE, BUFFER_SIZE - 1, BUFFER_SIZE - 1, 1);
    ExecConcat(Init(n), before + SendOps(a), SendOps(a));
    var s2 := Exec(s1, SendOps(a)).value;
    RecvsOverrun(s2, n, b, b', 1, BUFFER_SIZE - 2);
    ExecConcat(Init(n), before + SendOps(a) + SendOps(a), RecvClash(b, b'));
    ops := before + SendOps(a) + SendOps(a) + RecvClash(b, b');
  }

  /** No access leaves the buffer, whatever users with these roles do. */
  ghost predicate Safe(n: nat, senders: set<nat>, receivers: set<nat>) {
    forall run: seq<State>, ops: seq<Op>, i: nat {:trigger RoleRun(run, ops, n, senders, receivers), run[i]} ::
      RoleRun(run, ops, n, senders, receivers) && i <= |ops| ==> !run[i].overrun
  }

  predicate Users(n: nat, us: set<nat>) {
    forall u :: u in us ==> u < n
  }

  lemma OverrunUnsafe(n: nat, ops: seq<Op>, ss: set<nat>, rs: set<nat>, senders: set<nat>, receivers: set<nat>)
    requires AllRespect(ops, ss, rs) && ss <= senders && rs <= receivers
    requires Exec(Init(n), ops).Some? && Exec(Init(n), ops).value.overrun
    ensures !Safe(n, senders, receivers)
  {
    var run := ExecIsRun(Init(n), ops);
    assert RoleRun(run, ops, n, senders, receivers);
  }

  /** Two members, or at most one. */
  lemma Pair(us: set<nat>, u: nat) returns (v: nat)
    requires u in us && |us| > 1
    ensures v in us && v != u
  {
    assert |us - {u}| == |us| - 1;
    v :| v in us - {u};
  }

  lemma Single(us: set<nat>, u: nat)
    requires u in us && |us| <= 1
    ensures us == {u}
  {
    assert |us - {u}| == 0;
  }

  /**
   The mailbox is free of overruns under every interleaving if and only if it
   has at most one sender and one receiver, or no sender, or no receiver.
   */
  lemma SafeIff(n: nat, senders: set<nat>, receivers: set<nat>)
    requires Users(n, senders) && Users(n, receivers)
    ensures Safe(n, senders, receivers) <==>
      (|senders| <= 1 && |receivers| <= 1) || senders == {} || receivers == {}
  {
    if senders == {} {
      forall run: seq<State>, ops: seq<Op>, i: nat | RoleRun(run, ops, n, senders, receivers) && i <= |ops|
        ensures !run[i].overrun
      {
        RunStarved(run, ops, n, receivers, i);
      }
    } else if receivers == {} {
      forall run: seq<State>, ops: seq<Op>, i: nat | RoleRun(run, ops, n, senders, receivers) && i <= |ops|
        ensures !run[i].overrun
      {
        RunFilling(run, ops, n, senders, i);
      }
    } else {
      var a :| a in senders;
      var b :| b in receivers;
      SafeBoth(n, senders, receivers, a, b);
    }
  }

  lemma SafeBoth(n: nat, senders: set<nat>, receivers: set<nat>, a: nat, b: nat)
    requires Users(n, senders) && Users(n, receivers) && a in senders && b in receivers
    ensures Safe(n, senders, receivers) <==> |senders| <= 1 && |receivers| <= 1
  {
    hide RoleRun, Exec, Init, AllRespect;
    if |senders| > 1 {
      var a' := Pair(senders, a);
      var ops := TwoSendersOverrun(n, a, a', b);
      OverrunUnsafe(n, ops, {a, a'}, {b}, senders, receivers);
    } else if |receivers| > 1 {
      var b' := Pair(receivers, b);
      var ops := TwoReceiversOverrun(n, a, b, b');
      OverrunUnsafe(n, ops, {a}, {b, b'}, senders, receivers);
    } else {
      Single(senders, a);
      Single(receivers, b);
      SafeOne(n, a, b);
    }
  }

  lemma SafeOne(n: nat, a: nat, b: nat)
    requires a < n && b < n
    ensures Safe(n, {a}, {b})
  {
    forall run: seq<State>, ops: seq<Op>, i: nat | RoleRun(run, ops, n, {a}, {b}) && i <= |ops|
      ensures !run[i].overrun
    {
      Delivery(run, ops, n, a, b, i);
    }
  }
}
