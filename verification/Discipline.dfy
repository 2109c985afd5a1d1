/**
 How much the source leaves to its callers. Each condition of `Disciplined` is
 shown to be exact: a step keeps the invariant if and only if it meets it.
 */
module Discipline {
  import opened Prelude
  import opened KernelState
  import opened Scheduler
  import opened Linkage
  import opened Mutexes
  import opened Syscalls
  import opened Invariant
  import opened Steps

  /** spawn is sound exactly when the first EXITED slot has already been reaped. */
  lemma SpawnIff(st: State, p: Slot)
    requires Inv(st) && st.pcb[p].status == Exited
    ensures InvX(AssignTask(st, p), st.cur) <==> p !in st.ready
  {
    if p !in st.ready {
      InvAssign(st, p);
    }
  }

  /**
   kill is sound exactly when its victim is not running and, unless it is
   blocked, has no channel left over or is strictly inside the ready queue.
   */
  lemma KillIff(st: State, p: Slot)
    requires Inv(st) && Live(st, p)
    ensures Inv(KillSlot(st, p)) <==> KillSafe(st, p)
  {
    if KillSafe(st, p) {
      InvKill(st, p);
    } else if p != st.cur {
      assert p in st.ready;
    }
  }

  /** A release is sound exactly when nobody else owns the lock. */
  lemma ReleaseIff(st: State, l: LockId)
    requires Inv(st)
    ensures InvX(Release(st, l), st.cur) <==> CanRelease(st, l)
  {
    if CanRelease(st, l) {
      InvRelease(st, st.cur, l);
    } else {
      StolenLock(st, l);
    }
  }

  lemma StolenLock(st: State, l: LockId)
    requires Owners(st) && !CanRelease(st, l)
    ensures !Owners(Release(st, l))
    ensures exists p: Slot :: p != st.cur && l in Release(st, l).pcb[p].holding && l !in Release(st, l).locked
  {
    ReleaseSpec(st, l);
    var p: Slot :| l in st.pcb[p].holding;
    assert l in Release(st, l).pcb[p].holding;
  }

  lemma CondWaitIff(st: State, l: LockId, c: nat)
    requires Inv(st) && l.UserLock?
    ensures InvX(CondWaitSeg(st, l, c).st, -1) <==> CanRelease(st, l)
  {
    if CanRelease(st, l) {
      SegCondWait(st, l, c);
    } else {
      StolenLock(st, l);
      var st1 := Release(st, l);
      var p: Slot :| p != st.cur && l in st1.pcb[p].holding && l !in st1.locked;
      ReleaseSpec(st, l);
      var r := CondWaitSeg(st, l, c).st;
      assert l in r.pcb[p].holding && l !in r.locked;
    }
  }

  /** Every step: the invariant survives the kernel code if and only if the step is disciplined. */
  lemma SegmentKeepsIff(st: State, op: Op)
    requires Inv(st)
    ensures SegOk(st.cur, Segment(st, op)) <==> Disciplined(st, op)
  {
    if Disciplined(st, op) {
      SegmentKeeps(st, op);
    } else {
      match op
      case Unlock(l) => ReleaseCur(st, UserLock(l)); ReleaseIff(st, UserLock(l));
      case CondWait(l, c) => CondWaitIff(st, UserLock(l), c);
      case Kill(pid) => KillIff(st, FindLive(st.pcb, pid, 0).value);
      case Spawn => SpawnIff(st, FindExited(st.pcb, 0).value);
    }
  }
}
