/** The `schedulingMask` byte of a kernel thread.

    Its low nibble is the wait sub-state (2 means terminated); its high nibble
    is the suspend class, which pause and unpause carry over unchanged. */
module SchedulingMask {

  /** Low-nibble value of a terminated thread. */
  const TERMINATED: bv8 := 2

  function WaitState(m: bv8): bv8 { m & 0x0F }

  function SuspendClass(m: bv8): bv8 { m & 0xF0 }

  /** The terminated test; a terminated mask is changed both by clearing its
      low nibble and by setting that nibble to 1. */
  predicate IsTerminated(m: bv8)
    ensures IsTerminated(m) ==> m & 0xF0 != m && (m & 0xF0) | 1 != m
  {
    WaitState(m) == TERMINATED
  }

  /** The mask pause leaves behind (`mask &= 0xF0`). */
  function Blocked(m: bv8): (r: bv8)
    ensures WaitState(r) == 0 && SuspendClass(r) == SuspendClass(m)
    ensures !IsTerminated(r)
  {
    m & 0xF0
  }

  /** The mask unpause writes (`(mask & 0xF0) | 1`). */
  function Readied(m: bv8): (r: bv8)
    ensures WaitState(r) == 1 && SuspendClass(r) == SuspendClass(m)
    ensures !IsTerminated(r)
  {
    (m & 0xF0) | 1
  }

  /** Applying either transition twice is the same as applying it once, and
      a thread that was ready before a pause is ready with the same class
      after the matching unpause. */
  lemma TransitionsSettle(m: bv8)
    ensures Blocked(Blocked(m)) == Blocked(m)
    ensures Readied(Readied(m)) == Readied(m)
    ensures Readied(Blocked(m)) == Readied(m)
    ensures WaitState(m) == 1 ==> Readied(Blocked(m)) == m
  {
  }
}
