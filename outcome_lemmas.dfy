/** What the whole system call promises: handle resolution and its error
    code, a balanced reference count, and what a pause followed by an unpause
    does to a process's threads. */
module OutcomeProofs {
  import opened SchedulingMask
  import opened KernelState
  import opened PauseUnpauseSpec
  import opened PauseProofs
  import opened UnpauseProofs

  /** The process a handle names, when it names one. */
  predicate Names(ctx: Context, h: Handle) {
    h == CUR_PROCESS_HANDLE || h in ctx.handleTable
  }

  function Target(ctx: Context, h: Handle): ProcessId
    requires Names(ctx, h)
  {
    if h == CUR_PROCESS_HANDLE then ctx.currentProcess else ctx.handleTable[h]
  }

  /** A handle that names no process fails with the invalid-handle code and
      leaves the world as it was; any other handle succeeds. */
  lemma OutcomeRejectsUnknownHandle(ctx: Context, w: World, h: Handle, pause: bool)
    requires Fits(ctx, w)
    ensures var (r, result) := Outcome(ctx, w, h, pause);
      && (result == ERR_INVALID_HANDLE <==> !Names(ctx, h))
      && (result == SUCCESS <==> Names(ctx, h))
      && (!Names(ctx, h) ==> r == w)
  {
    if h != CUR_PROCESS_HANDLE {
      var (process, resolved) := LookUp(ctx, w, h);
      assert process.None? <==> h !in ctx.handleTable;
    }
  }

  /** The world right after handle resolution differs from the original only
      in reference counts and the call log. */
  lemma ResolveKeepsScheduling(ctx: Context, w: World, h: Handle)
    requires Fits(ctx, w)
    ensures var (process, resolved) := Resolve(ctx, w, h);
      && (process.Some? <==> Names(ctx, h))
      && (process.Some? ==> process.value == Target(ctx, h))
      && resolved.masks == w.masks && resolved.flags == w.flags
      && resolved.synced == w.synced && resolved.lockDepth == w.lockDepth
      && Fits(ctx, resolved)
  {
  }

  /** The branch the `pause` flag selects. */
  function Branch(ctx: Context, p: ProcessId, w: World, pause: bool): (r: World)
    requires Fits(ctx, w)
    ensures Fits(ctx, r)
  {
    if pause then Pause(ctx, p, w) else Unpause(ctx, p, w)
  }

  /** A call on a handle naming a process is resolution, the selected branch
      on the process, and the release of the process. */
  lemma OutcomeStages(ctx: Context, w: World, h: Handle, pause: bool)
    requires Fits(ctx, w) && Names(ctx, h)
    ensures var p := Target(ctx, h); var resolved := Resolve(ctx, w, h).1;
      && Fits(ctx, resolved)
      && Outcome(ctx, w, h, pause) == (Perform(Branch(ctx, p, resolved, pause), DecRef(p)), SUCCESS)
  {
    ResolveKeepsScheduling(ctx, w, h);
  }

  /** Neither branch touches a reference count, the lock depth in the end,
      or issues `AddReference` or `DecrementReferenceCount`. */
  lemma BranchKeepsCounts(ctx: Context, p: ProcessId, w: World, pause: bool, q: ProcessId)
    requires Fits(ctx, w)
    ensures var r := Branch(ctx, p, w, pause);
      && r.refCount == w.refCount && r.lockDepth == w.lockDepth
      && multiset(r.calls)[AddRef(q)] == multiset(w.calls)[AddRef(q)]
      && multiset(r.calls)[DecRef(q)] == multiset(w.calls)[DecRef(q)]
  {
    if pause {
      PauseKeepsCounts(ctx, p, w);
      PauseLog(ctx, p, w, AddRef(q));
      PauseLog(ctx, p, w, DecRef(q));
    } else {
      UnpauseKeepsOthers(ctx, p, w);
      UnpauseLog(ctx, p, w, AddRef(q));
      UnpauseLog(ctx, p, w, DecRef(q));
    }
  }

  /** A successful call gives back the reference it took: every reference
      count and the lock depth end where they started. */
  lemma OutcomeBalancesReferences(ctx: Context, w: World, h: Handle, pause: bool, q: ProcessId)
    requires Fits(ctx, w) && Names(ctx, h)
    ensures var r := Outcome(ctx, w, h, pause).0;
      Refs(r, q) == Refs(w, q) && r.lockDepth == w.lockDepth
  {
    var p := Target(ctx, h);
    OutcomeStages(ctx, w, h, pause);
    ResolveKeepsScheduling(ctx, w, h);
    var resolved := Resolve(ctx, w, h).1;
    assert Refs(resolved, q) == Refs(w, q) + (if q == p then 1 else 0);
    BranchKeepsCounts(ctx, p, resolved, pause, p);
    assert Refs(Branch(ctx, p, resolved, pause), q) == Refs(resolved, q);
  }

  /** A successful call releases the target exactly once, as its last call,
      releases no other process, and issues an explicit `AddReference`
      exactly for the pseudo-handle. */
  lemma OutcomeReleasesLast(ctx: Context, w: World, h: Handle, pause: bool)
    requires Fits(ctx, w) && Names(ctx, h)
    ensures var r := Outcome(ctx, w, h, pause).0; var p := Target(ctx, h);
      && r.calls != [] && r.calls[|r.calls| - 1] == DecRef(p)
      && multiset(r.calls)[DecRef(p)] == multiset(w.calls)[DecRef(p)] + 1
      && (forall q :: q != p ==> multiset(r.calls)[DecRef(q)] == multiset(w.calls)[DecRef(q)])
      && multiset(r.calls)[AddRef(p)] == multiset(w.calls)[AddRef(p)] + (if h == CUR_PROCESS_HANDLE then 1 else 0)
  {
    var p := Target(ctx, h);
    OutcomeStages(ctx, w, h, pause);
    var resolved := Resolve(ctx, w, h).1;
    assert multiset(resolved.calls)[AddRef(p)] == multiset(w.calls)[AddRef(p)] + (if h == CUR_PROCESS_HANDLE then 1 else 0);
    assert multiset(resolved.calls)[DecRef(p)] == multiset(w.calls)[DecRef(p)];
    BranchKeepsCounts(ctx, p, resolved, pause, p);
    var done := Branch(ctx, p, resolved, pause);
    assert Perform(done, DecRef(p)).calls == done.calls + [DecRef(p)];
    forall q | q != p
      ensures multiset(Perform(done, DecRef(p)).calls)[DecRef(q)] == multiset(w.calls)[DecRef(q)]
    {
      assert multiset(resolved.calls)[DecRef(q)] == multiset(w.calls)[DecRef(q)];
      BranchKeepsCounts(ctx, p, resolved, pause, q);
    }
  }

  /** A successful pause call leaves each thread's mask as the pause branch
      gives it over the original world. */
  lemma OutcomePauseMask(ctx: Context, w: World, h: Handle, t: ThreadId)
    requires Fits(ctx, w) && Names(ctx, h) && t < |w.masks|
    ensures var r := Outcome(ctx, w, h, true).0; var p := Target(ctx, h);
      r.masks[t] == if t in ctx.threadList && OwnedBy(ctx, p, t) && (Live(w.masks, t) || AnyDeferred(ctx, p, w.masks))
                    then Blocked(w.masks[t]) else w.masks[t]
  {
    OutcomeStages(ctx, w, h, true);
    ResolveKeepsScheduling(ctx, w, h);
    PauseMask(ctx, Target(ctx, h), Resolve(ctx, w, h).1, t);
  }

  /** A successful unpause call leaves each thread's mask as the unpause
      branch gives it over the original world. */
  lemma OutcomeUnpauseMask(ctx: Context, w: World, h: Handle, t: ThreadId)
    requires Fits(ctx, w) && Names(ctx, h) && t < |w.masks|
    ensures var r := Outcome(ctx, w, h, false).0; var p := Target(ctx, h);
      r.masks[t] == if t in Visited(Waiters(w, p)) && Releases(ctx, p, w.masks, t)
                    then Readied(w.masks[t]) else w.masks[t]
  {
    OutcomeStages(ctx, w, h, false);
    ResolveKeepsScheduling(ctx, w, h);
    var resolved := Resolve(ctx, w, h).1;
    assert Waiters(resolved, Target(ctx, h)) == Waiters(w, Target(ctx, h));
    UnpauseMask(ctx, Target(ctx, h), resolved, t);
  }

  /** A walk whose every node is released keeps none. */
  lemma NothingKept(ctx: Context, p: ProcessId, m: seq<bv8>, nodes: seq<ThreadId>)
    requires forall t :: t in nodes ==> Releases(ctx, p, m, t)
    ensures KeptInOrder(ctx, p, m, nodes) == []
  {
  }

  /** The scenario of a pause followed by an unpause: a process with no
      waiters and no live thread running on its core. */
  predicate QuietProcess(ctx: Context, p: ProcessId, w: World) {
    Fits(ctx, w) && Waiters(w, p) == [] && !AnyDeferred(ctx, p, w.masks)
      && PausedInOrder(ctx, p, w.masks, ctx.threadList) != []
  }

  /** After the pause of a quiet process, its waiter list is exactly the
      threads paused, each once, and every one of them is released by a
      later visit. */
  lemma PausedQuietProcess(ctx: Context, p: ProcessId, w: World)
    requires QuietProcess(ctx, p, w)
    ensures var paused := PausedInOrder(ctx, p, w.masks, ctx.threadList); var w1 := Pause(ctx, p, w);
      && Waiters(w1, p) == paused && Distinct(paused)
      && paused[|paused| - 1] !in Visited(paused)
      && forall t :: t in paused ==> Releases(ctx, p, w1.masks, t)
  {
    var m := w.masks;
    var paused := PausedInOrder(ctx, p, m, ctx.threadList);
    var last := paused[|paused| - 1];
    var w1 := Pause(ctx, p, w);
    PauseWaiters(ctx, p, w);
    PausedInOrderCount(ctx, p, m, ctx.threadList, last);
    var visited := Visited(paused);
    assert paused == visited + [last];
    assert multiset(paused)[last] == multiset(visited)[last] + 1;
    forall t | t in paused ensures Releases(ctx, p, w1.masks, t) {
      PauseMask(ctx, p, w, t);
    }
  }

  /** Pause then unpause of a quiet process: every thread the pause blocked
      is readied with its suspend class except the last one paused, which
      stays blocked; no other thread changes. */
  lemma PauseThenUnpauseMask(ctx: Context, p: ProcessId, w: World, t: ThreadId)
    requires QuietProcess(ctx, p, w) && t < |w.masks|
    ensures var paused := PausedInOrder(ctx, p, w.masks, ctx.threadList);
      var last := paused[|paused| - 1];
      var r := Unpause(ctx, p, Pause(ctx, p, w));
      r.masks[t] == if t == last then Blocked(w.masks[t]) else if t in paused then Readied(w.masks[t]) else w.masks[t]
  {
    var m := w.masks;
    var paused := PausedInOrder(ctx, p, m, ctx.threadList);
    var w1 := Pause(ctx, p, w);
    PausedQuietProcess(ctx, p, w);
    PauseMask(ctx, p, w, t);
    UnpauseMask(ctx, p, w1, t);
    PausedInOrderCount(ctx, p, m, ctx.threadList, t);
    assert paused == Visited(paused) + [paused[|paused| - 1]];
    TransitionsSettle(m[t]);
  }

  /** Pause then unpause of a quiet process leaves the last thread paused as
      its only waiter. */
  lemma PauseThenUnpauseWaiters(ctx: Context, p: ProcessId, w: World)
    requires QuietProcess(ctx, p, w)
    ensures var paused := PausedInOrder(ctx, p, w.masks, ctx.threadList);
      Waiters(Unpause(ctx, p, Pause(ctx, p, w)), p) == [paused[|paused| - 1]]
  {
    var paused := PausedInOrder(ctx, p, w.masks, ctx.threadList);
    var w1 := Pause(ctx, p, w);
    PausedQuietProcess(ctx, p, w);
    assert forall t :: t in Visited(paused) ==> t in paused;
    NothingKept(ctx, p, w1.masks, Visited(paused));
    UnpauseWaiters(ctx, p, w1);
  }

  /** The deferred walk turns a terminated thread of the process into a
      blocked one (wait sub-state 2 becomes 0), so a later unpause that
      visits it readies it: the terminated thread comes back in wait
      sub-state 1. */
  lemma PauseThenUnpauseRevivesTerminated(ctx: Context, p: ProcessId, w: World, t: ThreadId)
    requires Fits(ctx, w) && t in ctx.threadList && OwnedBy(ctx, p, t) && IsTerminated(w.masks[t])
    requires AnyDeferred(ctx, p, w.masks)
    requires t in Visited(Waiters(Pause(ctx, p, w), p))
    ensures var r := Unpause(ctx, p, Pause(ctx, p, w));
      WaitState(r.masks[t]) == 1 && SuspendClass(r.masks[t]) == SuspendClass(w.masks[t])
  {
    var w1 := Pause(ctx, p, w);
    PauseMask(ctx, p, w, t);
    assert w1.masks[t] == Blocked(w.masks[t]);
    assert Releases(ctx, p, w1.masks, t);
    UnpauseMask(ctx, p, w1, t);
  }
}
