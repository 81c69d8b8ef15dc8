/** `PauseUnpauseProcess` as functions on the world: one function per loop body,
    one per loop, and one for the whole system call. */
module PauseUnpauseSpec {
  import opened SchedulingMask
  import opened KernelState

  predicate InRange(ctx: Context, list: seq<ThreadId>) {
    forall i :: 0 <= i < |list| ==> list[i] < |ctx.owner|
  }

  /** The first pause pass handles `t` itself: an owned, live thread that is
      not its core's current thread. */
  predicate PausedNow(ctx: Context, p: ProcessId, m: seq<bv8>, t: ThreadId) {
    OwnedBy(ctx, p, t) && Live(m, t) && !IsRunning(ctx, t)
  }

  /** The first pause pass defers `t`: an owned, live thread that is its
      core's current thread. */
  predicate Deferred(ctx: Context, p: ProcessId, m: seq<bv8>, t: ThreadId) {
    OwnedBy(ctx, p, t) && Live(m, t) && IsRunning(ctx, t)
  }

  /** One iteration of the first pause walk; the flag is `currentThreadsFound`. */
  function FirstPassStep(ctx: Context, p: ProcessId, s: (World, bool), t: ThreadId): (r: (World, bool))
    requires Fits(ctx, s.0) && t < |ctx.owner|
    ensures Fits(ctx, r.0)
  {
    var (w, found) := s;
    if ctx.owner[t] != p || IsTerminated(w.masks[t]) then s
    else if ctx.running[ctx.coreOf[t]] == t then (w, true)
    else
      var cleared := w.(masks := w.masks[t := Blocked(w.masks[t])]);
      (Perform(Perform(cleared, Register(p, t)), Adjust(t, w.masks[t])), found)
  }

  /** The first pause walk over `list`, a prefix of the thread list. */
  function FirstPass(ctx: Context, p: ProcessId, w: World, list: seq<ThreadId>): (r: (World, bool))
    requires Fits(ctx, w) && InRange(ctx, list)
    ensures Fits(ctx, r.0)
    decreases |list|
  {
    if list == [] then (w, false)
    else FirstPassStep(ctx, p, FirstPass(ctx, p, w, list[..|list| - 1]), list[|list| - 1])
  }

  /** One iteration of the deferred pause walk: no terminated check, and the
      cross-core flags are raised under a nested lock. */
  function SecondPassStep(ctx: Context, p: ProcessId, w: World, t: ThreadId): (r: World)
    requires Fits(ctx, w) && t < |ctx.owner|
    ensures Fits(ctx, r)
  {
    if ctx.owner[t] != p then w
    else
      var cleared := w.(masks := w.masks[t := Blocked(w.masks[t])]);
      var locked := Perform(Perform(Perform(cleared, Register(p, t)), Adjust(t, w.masks[t])), Lock);
      var core := ctx.coreOf[t];
      var signalled :=
        if core != ctx.here then locked.(flags := locked.flags[core := true][ctx.here := true])
        else locked;
      Perform(signalled, Unlock)
  }

  /** The deferred pause walk over `list`, a prefix of the thread list. */
  function SecondPass(ctx: Context, p: ProcessId, w: World, list: seq<ThreadId>): (r: World)
    requires Fits(ctx, w) && InRange(ctx, list)
    ensures Fits(ctx, r)
    decreases |list|
  {
    if list == [] then w
    else SecondPassStep(ctx, p, SecondPass(ctx, p, w, list[..|list| - 1]), list[|list| - 1])
  }

  /** The pause branch, lock to unlock. */
  function Pause(ctx: Context, p: ProcessId, w: World): (r: World)
    requires Fits(ctx, w)
    ensures Fits(ctx, r)
  {
    var (walked, found) := FirstPass(ctx, p, Perform(w, Lock), ctx.threadList);
    var deferred :=
      if found then Perform(SecondPass(ctx, p, walked, ctx.threadList), CrossCoreInterrupt)
      else walked;
    Perform(deferred, Unlock)
  }

  /** One iteration of the unpause walk over the waiter list. */
  function UnpauseStep(ctx: Context, p: ProcessId, w: World, t: ThreadId): (r: World)
    requires Fits(ctx, w) && t < |ctx.owner|
    ensures Fits(ctx, r)
  {
    if ctx.owner[t] == p && !IsTerminated(w.masks[t]) then
      var unlinked := Perform(w, UnRegister(p, t));
      var readied := unlinked.(masks := unlinked.masks[t := Readied(unlinked.masks[t])]);
      Perform(readied, Adjust(t, unlinked.masks[t]))
    else w
  }

  /** The unpause walk over `nodes`, a snapshot of waiter-list nodes. */
  function UnpauseWalk(ctx: Context, p: ProcessId, w: World, nodes: seq<ThreadId>): (r: World)
    requires Fits(ctx, w) && InRange(ctx, nodes)
    ensures Fits(ctx, r)
    decreases |nodes|
  {
    if nodes == [] then w
    else UnpauseStep(ctx, p, UnpauseWalk(ctx, p, w, nodes[..|nodes| - 1]), nodes[|nodes| - 1])
  }

  /** The nodes the unpause walk visits: it stops at the list's `last` node,
      so every node but the final one. */
  function Visited(waiters: seq<ThreadId>): (r: seq<ThreadId>)
    ensures waiters != [] ==> waiters == r + [waiters[|waiters| - 1]]
    ensures waiters == [] ==> r == []
  {
    if waiters == [] then [] else waiters[..|waiters| - 1]
  }

  /** The unpause branch: no lock, walk every waiter node before `last`. */
  function Unpause(ctx: Context, p: ProcessId, w: World): (r: World)
    requires Fits(ctx, w)
    ensures Fits(ctx, r)
  {
    var waiters := Waiters(w, p);
    var nodes := Visited(waiters);
    assert forall i :: 0 <= i < |nodes| ==> nodes[i] == waiters[i] && waiters[i] in waiters;
    UnpauseWalk(ctx, p, w, nodes)
  }

  /** `KProcessHandleTable__ToKProcess`: a process that is found comes back
      with one reference taken. */
  function LookUp(ctx: Context, w: World, h: Handle): (r: (Option<ProcessId>, World))
    ensures r.0.None? <==> h !in ctx.handleTable
    ensures r.0.None? ==> r.1 == w
    ensures r.0.Some? ==> r.0.value == ctx.handleTable[h] && r.1 == Retain(w, r.0.value)
  {
    if h in ctx.handleTable then (Some(ctx.handleTable[h]), Retain(w, ctx.handleTable[h]))
    else (None, w)
  }

  /** Handle resolution: the pseudo-handle names the current process, which
      gets an explicit extra reference; any other handle is looked up. */
  function Resolve(ctx: Context, w: World, h: Handle): (r: (Option<ProcessId>, World))
    ensures r.0.Some? <==> h == CUR_PROCESS_HANDLE || h in ctx.handleTable
    ensures r.0.Some? ==>
      && r.0.value == (if h == CUR_PROCESS_HANDLE then ctx.currentProcess else ctx.handleTable[h])
      && Refs(r.1, r.0.value) == Refs(w, r.0.value) + 1
    ensures r.1.masks == w.masks && r.1.flags == w.flags && r.1.synced == w.synced && r.1.lockDepth == w.lockDepth
  {
    if h == CUR_PROCESS_HANDLE then (Some(ctx.currentProcess), Perform(w, AddRef(ctx.currentProcess)))
    else LookUp(ctx, w, h)
  }

  /** The whole system call: the world afterwards and the result code. */
  function Outcome(ctx: Context, w: World, h: Handle, pause: bool): (r: (World, bv32))
    requires Fits(ctx, w)
    ensures Fits(ctx, r.0)
  {
    var (process, resolved) := Resolve(ctx, w, h);
    match process
    case None => (resolved, ERR_INVALID_HANDLE)
    case Some(p) =>
      var done := if pause then Pause(ctx, p, resolved) else Unpause(ctx, p, resolved);
      (Perform(done, DecRef(p)), SUCCESS)
  }
}
