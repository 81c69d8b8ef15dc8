/** What the two pause walks, and the pause branch as a whole, do to every
    thread, waiter list, cross-core flag and the call log. */
module PauseProofs {
  import opened SchedulingMask
  import opened KernelState
  import opened PauseUnpauseSpec

  /** The threads of `list` the first walk pauses, in list order. */
  function PausedInOrder(ctx: Context, p: ProcessId, m: seq<bv8>, list: seq<ThreadId>): (r: seq<ThreadId>)
    ensures forall t :: t in r ==> t in list && PausedNow(ctx, p, m, t)
    decreases |list|
  {
    if list == [] then []
    else
      var init := list[..|list| - 1];
      var t := list[|list| - 1];
      assert forall u :: u in init ==> u in list;
      PausedInOrder(ctx, p, m, init) + (if PausedNow(ctx, p, m, t) then [t] else [])
  }

  /** The threads of `list` owned by `p`, in list order. */
  function OwnedInOrder(ctx: Context, p: ProcessId, list: seq<ThreadId>): (r: seq<ThreadId>)
    ensures forall t :: t in r ==> t in list && OwnedBy(ctx, p, t)
    decreases |list|
  {
    if list == [] then []
    else
      var init := list[..|list| - 1];
      var t := list[|list| - 1];
      assert forall u :: u in init ==> u in list;
      OwnedInOrder(ctx, p, init) + (if OwnedBy(ctx, p, t) then [t] else [])
  }

  /** Core `c` has its cross-core flag raised by the deferred walk over `list`. */
  predicate Signals(ctx: Context, p: ProcessId, list: seq<ThreadId>, c: CoreId) {
    exists t :: t in list && OwnedBy(ctx, p, t) && t < |ctx.coreOf|
      && ctx.coreOf[t] != ctx.here && (c == ctx.coreOf[t] || c == ctx.here)
  }

  /** How many more times the first walk over `list` issues call `c`. */
  function FirstPassCount(ctx: Context, p: ProcessId, m: seq<bv8>, list: seq<ThreadId>, c: Call): nat {
    match c
    case Register(q, t) => if q == p && t in list && PausedNow(ctx, p, m, t) then 1 else 0
    case Adjust(t, x) => if t in list && PausedNow(ctx, p, m, t) && x == m[t] then 1 else 0
    case _ => 0
  }

  /** How many more times the deferred walk over `list` issues call `c`. */
  function SecondPassCount(ctx: Context, p: ProcessId, m: seq<bv8>, list: seq<ThreadId>, c: Call): nat {
    match c
    case Register(q, t) => if q == p && t in list && OwnedBy(ctx, p, t) then 1 else 0
    case Adjust(t, x) => if t in list && OwnedBy(ctx, p, t) && t < |m| && x == m[t] then 1 else 0
    case Lock => |OwnedInOrder(ctx, p, list)|
    case Unlock => |OwnedInOrder(ctx, p, list)|
    case _ => 0
  }

  lemma PrefixFacts(list: seq<ThreadId>, ctx: Context)
    requires list != [] && InRange(ctx, list) && Distinct(list)
    ensures InRange(ctx, list[..|list| - 1]) && Distinct(list[..|list| - 1])
    ensures list[|list| - 1] !in list[..|list| - 1]
    ensures forall u :: u in list <==> u in list[..|list| - 1] || u == list[|list| - 1]
  {
    var init := list[..|list| - 1];
    assert list == init + [list[|list| - 1]];
  }

  /** A filtered distinct list holds each kept thread once. */
  lemma {:induction false} PausedInOrderCount(ctx: Context, p: ProcessId, m: seq<bv8>, list: seq<ThreadId>, t: ThreadId)
    requires InRange(ctx, list) && Distinct(list)
    ensures multiset(PausedInOrder(ctx, p, m, list))[t] == if t in list && PausedNow(ctx, p, m, t) then 1 else 0
    ensures Distinct(PausedInOrder(ctx, p, m, list))
    decreases |list|
  {
    if list != [] {
      PrefixFacts(list, ctx);
      var init, last := list[..|list| - 1], list[|list| - 1];
      PausedInOrderCount(ctx, p, m, init, t);
      var r0 := PausedInOrder(ctx, p, m, init);
      assert last !in r0;
    }
  }

  lemma {:induction false} OwnedInOrderCount(ctx: Context, p: ProcessId, list: seq<ThreadId>, t: ThreadId)
    requires InRange(ctx, list) && Distinct(list)
    ensures multiset(OwnedInOrder(ctx, p, list))[t] == if t in list && OwnedBy(ctx, p, t) then 1 else 0
    decreases |list|
  {
    if list != [] {
      PrefixFacts(list, ctx);
      OwnedInOrderCount(ctx, p, list[..|list| - 1], t);
    }
  }

  /** First walk: a live owned thread that is not running on its core is
      blocked, keeping its suspend class; every other thread keeps its mask.
      `currentThreadsFound` is set exactly when a live owned thread is running.
      Each paused thread is appended to the process's waiter list once, in
      list order; no flag, reference count, lock depth or other waiter list
      changes. */
  lemma {:induction false} FirstPassEffect(ctx: Context, p: ProcessId, w: World, list: seq<ThreadId>)
    requires Fits(ctx, w) && InRange(ctx, list) && Distinct(list)
    ensures var (r, found) := FirstPass(ctx, p, w, list);
      && r.flags == w.flags && r.refCount == w.refCount && r.lockDepth == w.lockDepth
      && (forall t :: 0 <= t < |w.masks| ==>
            r.masks[t] == if t in list && PausedNow(ctx, p, w.masks, t) then Blocked(w.masks[t]) else w.masks[t])
      && (found <==> exists t :: t in list && Deferred(ctx, p, w.masks, t))
      && Waiters(r, p) == Waiters(w, p) + PausedInOrder(ctx, p, w.masks, list)
      && (forall q :: q != p ==> Waiters(r, q) == Waiters(w, q))
    decreases |list|
  {
    if list != [] {
      PrefixFacts(list, ctx);
      var init, t := list[..|list| - 1], list[|list| - 1];
      FirstPassEffect(ctx, p, w, init);
      var (r0, found0) := FirstPass(ctx, p, w, init);
      assert r0.masks[t] == w.masks[t];
      assert PausedNow(ctx, p, r0.masks, t) == PausedNow(ctx, p, w.masks, t);
      assert Deferred(ctx, p, r0.masks, t) == Deferred(ctx, p, w.masks, t);
      var (r, found) := FirstPass(ctx, p, w, list);
      assert (r, found) == FirstPassStep(ctx, p, (r0, found0), t);
      if found {
        if !found0 {
          assert Deferred(ctx, p, w.masks, t);
        }
      }
    }
  }

  /** One iteration of the first walk, field by field. */
  lemma FirstPassStepShape(ctx: Context, p: ProcessId, s: (World, bool), t: ThreadId)
    requires Fits(ctx, s.0) && t < |ctx.owner|
    ensures var r := FirstPassStep(ctx, p, s, t).0; var m := s.0.masks;
      && r.calls == s.0.calls + (if PausedNow(ctx, p, m, t) then [Register(p, t), Adjust(t, m[t])] else [])
  {
  }

  /** One iteration of the deferred walk, field by field. */
  lemma SecondPassStepShape(ctx: Context, p: ProcessId, w: World, t: ThreadId)
    requires Fits(ctx, w) && t < |ctx.owner|
    ensures var r := SecondPassStep(ctx, p, w, t); var owned := OwnedBy(ctx, p, t);
      && r.calls == w.calls + (if owned then [Register(p, t), Adjust(t, w.masks[t]), Lock, Unlock] else [])
      && r.masks == (if owned then w.masks[t := Blocked(w.masks[t])] else w.masks)
      && r.flags == (if owned && ctx.coreOf[t] != ctx.here then w.flags[ctx.coreOf[t] := true][ctx.here := true] else w.flags)
      && r.refCount == w.refCount && r.lockDepth == w.lockDepth
      && Waiters(r, p) == Waiters(w, p) + (if owned then [t] else [])
      && (forall q :: q != p ==> Waiters(r, q) == Waiters(w, q))
  {
  }

  /** The calls one iteration of the first walk adds, given the masks it sees. */
  function FirstPassChunk(ctx: Context, p: ProcessId, m: seq<bv8>, t: ThreadId): seq<Call> {
    if PausedNow(ctx, p, m, t) then [Register(p, t), Adjust(t, m[t])] else []
  }

  lemma FirstPassCountStep(ctx: Context, p: ProcessId, m: seq<bv8>, list: seq<ThreadId>, c: Call)
    requires list != [] && Distinct(list)
    ensures var init, t := list[..|list| - 1], list[|list| - 1];
      FirstPassCount(ctx, p, m, list, c)
        == FirstPassCount(ctx, p, m, init, c) + multiset(FirstPassChunk(ctx, p, m, t))[c]
  {
    var init, t := list[..|list| - 1], list[|list| - 1];
    assert list == init + [t];
    assert t !in init;
  }

  /** First walk: one registration and one `AdjustThread` with the thread's
      previous mask per paused thread, and no other call. */
  lemma {:induction false} FirstPassLog(ctx: Context, p: ProcessId, w: World, list: seq<ThreadId>)
    requires Fits(ctx, w) && InRange(ctx, list) && Distinct(list)
    ensures var r := FirstPass(ctx, p, w, list).0;
      forall c :: multiset(r.calls)[c] == multiset(w.calls)[c] + FirstPassCount(ctx, p, w.masks, list, c)
    decreases |list|
  {
    if list != [] {
      PrefixFacts(list, ctx);
      var init, t := list[..|list| - 1], list[|list| - 1];
      FirstPassLog(ctx, p, w, init);
      var s0 := FirstPass(ctx, p, w, init);
      FirstPassUnvisited(ctx, p, w, init, t);
      FirstPassStepShape(ctx, p, s0, t);
      var r := FirstPass(ctx, p, w, list).0;
      var chunk := FirstPassChunk(ctx, p, w.masks, t);
      assert r.calls == s0.0.calls + chunk;
      forall c ensures multiset(r.calls)[c] == multiset(w.calls)[c] + FirstPassCount(ctx, p, w.masks, list, c) {
        FirstPassCountStep(ctx, p, w.masks, list, c);
      }
    }
  }

  /** The first walk leaves the mask of a thread it has not reached. */
  lemma {:induction false} FirstPassUnvisited(ctx: Context, p: ProcessId, w: World, list: seq<ThreadId>, t: ThreadId)
    requires Fits(ctx, w) && InRange(ctx, list) && t !in list && t < |w.masks|
    ensures FirstPass(ctx, p, w, list).0.masks[t] == w.masks[t]
    decreases |list|
  {
    if list != [] {
      var init := list[..|list| - 1];
      assert list == init + [list[|list| - 1]];
      FirstPassUnvisited(ctx, p, w, init, t);
    }
  }

  /** Deferred walk: every owned thread, terminated or not, is blocked keeping
      its suspend class and appended to the waiter list again; for each owned
      thread on another core, that core's flag and this core's flag are
      raised; no flag is cleared, and the lock depth and reference counts end
      where they started. */
  lemma {:induction false} SecondPassEffect(ctx: Context, p: ProcessId, w: World, list: seq<ThreadId>)
    requires Fits(ctx, w) && InRange(ctx, list) && Distinct(list)
    ensures var r := SecondPass(ctx, p, w, list);
      && r.refCount == w.refCount && r.lockDepth == w.lockDepth
      && (forall t :: 0 <= t < |w.masks| ==>
            r.masks[t] == if t in list && OwnedBy(ctx, p, t) then Blocked(w.masks[t]) else w.masks[t])
      && (forall c :: 0 <= c < |w.flags| ==> r.flags[c] == (w.flags[c] || Signals(ctx, p, list, c)))
      && Waiters(r, p) == Waiters(w, p) + OwnedInOrder(ctx, p, list)
      && (forall q :: q != p ==> Waiters(r, q) == Waiters(w, q))
    decreases |list|
  {
    if list != [] {
      PrefixFacts(list, ctx);
      var init, t := list[..|list| - 1], list[|list| - 1];
      SecondPassEffect(ctx, p, w, init);
      var r0 := SecondPass(ctx, p, w, init);
      assert r0.masks[t] == w.masks[t];
      SecondPassStepShape(ctx, p, r0, t);
      var r := SecondPass(ctx, p, w, list);
      assert r == SecondPassStep(ctx, p, r0, t);
      forall c | 0 <= c < |w.flags|
        ensures r.flags[c] == (w.flags[c] || Signals(ctx, p, list, c))
      {
        SignalsStep(ctx, p, list, c);
      }
    }
  }

  lemma SignalsStep(ctx: Context, p: ProcessId, list: seq<ThreadId>, c: CoreId)
    requires list != [] && ctx.Valid() && InRange(ctx, list)
    ensures var init, t := list[..|list| - 1], list[|list| - 1];
      Signals(ctx, p, list, c) <==>
        Signals(ctx, p, init, c)
        || (OwnedBy(ctx, p, t) && ctx.coreOf[t] != ctx.here && (c == ctx.coreOf[t] || c == ctx.here))
  {
    var init, t := list[..|list| - 1], list[|list| - 1];
    assert list == init + [t];
    if Signals(ctx, p, list, c) {
      var u :| u in list && OwnedBy(ctx, p, u) && u < |ctx.coreOf|
        && ctx.coreOf[u] != ctx.here && (c == ctx.coreOf[u] || c == ctx.here);
      assert u in init || u == t;
    }
  }

  /** The calls one iteration of the deferred walk adds, given the masks it sees. */
  function SecondPassChunk(ctx: Context, p: ProcessId, m: seq<bv8>, t: ThreadId): seq<Call>
    requires t < |m|
  {
    if OwnedBy(ctx, p, t) then [Register(p, t), Adjust(t, m[t]), Lock, Unlock] else []
  }

  lemma SecondPassCountStep(ctx: Context, p: ProcessId, m: seq<bv8>, list: seq<ThreadId>, c: Call)
    requires list != [] && Distinct(list) && list[|list| - 1] < |m|
    ensures var init, t := list[..|list| - 1], list[|list| - 1];
      SecondPassCount(ctx, p, m, list, c)
        == SecondPassCount(ctx, p, m, init, c) + multiset(SecondPassChunk(ctx, p, m, t))[c]
  {
    var init, t := list[..|list| - 1], list[|list| - 1];
    assert list == init + [t];
    assert t !in init;
    assert |OwnedInOrder(ctx, p, list)| == |OwnedInOrder(ctx, p, init)| + (if OwnedBy(ctx, p, t) then 1 else 0);
  }

  /** The deferred walk leaves the mask of a thread it has not reached. */
  lemma {:induction false} SecondPassUnvisited(ctx: Context, p: ProcessId, w: World, list: seq<ThreadId>, t: ThreadId)
    requires Fits(ctx, w) && InRange(ctx, list) && t !in list && t < |w.masks|
    ensures SecondPass(ctx, p, w, list).masks[t] == w.masks[t]
    decreases |list|
  {
    if list != [] {
      var init := list[..|list| - 1];
      assert list == init + [list[|list| - 1]];
      SecondPassUnvisited(ctx, p, w, init, t);
    }
  }

  /** Deferred walk: per owned thread one registration, one `AdjustThread`
      with its previous mask, and one balanced lock/unlock pair. */
  lemma {:induction false} SecondPassLog(ctx: Context, p: ProcessId, w: World, list: seq<ThreadId>)
    requires Fits(ctx, w) && InRange(ctx, list) && Distinct(list)
    ensures var r := SecondPass(ctx, p, w, list);
      forall c :: multiset(r.calls)[c] == multiset(w.calls)[c] + SecondPassCount(ctx, p, w.masks, list, c)
    decreases |list|
  {
    if list != [] {
      PrefixFacts(list, ctx);
      var init, t := list[..|list| - 1], list[|list| - 1];
      SecondPassLog(ctx, p, w, init);
      var r0 := SecondPass(ctx, p, w, init);
      SecondPassUnvisited(ctx, p, w, init, t);
      SecondPassStepShape(ctx, p, r0, t);
      var r := SecondPass(ctx, p, w, list);
      assert r.calls == r0.calls + SecondPassChunk(ctx, p, w.masks, t);
      forall c ensures multiset(r.calls)[c] == multiset(w.calls)[c] + SecondPassCount(ctx, p, w.masks, list, c) {
        SecondPassCountStep(ctx, p, w.masks, list, c);
      }
    }
  }

  /** Some live thread of `p` is the current thread of its core, so the
      first walk defers and the second walk runs. */
  predicate AnyDeferred(ctx: Context, p: ProcessId, m: seq<bv8>) {
    exists t :: t in ctx.threadList && Deferred(ctx, p, m, t)
  }

  /** The pause branch is the first walk under the outer lock, then the
      deferred walk and the interrupt exactly when some live thread of the
      process was running on its core. */
  lemma PauseStages(ctx: Context, p: ProcessId, w: World)
    requires Fits(ctx, w)
    ensures var s := FirstPass(ctx, p, Perform(w, Lock), ctx.threadList);
      && s.1 == AnyDeferred(ctx, p, w.masks)
      && Pause(ctx, p, w)
           == Perform(if s.1 then Perform(SecondPass(ctx, p, s.0, ctx.threadList), CrossCoreInterrupt) else s.0, Unlock)
  {
    FirstPassEffect(ctx, p, Perform(w, Lock), ctx.threadList);
  }

  /** The mask of each thread after the pause branch: without a deferred
      thread exactly the live owned threads are blocked; with one, every
      owned thread is, terminated ones included. */
  lemma PauseMask(ctx: Context, p: ProcessId, w: World, t: ThreadId)
    requires Fits(ctx, w) && t < |w.masks|
    ensures Pause(ctx, p, w).masks[t]
      == if t in ctx.threadList && OwnedBy(ctx, p, t) && (Live(w.masks, t) || AnyDeferred(ctx, p, w.masks))
         then Blocked(w.masks[t]) else w.masks[t]
  {
    var list := ctx.threadList;
    var w0 := Perform(w, Lock);
    PauseStages(ctx, p, w);
    FirstPassEffect(ctx, p, w0, list);
    var s := FirstPass(ctx, p, w0, list);
    if s.1 {
      SecondPassEffect(ctx, p, s.0, list);
      TransitionsSettle(w.masks[t]);
    }
  }

  /** The cross-core flag of each core after the pause branch: raised when
      the deferred walk ran and met an owned thread on another core (this
      core's own flag then included); never cleared. */
  lemma PauseFlag(ctx: Context, p: ProcessId, w: World, c: CoreId)
    requires Fits(ctx, w) && c < |w.flags|
    ensures Pause(ctx, p, w).flags[c]
      == (w.flags[c] || (AnyDeferred(ctx, p, w.masks) && Signals(ctx, p, ctx.threadList, c)))
  {
    var list := ctx.threadList;
    var w0 := Perform(w, Lock);
    PauseStages(ctx, p, w);
    FirstPassEffect(ctx, p, w0, list);
    var s := FirstPass(ctx, p, w0, list);
    if s.1 {
      SecondPassEffect(ctx, p, s.0, list);
    }
  }

  /** The process's waiter list after the pause branch: it gains the
      threads the first walk paused, then, when the deferred walk ran, every
      owned thread once more. */
  lemma PauseWaiters(ctx: Context, p: ProcessId, w: World)
    requires Fits(ctx, w)
    ensures Waiters(Pause(ctx, p, w), p)
      == Waiters(w, p) + PausedInOrder(ctx, p, w.masks, ctx.threadList)
         + (if AnyDeferred(ctx, p, w.masks) then OwnedInOrder(ctx, p, ctx.threadList) else [])
  {
    var list := ctx.threadList;
    var w0 := Perform(w, Lock);
    PauseStages(ctx, p, w);
    FirstPassEffect(ctx, p, w0, list);
    var s := FirstPass(ctx, p, w0, list);
    var paused := PausedInOrder(ctx, p, w.masks, list);
    if s.1 {
      SecondPassEffect(ctx, p, s.0, list);
    } else {
      assert Waiters(w, p) + paused + [] == Waiters(w, p) + paused;
    }
  }

  /** The pause branch leaves every reference count and the lock depth as
      it found them. */
  lemma PauseKeepsCounts(ctx: Context, p: ProcessId, w: World)
    requires Fits(ctx, w)
    ensures var r := Pause(ctx, p, w); r.refCount == w.refCount && r.lockDepth == w.lockDepth
  {
    var list := ctx.threadList;
    var w0 := Perform(w, Lock);
    PauseStages(ctx, p, w);
    FirstPassEffect(ctx, p, w0, list);
    var s := FirstPass(ctx, p, w0, list);
    if s.1 {
      SecondPassEffect(ctx, p, s.0, list);
    }
  }

  /** The pause branch leaves every other process's waiter list as it found it. */
  lemma PauseKeepsOtherWaiters(ctx: Context, p: ProcessId, w: World, q: ProcessId)
    requires Fits(ctx, w) && q != p
    ensures Waiters(Pause(ctx, p, w), q) == Waiters(w, q)
  {
    var list := ctx.threadList;
    var w0 := Perform(w, Lock);
    PauseStages(ctx, p, w);
    FirstPassEffect(ctx, p, w0, list);
    var s := FirstPass(ctx, p, w0, list);
    assert Waiters(s.0, q) == Waiters(w0, q) == Waiters(w, q);
    if s.1 {
      SecondPassEffect(ctx, p, s.0, list);
    }
  }

  /** How many more times the pause branch issues call `c`. */
  function PauseCount(ctx: Context, p: ProcessId, m: seq<bv8>, c: Call): nat {
    var list := ctx.threadList;
    var d := AnyDeferred(ctx, p, m);
    match c
    case Lock => 1 + (if d then |OwnedInOrder(ctx, p, list)| else 0)
    case Unlock => 1 + (if d then |OwnedInOrder(ctx, p, list)| else 0)
    case CrossCoreInterrupt => if d then 1 else 0
    case Register(q, t) =>
      if q == p && t in list then
        (if PausedNow(ctx, p, m, t) then 1 else 0) + (if d && OwnedBy(ctx, p, t) then 1 else 0)
      else 0
    case Adjust(t, x) =>
      if t in list && t < |m| then
        (if PausedNow(ctx, p, m, t) && x == m[t] then 1 else 0)
        + (if d && OwnedBy(ctx, p, t) && x == (if PausedNow(ctx, p, m, t) then Blocked(m[t]) else m[t]) then 1 else 0)
      else 0
    case _ => 0
  }

  /** The pause branch's count split into the outer pair, the first walk,
      and (when a thread was deferred) the deferred walk and the interrupt;
      `m1` is the masks the deferred walk starts from. */
  lemma PauseCountSplit(ctx: Context, p: ProcessId, m: seq<bv8>, m1: seq<bv8>, c: Call)
    requires ctx.Valid() && |m| == |m1|
    requires forall t :: 0 <= t < |m| ==>
      m1[t] == if t in ctx.threadList && PausedNow(ctx, p, m, t) then Blocked(m[t]) else m[t]
    ensures var list := ctx.threadList; var d := AnyDeferred(ctx, p, m);
      PauseCount(ctx, p, m, c)
        == multiset([Lock, Unlock])[c] + FirstPassCount(ctx, p, m, list, c)
           + (if d then SecondPassCount(ctx, p, m1, list, c) + multiset([CrossCoreInterrupt])[c] else 0)
  {
  }

  /** The calls of the pause branch: one outer lock/unlock pair, and when a
      thread was deferred one nested pair per owned thread and a single
      `TriggerCrossCoreInterrupt`; one registration and one `AdjustThread`
      per visit that pauses a thread; no reference-count or unregistration
      call. */
  lemma PauseLog(ctx: Context, p: ProcessId, w: World, c: Call)
    requires Fits(ctx, w)
    ensures multiset(Pause(ctx, p, w).calls)[c] == multiset(w.calls)[c] + PauseCount(ctx, p, w.masks, c)
  {
    var list := ctx.threadList;
    var w0 := Perform(w, Lock);
    PauseStages(ctx, p, w);
    FirstPassEffect(ctx, p, w0, list);
    FirstPassLog(ctx, p, w0, list);
    var s := FirstPass(ctx, p, w0, list);
    PauseCountSplit(ctx, p, w.masks, s.0.masks, c);
    var r := Pause(ctx, p, w);
    assert multiset(w0.calls)[c] == multiset(w.calls)[c] + multiset([Lock])[c];
    if s.1 {
      SecondPassLog(ctx, p, s.0, list);
      var r2 := SecondPass(ctx, p, s.0, list);
      assert r.calls == r2.calls + [CrossCoreInterrupt] + [Unlock];
    } else {
      assert r.calls == s.0.calls + [Unlock];
    }
  }

  /** Every live thread of the process ends blocked with its suspend class
      kept, and registered as a waiter on the process. */
  lemma PauseBlocksLiveThreads(ctx: Context, p: ProcessId, w: World, t: ThreadId)
    requires Fits(ctx, w) && t in ctx.threadList && OwnedBy(ctx, p, t) && Live(w.masks, t)
    ensures var r := Pause(ctx, p, w);
      && WaitState(r.masks[t]) == 0 && SuspendClass(r.masks[t]) == SuspendClass(w.masks[t])
      && t in Waiters(r, p)
  {
    PauseMask(ctx, p, w, t);
    PauseWaiters(ctx, p, w);
    var list := ctx.threadList;
    if AnyDeferred(ctx, p, w.masks) {
      OwnedInOrderCount(ctx, p, list, t);
      assert t in OwnedInOrder(ctx, p, list);
    } else {
      assert !IsRunning(ctx, t);
      PausedInOrderCount(ctx, p, w.masks, list, t);
      assert t in PausedInOrder(ctx, p, w.masks, list);
    }
  }

  /** The deferred walk has no terminated check: a terminated thread of the
      process keeps its mask and its waiter count exactly when no thread was
      deferred, and otherwise is blocked and registered once. */
  lemma PauseTouchesTerminatedOnlyWhenDeferring(ctx: Context, p: ProcessId, w: World, t: ThreadId)
    requires Fits(ctx, w) && t in ctx.threadList && OwnedBy(ctx, p, t) && IsTerminated(w.masks[t])
    ensures var r := Pause(ctx, p, w); var d := AnyDeferred(ctx, p, w.masks);
      && (r.masks[t] == w.masks[t] <==> !d)
      && multiset(Waiters(r, p))[t] == multiset(Waiters(w, p))[t] + (if d then 1 else 0)
  {
    PauseMask(ctx, p, w, t);
    PauseWaiters(ctx, p, w);
    PausedInOrderCount(ctx, p, w.masks, ctx.threadList, t);
    OwnedInOrderCount(ctx, p, ctx.threadList, t);
  }

  /** A thread paused by the first walk is registered again by the deferred
      walk: with a deferred thread its waiter count grows by two. */
  lemma PauseRegistersTwice(ctx: Context, p: ProcessId, w: World, t: ThreadId)
    requires Fits(ctx, w) && t in ctx.threadList && PausedNow(ctx, p, w.masks, t)
    requires AnyDeferred(ctx, p, w.masks)
    ensures multiset(Waiters(Pause(ctx, p, w), p))[t] == multiset(Waiters(w, p))[t] + 2
  {
    PauseWaiters(ctx, p, w);
    PausedInOrderCount(ctx, p, w.masks, ctx.threadList, t);
    OwnedInOrderCount(ctx, p, ctx.threadList, t);
  }

  /** The pause branch triggers the cross-core interrupt once when a thread
      was deferred and never otherwise, and leaves as many unlocks as locks. */
  lemma PauseSignalsOnceAndUnlocks(ctx: Context, p: ProcessId, w: World)
    requires Fits(ctx, w)
    ensures var r := Pause(ctx, p, w);
      && multiset(r.calls)[CrossCoreInterrupt]
           == multiset(w.calls)[CrossCoreInterrupt] + (if AnyDeferred(ctx, p, w.masks) then 1 else 0)
      && multiset(r.calls)[Lock] > multiset(w.calls)[Lock]
      && multiset(r.calls)[Lock] + multiset(w.calls)[Unlock] == multiset(r.calls)[Unlock] + multiset(w.calls)[Lock]
  {
    PauseLog(ctx, p, w, CrossCoreInterrupt);
    PauseLog(ctx, p, w, Lock);
    PauseLog(ctx, p, w, Unlock);
  }
}
