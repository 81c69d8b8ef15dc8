/** The system call `PauseUnpauseProcess` over the kernel's state in place:
    thread masks and per-core flags are arrays, the waiter lists, reference
    counts, lock depth and call log are fields. Every method is tied to the
    function of `PauseUnpauseSpec` that describes it. */
module PauseUnpause {
  import opened SchedulingMask
  import opened KernelState
  import opened PauseUnpauseSpec

  class Kernel {
    const ctx: Context
    const masks: array<bv8>            // schedulingMask of each thread
    const flags: array<bool>           // triggerCrossCoreInterrupt of each core's scheduler
    var syncedThreads: map<ProcessId, seq<ThreadId>>
    var refCount: map<ProcessId, int>
    var lockDepth: int
    var calls: seq<Call>

    function Snapshot(): World
      reads this, masks, flags
    {
      World(masks[..], flags[..], syncedThreads, refCount, lockDepth, calls)
    }

    ghost predicate Valid()
      reads this, masks, flags
    {
      (masks as object) != (flags as object) && Fits(ctx, Snapshot())
    }

    constructor (ctx: Context, w: World)
      requires Fits(ctx, w)
      ensures Valid() && Snapshot() == w && this.ctx == ctx
      ensures fresh(masks) && fresh(flags)
    {
      this.ctx := ctx;
      masks := new bv8[|w.masks|](i requires 0 <= i < |w.masks| => w.masks[i]);
      flags := new bool[|w.flags|](i requires 0 <= i < |w.flags| => w.flags[i]);
      syncedThreads := w.synced;
      refCount := w.refCount;
      lockDepth := w.lockDepth;
      calls := w.calls;
      new;
      assert masks[..] == w.masks;
      assert flags[..] == w.flags;
    }

    /* Collaborators: each records its call and has the effect `Perform` gives it. */

    method AddReference(p: ProcessId)
      requires Valid()
      modifies this
      ensures Valid() && Snapshot() == Perform(old(Snapshot()), AddRef(p))
    {
      refCount := refCount[p := Refs(Snapshot(), p) + 1];
      calls := calls + [AddRef(p)];
    }

    method DecrementReferenceCount(p: ProcessId)
      requires Valid()
      modifies this
      ensures Valid() && Snapshot() == Perform(old(Snapshot()), DecRef(p))
    {
      refCount := refCount[p := Refs(Snapshot(), p) - 1];
      calls := calls + [DecRef(p)];
    }

    method LockCriticalSection()
      requires Valid()
      modifies this
      ensures Valid() && Snapshot() == Perform(old(Snapshot()), Lock)
    {
      lockDepth := lockDepth + 1;
      calls := calls + [Lock];
    }

    method UnlockCriticalSection()
      requires Valid()
      modifies this
      ensures Valid() && Snapshot() == Perform(old(Snapshot()), Unlock)
    {
      lockDepth := lockDepth - 1;
      calls := calls + [Unlock];
    }

    method RegisterSyncWithThread(p: ProcessId, t: ThreadId)
      requires Valid() && t < |ctx.owner|
      modifies this
      ensures Valid() && Snapshot() == Perform(old(Snapshot()), Register(p, t))
    {
      syncedThreads := syncedThreads[p := Waiters(Snapshot(), p) + [t]];
      calls := calls + [Register(p, t)];
    }

    method UnRegisterSyncWithThread(p: ProcessId, t: ThreadId)
      requires Valid()
      modifies this
      ensures Valid() && Snapshot() == Perform(old(Snapshot()), UnRegister(p, t))
    {
      syncedThreads := syncedThreads[p := RemoveFirst(Waiters(Snapshot(), p), t)];
      calls := calls + [UnRegister(p, t)];
    }

    method AdjustThread(t: ThreadId, oldMask: bv8)
      requires Valid()
      modifies this
      ensures Valid() && Snapshot() == Perform(old(Snapshot()), Adjust(t, oldMask))
    {
      calls := calls + [Adjust(t, oldMask)];
    }

    method TriggerCrossCoreInterrupt()
      requires Valid()
      modifies this
      ensures Valid() && Snapshot() == Perform(old(Snapshot()), CrossCoreInterrupt)
    {
      calls := calls + [CrossCoreInterrupt];
    }

    method ToKProcess(h: Handle) returns (process: Option<ProcessId>)
      requires Valid()
      modifies this
      ensures Valid() && (process, Snapshot()) == LookUp(ctx, old(Snapshot()), h)
    {
      if h in ctx.handleTable {
        var p := ctx.handleTable[h];
        refCount := refCount[p := Refs(Snapshot(), p) + 1];
        process := Some(p);
      } else {
        process := None;
      }
    }

    /* The three walks of the system call. */

    /** The first pause walk over the global thread list; returns
        `currentThreadsFound`. */
    method PauseFirstPass(p: ProcessId) returns (found: bool)
      requires Valid()
      modifies this, masks
      ensures Valid()
      ensures (Snapshot(), found) == FirstPass(ctx, p, old(Snapshot()), ctx.threadList)
    {
      found := false;
      var i := 0;
      while i < |ctx.threadList|
        invariant 0 <= i <= |ctx.threadList| && Valid()
        invariant (Snapshot(), found) == FirstPass(ctx, p, old(Snapshot()), ctx.threadList[..i])
      {
        var t := ctx.threadList[i];
        ghost var before := (Snapshot(), found);
        if ctx.owner[t] != p || IsTerminated(masks[t]) {
        } else if t == ctx.running[ctx.coreOf[t]] {
          found := true;
        } else {
          var oldMask := masks[t];
          masks[t] := masks[t] & 0xF0;
          assert masks[..] == before.0.masks[t := Blocked(oldMask)];
          assert Snapshot() == before.0.(masks := before.0.masks[t := Blocked(oldMask)]);
          RegisterSyncWithThread(p, t);
          AdjustThread(t, oldMask);
        }
        assert (Snapshot(), found) == FirstPassStep(ctx, p, before, t);
        assert ctx.threadList[..i + 1][..i] == ctx.threadList[..i];
        i := i + 1;
      }
      assert ctx.threadList[..i] == ctx.threadList;
    }

    /** One iteration of the deferred pause walk. */
    method SecondPassVisit(p: ProcessId, t: ThreadId)
      requires Valid() && t < |ctx.owner|
      modifies this, masks, flags
      ensures Valid()
      ensures Snapshot() == SecondPassStep(ctx, p, old(Snapshot()), t)
    {
      if ctx.owner[t] == p {
        ghost var before := Snapshot();
        var oldMask := masks[t];
        masks[t] := masks[t] & 0xF0;
        assert masks[..] == before.masks[t := Blocked(oldMask)];
        assert Snapshot() == before.(masks := before.masks[t := Blocked(oldMask)]);
        RegisterSyncWithThread(p, t);
        AdjustThread(t, oldMask);
        LockCriticalSection();
        ghost var locked := Snapshot();
        var core := ctx.coreOf[t];
        if core != ctx.here {
          // interrupts masked on this core around the two writes
          flags[core] := true;
          flags[ctx.here] := true;
          assert flags[..] == locked.flags[core := true][ctx.here := true];
          assert Snapshot() == locked.(flags := locked.flags[core := true][ctx.here := true]);
        }
        UnlockCriticalSection();
      }
    }

    /** The deferred pause walk: every owned thread again, raising the
        cross-core flags of other cores and of this one. */
    method PauseSecondPass(p: ProcessId)
      requires Valid()
      modifies this, masks, flags
      ensures Valid()
      ensures Snapshot() == SecondPass(ctx, p, old(Snapshot()), ctx.threadList)
    {
      var i := 0;
      while i < |ctx.threadList|
        invariant 0 <= i <= |ctx.threadList| && Valid()
        invariant Snapshot() == SecondPass(ctx, p, old(Snapshot()), ctx.threadList[..i])
      {
        SecondPassVisit(p, ctx.threadList[i]);
        assert ctx.threadList[..i + 1][..i] == ctx.threadList[..i];
        i := i + 1;
      }
      assert ctx.threadList[..i] == ctx.threadList;
    }

    /** One iteration of the unpause walk. */
    method UnpauseVisit(p: ProcessId, t: ThreadId)
      requires Valid() && t < |ctx.owner|
      modifies this, masks
      ensures Valid()
      ensures Snapshot() == UnpauseStep(ctx, p, old(Snapshot()), t)
    {
      if ctx.owner[t] == p && !IsTerminated(masks[t]) {
        UnRegisterSyncWithThread(p, t);
        ghost var unlinked := Snapshot();
        var oldMask := masks[t];
        masks[t] := (masks[t] & 0xF0) | 1;
        assert masks[..] == unlinked.masks[t := Readied(oldMask)];
        assert Snapshot() == unlinked.(masks := unlinked.masks[t := Readied(oldMask)]);
        AdjustThread(t, oldMask);
      }
    }

    /** The unpause walk: every waiter node before the list's last one. */
    method UnpauseWaiters(p: ProcessId)
      requires Valid()
      modifies this, masks
      ensures Valid()
      ensures Snapshot() == Unpause(ctx, p, old(Snapshot()))
    {
      var waiters := if p in syncedThreads then syncedThreads[p] else [];
      var nodes := Visited(waiters);
      assert forall j :: 0 <= j < |nodes| ==> nodes[j] == waiters[j] && waiters[j] in waiters;
      var i := 0;
      while i < |nodes|
        invariant 0 <= i <= |nodes| && Valid()
        invariant Snapshot() == UnpauseWalk(ctx, p, old(Snapshot()), nodes[..i])
      {
        UnpauseVisit(p, nodes[i]);
        assert nodes[..i + 1][..i] == nodes[..i];
        i := i + 1;
      }
      assert nodes[..i] == nodes;
    }

    /** The system call: resolve the handle, pause or unpause every thread of
        the process, release the reference. */
    method PauseUnpauseProcess(h: Handle, pause: bool) returns (result: bv32)
      requires Valid()
      modifies this, masks, flags
      ensures Valid()
      ensures (Snapshot(), result) == Outcome(ctx, old(Snapshot()), h, pause)
    {
      var process: Option<ProcessId>;
      if h == CUR_PROCESS_HANDLE {
        process := Some(ctx.currentProcess);
        AddReference(ctx.currentProcess);
      } else {
        process := ToKProcess(h);
      }
      if process.None? {
        return ERR_INVALID_HANDLE;
      }
      var p := process.value;
      if pause {
        LockCriticalSection();
        var found := PauseFirstPass(p);
        if found {
          PauseSecondPass(p);
          TriggerCrossCoreInterrupt();
        }
        UnlockCriticalSection();
      } else {
        UnpauseWaiters(p);
      }
      DecrementReferenceCount(p);
      return SUCCESS;
    }
  }
}
