/** The kernel bookkeeping that `PauseUnpauseProcess` reads and writes, and the
    effect of each collaborator it calls. */
module KernelState {
  import opened SchedulingMask

  type ThreadId = nat
  type ProcessId = nat
  type CoreId = nat
  type Handle = bv32

  /** Pseudo-handle naming the calling process. */
  const CUR_PROCESS_HANDLE: Handle := 0xFFFF8001
  /** Result code for a handle that does not name a process. */
  const ERR_INVALID_HANDLE: bv32 := 0xD8E007F7
  const SUCCESS: bv32 := 0

  datatype Option<T> = None | Some(value: T)

  /** A call into a collaborator whose code is not part of this model. */
  datatype Call =
    | AddRef(process: ProcessId)                      // KAutoObject__AddReference
    | DecRef(process: ProcessId)                      // vtable->DecrementReferenceCount
    | Lock                                            // KRecursiveLock__Lock(criticalSectionLock)
    | Unlock                                          // KRecursiveLock__Unlock(criticalSectionLock)
    | Register(process: ProcessId, thread: ThreadId)  // KSynchronizationObject__RegisterSyncWithThread
    | UnRegister(process: ProcessId, thread: ThreadId) // KSynchronizationObject__UnRegisterSyncWithThread
    | Adjust(thread: ThreadId, oldMask: bv8)          // KScheduler__AdjustThread
    | CrossCoreInterrupt                              // KScheduler__TriggerCrossCoreInterrupt

  predicate Distinct<T(==)>(s: seq<T>) {
    forall i, j :: 0 <= i < j < |s| ==> s[i] != s[j]
  }

  /** What the call reads but never writes. */
  datatype Context = Context(
    owner: seq<ProcessId>,               // ownerProcess of each thread
    coreOf: seq<CoreId>,                 // coreId of each thread
    running: seq<ThreadId>,              // objectContext.currentThread of each core
    here: CoreId,                        // the core executing the call
    currentProcess: ProcessId,           // objectContext.currentProcess of that core
    handleTable: map<Handle, ProcessId>, // handle table of the current process
    threadList: seq<ThreadId>)           // the global thread list, in list order
  {
    predicate Valid() {
      && |owner| == |coreOf|
      && here < |running|
      && (forall t :: 0 <= t < |coreOf| ==> coreOf[t] < |running|)
      && (forall i :: 0 <= i < |threadList| ==> threadList[i] < |owner|)
      && Distinct(threadList)
    }
  }

  /** What the call may change. */
  datatype World = World(
    masks: seq<bv8>,                       // schedulingMask of each thread
    flags: seq<bool>,                      // triggerCrossCoreInterrupt of each core's scheduler
    synced: map<ProcessId, seq<ThreadId>>, // syncedThreads of each process, in list order
    refCount: map<ProcessId, int>,         // reference count of each process
    lockDepth: int,                        // acquisition depth of criticalSectionLock
    calls: seq<Call>)                      // collaborator calls issued so far, oldest first

  function Waiters(w: World, p: ProcessId): seq<ThreadId> {
    if p in w.synced then w.synced[p] else []
  }

  function Refs(w: World, p: ProcessId): int {
    if p in w.refCount then w.refCount[p] else 0
  }

  /** One more reference held on `p`. */
  function Retain(w: World, p: ProcessId): (r: World)
    ensures Refs(r, p) == Refs(w, p) + 1
    ensures forall q :: q != p ==> Refs(r, q) == Refs(w, q)
  {
    w.(refCount := w.refCount[p := Refs(w, p) + 1])
  }

  /** Unlinks the first node holding `t`; a list without `t` comes back unchanged. */
  function RemoveFirst(s: seq<ThreadId>, t: ThreadId): (r: seq<ThreadId>)
    ensures t in s ==> multiset(r) == multiset(s) - multiset{t}
    ensures t !in s ==> r == s
    ensures forall x :: x in r ==> x in s
  {
    if s == [] then []
    else
      assert s == [s[0]] + s[1..];
      if s[0] == t then s[1..]
      else [s[0]] + RemoveFirst(s[1..], t)
  }

  /** Removing `t` from a list whose first `t` follows the prefix `a` takes
      out exactly that node. */
  lemma {:induction false} RemoveFirstAfter(a: seq<ThreadId>, t: ThreadId, b: seq<ThreadId>)
    requires t !in a
    ensures RemoveFirst(a + [t] + b, t) == a + b
  {
    var s := a + [t] + b;
    if a == [] {
      assert s[0] == t && s[1..] == b;
    } else {
      assert s[0] == a[0] != t;
      assert s[1..] == a[1..] + [t] + b;
      RemoveFirstAfter(a[1..], t, b);
      assert RemoveFirst(s, t) == [a[0]] + (a[1..] + b);
      assert [a[0]] + (a[1..] + b) == a + b;
    }
  }

  /** The call `c` issued in world `w`: it is logged and has its effect on the
      reference counts, the lock depth or the waiter lists. Scheduler calls
      are only logged. */
  function Perform(w: World, c: Call): (r: World)
    ensures r.masks == w.masks && r.flags == w.flags
    ensures r.calls == w.calls + [c]
    ensures !c.Register? && !c.UnRegister? ==> r.synced == w.synced
    ensures !c.AddRef? && !c.DecRef? ==> r.refCount == w.refCount
    ensures !c.Lock? && !c.Unlock? ==> r.lockDepth == w.lockDepth
  {
    var logged := w.(calls := w.calls + [c]);
    match c
    case AddRef(p) => logged.(refCount := w.refCount[p := Refs(w, p) + 1])
    case DecRef(p) => logged.(refCount := w.refCount[p := Refs(w, p) - 1])
    case Lock => logged.(lockDepth := w.lockDepth + 1)
    case Unlock => logged.(lockDepth := w.lockDepth - 1)
    case Register(p, t) => logged.(synced := w.synced[p := Waiters(w, p) + [t]])
    case UnRegister(p, t) => logged.(synced := w.synced[p := RemoveFirst(Waiters(w, p), t)])
    case Adjust(_, _) => logged
    case CrossCoreInterrupt => logged
  }

  /** Every per-thread and per-core sequence has the size the context says,
      and every waiter list names known threads. */
  predicate Fits(ctx: Context, w: World) {
    && ctx.Valid()
    && |w.masks| == |ctx.owner|
    && |w.flags| == |ctx.running|
    && forall q, t :: q in w.synced && t in w.synced[q] ==> t < |ctx.owner|
  }

  /** Thread `t` belongs to process `p`. */
  predicate OwnedBy(ctx: Context, p: ProcessId, t: ThreadId) {
    t < |ctx.owner| && ctx.owner[t] == p
  }

  /** Thread `t` is not terminated under masks `m`. */
  predicate Live(m: seq<bv8>, t: ThreadId) {
    t < |m| && !IsTerminated(m[t])
  }

  /** Thread `t` is the current thread of its own core. */
  predicate IsRunning(ctx: Context, t: ThreadId) {
    t < |ctx.coreOf| && ctx.coreOf[t] < |ctx.running| && ctx.running[ctx.coreOf[t]] == t
  }
}
