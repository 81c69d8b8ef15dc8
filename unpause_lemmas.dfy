/** What the unpause walk, and the unpause branch as a whole, do to every
    thread, to the process's waiter list and to the call log. */
module UnpauseProofs {
  import opened SchedulingMask
  import opened KernelState
  import opened PauseUnpauseSpec

  /** A visit to a node holding `t` releases it: the thread belongs to the
      process and is not terminated. */
  predicate Releases(ctx: Context, p: ProcessId, m: seq<bv8>, t: ThreadId) {
    OwnedBy(ctx, p, t) && Live(m, t)
  }

  /** The nodes of `nodes` a visit leaves in the waiter list, in order. */
  function KeptInOrder(ctx: Context, p: ProcessId, m: seq<bv8>, nodes: seq<ThreadId>): (r: seq<ThreadId>)
    ensures forall t :: t in r ==> t in nodes && !Releases(ctx, p, m, t)
    decreases |nodes|
  {
    if nodes == [] then []
    else
      var init := nodes[..|nodes| - 1];
      var t := nodes[|nodes| - 1];
      assert forall u :: u in init ==> u in nodes;
      KeptInOrder(ctx, p, m, init) + (if Releases(ctx, p, m, t) then [] else [t])
  }

  /** How many more times the unpause walk over `nodes` issues call `c`: one
      unregistration per node of a released thread, and one `AdjustThread`
      per such node, carrying the original mask on the first visit and the
      readied mask on any later one. */
  function UnpauseCount(ctx: Context, p: ProcessId, m: seq<bv8>, nodes: seq<ThreadId>, c: Call): nat {
    match c
    case UnRegister(q, t) => if q == p && Releases(ctx, p, m, t) then multiset(nodes)[t] else 0
    case Adjust(t, x) =>
      var visits := multiset(nodes)[t];
      if Releases(ctx, p, m, t) && visits > 0 then
        (if x == m[t] then 1 else 0) + (if x == Readied(m[t]) then visits - 1 else 0)
      else 0
    case _ => 0
  }

  lemma PrefixInRange(ctx: Context, nodes: seq<ThreadId>)
    requires nodes != [] && InRange(ctx, nodes)
    ensures InRange(ctx, nodes[..|nodes| - 1]) && nodes[|nodes| - 1] < |ctx.owner|
    ensures nodes == nodes[..|nodes| - 1] + [nodes[|nodes| - 1]]
  {
  }

  /** One visit of the walk, field by field. */
  lemma UnpauseStepShape(ctx: Context, p: ProcessId, w: World, t: ThreadId)
    requires Fits(ctx, w) && t < |ctx.owner|
    ensures var r := UnpauseStep(ctx, p, w, t); var m := w.masks;
      && r.masks == (if Releases(ctx, p, m, t) then m[t := Readied(m[t])] else m)
      && r.calls == w.calls + (if Releases(ctx, p, m, t) then [UnRegister(p, t), Adjust(t, m[t])] else [])
      && Waiters(r, p) == (if Releases(ctx, p, m, t) then RemoveFirst(Waiters(w, p), t) else Waiters(w, p))
      && r.flags == w.flags && r.refCount == w.refCount && r.lockDepth == w.lockDepth
      && (forall q :: q != p ==> Waiters(r, q) == Waiters(w, q))
  {
  }

  /** Unpause walk: every thread with a visited node that it releases is
      readied, keeping its suspend class, however many of its nodes are
      visited; every other thread keeps its mask; flags, reference counts,
      the lock depth and other processes' waiter lists are untouched. */
  lemma {:induction false} UnpauseWalkEffect(ctx: Context, p: ProcessId, w: World, nodes: seq<ThreadId>)
    requires Fits(ctx, w) && InRange(ctx, nodes)
    ensures var r := UnpauseWalk(ctx, p, w, nodes);
      && (forall t :: 0 <= t < |w.masks| ==>
            r.masks[t] == if t in nodes && Releases(ctx, p, w.masks, t) then Readied(w.masks[t]) else w.masks[t])
      && r.flags == w.flags && r.refCount == w.refCount && r.lockDepth == w.lockDepth
      && (forall q :: q != p ==> Waiters(r, q) == Waiters(w, q))
    decreases |nodes|
  {
    if nodes != [] {
      PrefixInRange(ctx, nodes);
      var init, t := nodes[..|nodes| - 1], nodes[|nodes| - 1];
      UnpauseWalkEffect(ctx, p, w, init);
      var r0 := UnpauseWalk(ctx, p, w, init);
      assert Releases(ctx, p, r0.masks, t) == Releases(ctx, p, w.masks, t);
      TransitionsSettle(w.masks[t]);
      UnpauseStepShape(ctx, p, r0, t);
    }
  }

  /** One visit unlinks exactly the node it stands on, when the nodes
      before it hold no other copy of a released thread. */
  lemma UnpauseStepWaiters(ctx: Context, p: ProcessId, w: World, kept: seq<ThreadId>, t: ThreadId, rest: seq<ThreadId>)
    requires Fits(ctx, w) && t < |ctx.owner| && Waiters(w, p) == kept + [t] + rest
    requires Releases(ctx, p, w.masks, t) ==> t !in kept
    ensures Waiters(UnpauseStep(ctx, p, w, t), p)
      == (if Releases(ctx, p, w.masks, t) then kept else kept + [t]) + rest
  {
    UnpauseStepShape(ctx, p, w, t);
    if Releases(ctx, p, w.masks, t) {
      RemoveFirstAfter(kept, t, rest);
    }
  }

  /** The walk over `nodes`, the front of the waiter list, leaves the kept
      nodes among them followed by the nodes not yet reached, `rest`. */
  lemma {:induction false} UnpauseWalkWaiters(ctx: Context, p: ProcessId, w: World, nodes: seq<ThreadId>, rest: seq<ThreadId>)
    requires Fits(ctx, w) && InRange(ctx, nodes) && Waiters(w, p) == nodes + rest
    ensures Waiters(UnpauseWalk(ctx, p, w, nodes), p) == KeptInOrder(ctx, p, w.masks, nodes) + rest
    decreases |nodes|
  {
    if nodes == [] {
      assert nodes + rest == rest;
    } else {
      PrefixInRange(ctx, nodes);
      var init, t := nodes[..|nodes| - 1], nodes[|nodes| - 1];
      assert nodes + rest == init + ([t] + rest);
      UnpauseWalkWaiters(ctx, p, w, init, [t] + rest);
      UnpauseWalkEffect(ctx, p, w, init);
      var r0 := UnpauseWalk(ctx, p, w, init);
      var kept := KeptInOrder(ctx, p, w.masks, init);
      assert Waiters(r0, p) == kept + [t] + rest;
      assert Releases(ctx, p, r0.masks, t) == Releases(ctx, p, w.masks, t);
      UnpauseStepWaiters(ctx, p, r0, kept, t, rest);
    }
  }

  /** The calls one visit adds, given the masks before the walk and the
      nodes already visited. */
  function UnpauseChunk(ctx: Context, p: ProcessId, m: seq<bv8>, before: seq<ThreadId>, t: ThreadId): seq<Call>
    requires t < |m|
  {
    if Releases(ctx, p, m, t) then [UnRegister(p, t), Adjust(t, if t in before then Readied(m[t]) else m[t])]
    else []
  }

  lemma UnpauseCountStep(ctx: Context, p: ProcessId, m: seq<bv8>, nodes: seq<ThreadId>, c: Call)
    requires nodes != [] && nodes[|nodes| - 1] < |m|
    ensures var init, t := nodes[..|nodes| - 1], nodes[|nodes| - 1];
      UnpauseCount(ctx, p, m, nodes, c) == UnpauseCount(ctx, p, m, init, c) + multiset(UnpauseChunk(ctx, p, m, init, t))[c]
  {
    var init, t := nodes[..|nodes| - 1], nodes[|nodes| - 1];
    assert nodes == init + [t];
    assert multiset(nodes) == multiset(init) + multiset{t};
    assert t in init <==> multiset(init)[t] > 0;
  }

  /** Unpause walk: per visited node of a released thread one unregistration
      and one `AdjustThread`, and no other call (in particular no lock). */
  lemma {:induction false} UnpauseWalkLog(ctx: Context, p: ProcessId, w: World, nodes: seq<ThreadId>)
    requires Fits(ctx, w) && InRange(ctx, nodes)
    ensures var r := UnpauseWalk(ctx, p, w, nodes);
      forall c :: multiset(r.calls)[c] == multiset(w.calls)[c] + UnpauseCount(ctx, p, w.masks, nodes, c)
    decreases |nodes|
  {
    if nodes != [] {
      PrefixInRange(ctx, nodes);
      var init, t := nodes[..|nodes| - 1], nodes[|nodes| - 1];
      UnpauseWalkLog(ctx, p, w, init);
      UnpauseWalkEffect(ctx, p, w, init);
      var r0 := UnpauseWalk(ctx, p, w, init);
      assert Releases(ctx, p, r0.masks, t) == Releases(ctx, p, w.masks, t);
      UnpauseStepShape(ctx, p, r0, t);
      var r := UnpauseWalk(ctx, p, w, nodes);
      assert r.calls == r0.calls + UnpauseChunk(ctx, p, w.masks, init, t);
      forall c ensures multiset(r.calls)[c] == multiset(w.calls)[c] + UnpauseCount(ctx, p, w.masks, nodes, c) {
        UnpauseCountStep(ctx, p, w.masks, nodes, c);
      }
    }
  }

  lemma VisitedInRange(ctx: Context, w: World, p: ProcessId)
    requires Fits(ctx, w)
    ensures var L := Waiters(w, p);
      && InRange(ctx, L) && InRange(ctx, Visited(L))
      && (L != [] ==> Visited(L) == L[..|L| - 1] && L[|L| - 1..] == [L[|L| - 1]])
  {
    var L := Waiters(w, p);
    assert forall i :: 0 <= i < |L| ==> L[i] in L;
  }

  /** The mask of each thread after the unpause branch: readied when one of
      its nodes before the waiter list's last is visited and it is a live
      thread of the process; otherwise unchanged. */
  lemma UnpauseMask(ctx: Context, p: ProcessId, w: World, t: ThreadId)
    requires Fits(ctx, w) && t < |w.masks|
    ensures Unpause(ctx, p, w).masks[t]
      == if t in Visited(Waiters(w, p)) && Releases(ctx, p, w.masks, t) then Readied(w.masks[t]) else w.masks[t]
  {
    VisitedInRange(ctx, w, p);
    UnpauseWalkEffect(ctx, p, w, Visited(Waiters(w, p)));
  }

  /** The process's waiter list after the unpause branch: the nodes the walk
      kept, then the last node, which the walk never visits. */
  lemma UnpauseWaiters(ctx: Context, p: ProcessId, w: World)
    requires Fits(ctx, w)
    ensures var L := Waiters(w, p);
      Waiters(Unpause(ctx, p, w), p)
        == if L == [] then [] else KeptInOrder(ctx, p, w.masks, Visited(L)) + [L[|L| - 1]]
  {
    var L := Waiters(w, p);
    VisitedInRange(ctx, w, p);
    if L != [] {
      UnpauseWalkWaiters(ctx, p, w, Visited(L), [L[|L| - 1]]);
    }
  }

  /** The unpause branch takes no lock, raises no flag, and leaves reference
      counts and other processes' waiter lists as it found them. */
  lemma UnpauseKeepsOthers(ctx: Context, p: ProcessId, w: World)
    requires Fits(ctx, w)
    ensures var r := Unpause(ctx, p, w);
      && r.flags == w.flags && r.refCount == w.refCount && r.lockDepth == w.lockDepth
      && (forall q :: q != p ==> Waiters(r, q) == Waiters(w, q))
      && multiset(r.calls)[Lock] == multiset(w.calls)[Lock]
      && multiset(r.calls)[Unlock] == multiset(w.calls)[Unlock]
  {
    VisitedInRange(ctx, w, p);
    UnpauseWalkEffect(ctx, p, w, Visited(Waiters(w, p)));
    UnpauseWalkLog(ctx, p, w, Visited(Waiters(w, p)));
  }

  /** The calls of the unpause branch, counted over the visited nodes. */
  lemma UnpauseLog(ctx: Context, p: ProcessId, w: World, c: Call)
    requires Fits(ctx, w)
    ensures multiset(Unpause(ctx, p, w).calls)[c]
      == multiset(w.calls)[c] + UnpauseCount(ctx, p, w.masks, Visited(Waiters(w, p)), c)
  {
    VisitedInRange(ctx, w, p);
    UnpauseWalkLog(ctx, p, w, Visited(Waiters(w, p)));
  }

  /** The walk stops before the waiter list's last node: a thread held only
      by that node keeps its mask and stays a waiter, even when it is a live
      thread of the process. */
  lemma UnpauseSkipsLastWaiter(ctx: Context, p: ProcessId, w: World)
    requires Fits(ctx, w) && Waiters(w, p) != []
    requires var L := Waiters(w, p); L[|L| - 1] !in Visited(L)
    ensures var L := Waiters(w, p); var t := L[|L| - 1]; var r := Unpause(ctx, p, w);
      t < |w.masks| && r.masks[t] == w.masks[t] && t in Waiters(r, p)
  {
    var L := Waiters(w, p);
    VisitedInRange(ctx, w, p);
    UnpauseMask(ctx, p, w, L[|L| - 1]);
    UnpauseWaiters(ctx, p, w);
  }
}
