// The shape of a plan: which row belongs to which process, and where in the
// workload pool its CPUs were carved.
module PlanFacts {
  import opened GoStrings
  import opened IntLists
  import opened Topology
  import opened Profile
  import opened Planner

  // ---------- Rows ----------

  // The free window before the i-th process.
  ghost function WindowAt(p: PerformanceProfile, flat: seq<FlatProcess>, i: nat): (w: Window)
    requires Carve(p, flat).Ok? && i <= |flat|
    ensures w.lo <= w.hi <= |WorkloadPool(p)|
    ensures Carve(p, flat[..i]) == Ok(w)
  {
    CarvePrefix(p, flat, i);
    Carve(p, flat[..i]).value
  }

  lemma {:induction false} CarvePrefix(p: PerformanceProfile, flat: seq<FlatProcess>, i: nat)
    requires Carve(p, flat).Ok? && i <= |flat|
    ensures Carve(p, flat[..i]).Ok?
    decreases |flat| - i
  {
    if Carve(p, flat[..i]).Err? {
      CarveErrorStays(p, flat, i);
    }
  }

  lemma WindowStep(p: PerformanceProfile, flat: seq<FlatProcess>, i: nat)
    requires Carve(p, flat).Ok? && i < |flat|
    ensures NextWindow(WindowAt(p, flat, i), DemandOf(p, flat[i]), flat[i].component) == Ok(WindowAt(p, flat, i + 1))
  {
    assert flat[..i + 1][..i] == flat[..i];
  }

  // Windows only shrink.
  lemma {:induction false} WindowsNest(p: PerformanceProfile, flat: seq<FlatProcess>, i: nat, j: nat)
    requires Carve(p, flat).Ok? && i <= j <= |flat|
    ensures WindowAt(p, flat, i).lo <= WindowAt(p, flat, j).lo
    ensures WindowAt(p, flat, j).hi <= WindowAt(p, flat, i).hi
    decreases j
  {
    hide Carve, WorkloadPool, DemandOf, NextWindow;
    if i < j {
      WindowsNest(p, flat, i, j - 1);
      WindowStep(p, flat, j - 1);
    }
  }

  // A tail demand moves the window's end, a front demand its start, and no
  // other demand moves it.
  lemma WindowMoves(p: PerformanceProfile, flat: seq<FlatProcess>, i: nat)
    requires Carve(p, flat).Ok? && i < |flat|
    ensures var now, next := WindowAt(p, flat, i), WindowAt(p, flat, i + 1);
            && now.lo <= next.lo <= next.hi <= now.hi
            && (!DemandOf(p, flat[i]).Tail? ==> next.hi == now.hi)
            && (!DemandOf(p, flat[i]).Front? ==> next.lo == now.lo)
  {
    hide Carve, WorkloadPool, DemandOf;
    WindowStep(p, flat, i);
  }

  // The i-th row is the i-th process's, carved from the i-th window.
  lemma {:induction false} WorkerAt(p: PerformanceProfile, flat: seq<FlatProcess>, i: nat)
    requires Carve(p, flat).Ok? && i < |flat|
    ensures Workers(p, flat)[i] == WorkerAssignment(p, flat[i], WindowAt(p, flat, i))
  {
    hide WorkerAssignment, NextWindow, WorkloadPool;
    var n := |flat| - 1;
    var front := flat[..n];
    if i < n {
      assert front[..i] == flat[..i];
      WorkerAt(p, front, i);
    }
  }

  lemma PlanShape(p: PerformanceProfile, flat: seq<FlatProcess>, plan: Plan)
    requires PlanOf(p, flat) == Ok(plan)
    ensures Valid(p) && RegionsFit(p) && Carve(p, flat).Ok?
    ensures plan.reserved == ReservedPool(p) && plan.isolated == IsolatedPool(p) && plan.workloadCPUs == WorkloadPool(p)
    ensures VictimCPUs(p, Others(p, flat)) == Some(plan.victimCPUs)
    ensures plan.assignments == Others(p, flat) + [VictimAssignment(p, plan.victimCPUs)]
    ensures |plan.assignments| == |flat| + 2
    ensures ExclusivesApart(plan.assignments)
  {
    hide Valid, RegionsFit, VictimCPUs, VictimAssignment, ExclusivesApart, ReservedPool, IsolatedPool, WorkloadPool,
      Carve;
  }

  // Row by row: the processes in order, the observer, the victim.
  lemma PlanRows(p: PerformanceProfile, flat: seq<FlatProcess>, plan: Plan)
    requires PlanOf(p, flat) == Ok(plan)
    ensures Carve(p, flat).Ok? && |plan.assignments| == |flat| + 2
    ensures forall i | 0 <= i < |flat| :: plan.assignments[i] == WorkerAssignment(p, flat[i], WindowAt(p, flat, i))
    ensures plan.assignments[|flat|] == ObserverAssignment(p)
    ensures plan.assignments[|flat| + 1] == VictimAssignment(p, plan.victimCPUs)
  {
    PlanShape(p, flat, plan);
    hide PlanOf, VictimAssignment, ExclusivesApart, WorkerAssignment, Carve;
    forall i | 0 <= i < |flat|
      ensures plan.assignments[i] == WorkerAssignment(p, flat[i], WindowAt(p, flat, i))
    {
      WorkerAt(p, flat, i);
    }
  }

  // ---------- Pools ----------

  lemma ValidPools(p: PerformanceProfile)
    requires Valid(p)
    ensures |ReservedPool(p)| > 0 && |IsolatedPool(p)| > 0
    ensures Disjoint(ReservedPool(p), IsolatedPool(p))
  {
    hide ReservedPool, IsolatedPool, Disjoint;
    assert !HasFault(p, NoReserved) && !HasFault(p, NoIsolated) && !HasFault(p, PoolsOverlap);
  }

  // The workload pool is isolated minus all fixed regions.
  lemma InWorkload(p: PerformanceProfile, c: int)
    ensures c in Elems(WorkloadPool(p)) <==> c in Elems(IsolatedPool(p)) && !InRegion(p, p.componentMap.Keys, c)
  {
    hide InRegion, IsolatedPool;
  }

  // A fixed region lies in the isolated pool and outside the workload pool.
  lemma RegionOutsideWorkload(p: PerformanceProfile, n: string)
    requires RegionsFit(p) && IsFixed(p, n)
    ensures Inside(OverrideOf(p, n), IsolatedPool(p))
    ensures Disjoint(OverrideOf(p, n), WorkloadPool(p))
  {
    hide IsolatedPool, OverrideOf;
    forall c | c in Elems(OverrideOf(p, n))
      ensures c !in Elems(WorkloadPool(p))
    {
      InWorkload(p, c);
      assert n in p.componentMap.Keys;
    }
  }

  lemma WorkloadInside(p: PerformanceProfile)
    ensures Inside(WorkloadPool(p), IsolatedPool(p))
    ensures Canonical(WorkloadPool(p))
  {
    hide InRegion, IsolatedPool;
    forall c | c in Elems(WorkloadPool(p))
      ensures c in Elems(IsolatedPool(p))
    {
      InWorkload(p, c);
    }
  }

  lemma SliceInside(l: seq<int>, a: nat, b: nat)
    requires a <= b <= |l|
    ensures Inside(l[a..b], l)
    ensures Canonical(l) ==> Canonical(l[a..b])
  {
    assert forall c <- l[a..b] :: c in l;
  }

  lemma SlicesApart(l: seq<int>, a: nat, b: nat, c: nat, d: nat)
    requires Canonical(l) && a <= b <= |l| && c <= d <= |l|
    requires b <= c || d <= a
    ensures Disjoint(l[a..b], l[c..d])
  {
    forall x | x in Elems(l[a..b])
      ensures x !in Elems(l[c..d])
    {
      var i :| 0 <= i < b - a && l[a..b][i] == x;
      assert l[a + i] == x;
      forall k | 0 <= k < d - c
        ensures l[c..d][k] != x
      {
        assert l[c..d][k] == l[c + k];
      }
    }
  }

  // Two lists with a CPU in common are not disjoint.
  lemma Meet(a: seq<int>, b: seq<int>, c: int)
    requires c in Elems(a) && c in Elems(b)
    ensures !Disjoint(a, b)
  {
  }

  lemma SubsetDisjoint(a: seq<int>, pool: seq<int>, b: seq<int>)
    requires Inside(a, pool) && Disjoint(pool, b)
    ensures Disjoint(a, b) && Disjoint(b, a)
  {
    DisjointSymmetric(a, b);
  }

  // ---------- Where carved CPUs lie ----------

  predicate IsCarved(d: Demand) {
    d.Tail? || d.Front?
  }

  // A process that found the window empty and fell back to the whole pool.
  ghost predicate FellBack(p: PerformanceProfile, flat: seq<FlatProcess>, i: nat)
    requires Carve(p, flat).Ok? && i < |flat|
  {
    DemandOf(p, flat[i]).Front? && WindowAt(p, flat, i).Free() == 0
  }

  // Where in the workload pool the i-th process's slice lies.
  ghost function Bounds(p: PerformanceProfile, flat: seq<FlatProcess>, i: nat): (r: (nat, nat))
    requires Carve(p, flat).Ok? && i < |flat|
    ensures r.0 <= r.1 <= |WorkloadPool(p)|
  {
    WindowMoves(p, flat, i);
    var now, next := WindowAt(p, flat, i), WindowAt(p, flat, i + 1);
    if DemandOf(p, flat[i]).Tail? then (next.hi, now.hi) else (now.lo, next.lo)
  }

  // The slice a process took: what its window lost.
  ghost function Slice(p: PerformanceProfile, flat: seq<FlatProcess>, i: nat): seq<int>
    requires Carve(p, flat).Ok? && i < |flat|
  {
    WorkloadPool(p)[Bounds(p, flat, i).0..Bounds(p, flat, i).1]
  }

  // A carved process that did not fall back runs on exactly its slice, which
  // has the width it asked for unless the front ran out.
  lemma CarvedCPUs(p: PerformanceProfile, flat: seq<FlatProcess>, i: nat)
    requires Carve(p, flat).Ok? && i < |flat| && IsCarved(DemandOf(p, flat[i])) && !FellBack(p, flat, i)
    ensures CPUsFor(p, flat[i].component, DemandOf(p, flat[i]), WindowAt(p, flat, i)) == Slice(p, flat, i)
    ensures var asked := if flat[i].idealThreads <= 0 then 1 else flat[i].idealThreads;
            && 0 < |Slice(p, flat, i)| <= asked
            && (DemandOf(p, flat[i]).Tail? || asked <= WindowAt(p, flat, i).Free() ==> |Slice(p, flat, i)| == asked)
  {
    hide WorkloadPool, TuningOf, ClassOf, Carve, CPUsFor, NextWindow;
    WindowStep(p, flat, i);
    CarvedFrom(p, flat[i].component, DemandOf(p, flat[i]), WindowAt(p, flat, i), WindowAt(p, flat, i + 1));
  }

  lemma CarvedFrom(p: PerformanceProfile, component: string, d: Demand, now: Window, next: Window)
    requires now.lo <= now.hi <= |WorkloadPool(p)| && NextWindow(now, d, component) == Ok(next)
    ensures d.Tail? ==>
              CPUsFor(p, component, d, now) == WorkloadPool(p)[next.hi..now.hi] && now.hi - next.hi == d.width
    ensures d.Front? && now.Free() > 0 ==>
              CPUsFor(p, component, d, now) == WorkloadPool(p)[now.lo..next.lo]
              && next.lo - now.lo == if now.Free() < d.width then now.Free() else d.width
  {
    hide WorkloadPool;
  }

  lemma BoundsApart(p: PerformanceProfile, flat: seq<FlatProcess>, i: nat, j: nat)
    requires Carve(p, flat).Ok? && i < j < |flat|
    ensures Bounds(p, flat, i).1 <= Bounds(p, flat, j).0 || Bounds(p, flat, j).1 <= Bounds(p, flat, i).0
  {
    hide Carve, WorkloadPool, DemandOf;
    WindowMoves(p, flat, i);
    WindowsNest(p, flat, i + 1, j);
    WindowMoves(p, flat, j);
  }

  // Slices of different processes share no CPU.
  lemma SlicesOfProcesses(p: PerformanceProfile, flat: seq<FlatProcess>, i: nat, j: nat)
    requires Carve(p, flat).Ok? && i < j < |flat|
    ensures Disjoint(Slice(p, flat, i), Slice(p, flat, j)) && Disjoint(Slice(p, flat, j), Slice(p, flat, i))
  {
    hide Carve, WorkloadPool, Bounds, Disjoint;
    WorkloadInside(p);
    BoundsApart(p, flat, i, j);
    var a, b := Bounds(p, flat, i), Bounds(p, flat, j);
    SlicesApart(WorkloadPool(p), a.0, a.1, b.0, b.1);
    SlicesApart(WorkloadPool(p), b.0, b.1, a.0, a.1);
  }

  // ---------- Conservation ----------

  // The front slices in process order.
  ghost function FrontCarved(p: PerformanceProfile, flat: seq<FlatProcess>, n: nat): seq<int>
    requires Carve(p, flat).Ok? && n <= |flat|
  {
    if n == 0 then []
    else FrontCarved(p, flat, n - 1) + if DemandOf(p, flat[n - 1]).Front? then Slice(p, flat, n - 1) else []
  }

  // The tail slices, the latest first.
  ghost function TailCarved(p: PerformanceProfile, flat: seq<FlatProcess>, n: nat): seq<int>
    requires Carve(p, flat).Ok? && n <= |flat|
  {
    if n == 0 then []
    else (if DemandOf(p, flat[n - 1]).Tail? then Slice(p, flat, n - 1) else []) + TailCarved(p, flat, n - 1)
  }

  // Before every process: the front slices, the free window and the tail
  // slices, in this order, are the workload pool.
  lemma Conservation(p: PerformanceProfile, flat: seq<FlatProcess>, n: nat)
    requires Carve(p, flat).Ok? && n <= |flat|
    ensures var w := WindowAt(p, flat, n);
            && WorkloadPool(p) == FrontCarved(p, flat, n) + WorkloadPool(p)[w.lo..w.hi] + TailCarved(p, flat, n)
            && |FrontCarved(p, flat, n)| + w.Free() + |TailCarved(p, flat, n)| == |WorkloadPool(p)|
  {
    hide WorkloadPool, WindowAt, FrontCarved, TailCarved;
    CarvedEnds(p, flat, n);
  }

  lemma {:induction false} CarvedEnds(p: PerformanceProfile, flat: seq<FlatProcess>, n: nat)
    requires Carve(p, flat).Ok? && n <= |flat|
    ensures FrontCarved(p, flat, n) == WorkloadPool(p)[..WindowAt(p, flat, n).lo]
    ensures TailCarved(p, flat, n) == WorkloadPool(p)[WindowAt(p, flat, n).hi..]
  {
    hide Carve, WorkloadPool, DemandOf, WindowAt;
    if n > 0 {
      CarvedEnds(p, flat, n - 1);
      WindowMoves(p, flat, n - 1);
      JoinSlices(WorkloadPool(p), WindowAt(p, flat, n - 1), WindowAt(p, flat, n));
    } else {
      FirstWindow(p, flat);
    }
  }

  lemma FirstWindow(p: PerformanceProfile, flat: seq<FlatProcess>)
    requires Carve(p, flat).Ok?
    ensures WindowAt(p, flat, 0) == Window(0, |WorkloadPool(p)|)
  {
    hide WorkloadPool;
    assert flat[..0] == [];
  }

  lemma JoinSlices(pool: seq<int>, now: Window, next: Window)
    requires now.lo <= next.lo <= next.hi <= now.hi <= |pool|
    ensures pool[..now.lo] + pool[now.lo..next.lo] == pool[..next.lo]
    ensures pool[next.hi..now.hi] + pool[now.hi..] == pool[next.hi..]
  {
  }
}
