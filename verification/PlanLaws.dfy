// What holds of every successful plan besides the victim's isolation: what
// exclusivity rules out, the widths of the exclusive cpusets, and which
// cpusets can be empty.
module PlanLaws {
  import opened GoStrings
  import opened IntLists
  import opened Topology
  import opened Profile
  import opened Planner
  import opened PlanFacts
  import opened Isolation

  // The CPUs of the i-th process's row.
  ghost function RowCPUs(p: PerformanceProfile, flat: seq<FlatProcess>, i: nat): seq<int>
    requires Carve(p, flat).Ok? && i < |flat|
  {
    CPUsFor(p, flat[i].component, DemandOf(p, flat[i]), WindowAt(p, flat, i))
  }

  // Two processes, the first exclusive, never share a CPU in a plan.
  lemma RowsApart(p: PerformanceProfile, flat: seq<FlatProcess>, i: nat, j: nat)
    requires PlanOf(p, flat).Ok? && Carve(p, flat).Ok?
    requires i < |flat| && j < |flat| && i != j && ClassOf(p, flat[i].component).IsolatedExclusive?
    ensures Disjoint(RowCPUs(p, flat, i), RowCPUs(p, flat, j))
  {
    var plan := PlanOf(p, flat).value;
    PlanShape(p, flat, plan);
    PlanRows(p, flat, plan);
    hide PlanOf, Valid, RegionsFit, Others, VictimCPUs, Carve, CPUsFor, Disjoint;
    assert Disjoint(plan.assignments[i].cpus, plan.assignments[j].cpus);
  }

  lemma NonEmptyMeet(a: seq<int>, b: seq<int>)
    requires Inside(a, b) && |a| > 0
    ensures !Disjoint(a, b)
  {
    var c := a[0];
    assert c in Elems(a);
    Meet(a, b, c);
  }

  // ---------- What success rules out ----------

  // The process gets the whole workload pool: best-effort, or fallen back.
  ghost predicate HasWholePool(p: PerformanceProfile, flat: seq<FlatProcess>, i: nat)
    requires Carve(p, flat).Ok? && i < |flat|
  {
    DemandOf(p, flat[i]).WholePool? || FellBack(p, flat, i)
  }

  lemma WholePoolCPUs(p: PerformanceProfile, flat: seq<FlatProcess>, i: nat)
    requires Carve(p, flat).Ok? && i < |flat| && HasWholePool(p, flat, i)
    ensures RowCPUs(p, flat, i) == WorkloadPool(p)
  {
    hide WorkloadPool, Carve, DemandOf;
  }

  // A plan with an exclusive process carved from the workload pool has no
  // best-effort process and none that fell back to the whole pool.
  lemma CarvedExclusiveRulesOut(p: PerformanceProfile, flat: seq<FlatProcess>, i: nat, j: nat)
    requires PlanOf(p, flat).Ok? && Carve(p, flat).Ok?
    requires i < |flat| && j < |flat| && DemandOf(p, flat[i]).Tail?
    ensures !HasWholePool(p, flat, j)
  {
    hide PlanOf, Carve, WorkloadPool, CPUsFor, Disjoint, Inside;
    if HasWholePool(p, flat, j) {
      CarvedCPUs(p, flat, i);
      WholePoolCPUs(p, flat, j);
      RowsApart(p, flat, i, j);
      SliceInside(WorkloadPool(p), Bounds(p, flat, i).0, Bounds(p, flat, i).1);
      NonEmptyMeet(RowCPUs(p, flat, i), RowCPUs(p, flat, j));
    }
  }

  // A component with exclusive CPUs of its own has one replica at most.
  lemma FixedComponentOnce(p: PerformanceProfile, flat: seq<FlatProcess>, i: nat, j: nat)
    requires PlanOf(p, flat).Ok?
    requires i < |flat| && j < |flat| && flat[i].component == flat[j].component
    requires IsFixed(p, flat[i].component) && |OverrideOf(p, flat[i].component)| > 0
    ensures i == j
  {
    PlanShape(p, flat, PlanOf(p, flat).value);
    hide PlanOf, Carve, OverrideOf, Disjoint, VictimCPUs, Others, ExclusivesApart, Valid, RegionsFit;
    if i != j {
      RowsApart(p, flat, i, j);
      NonEmptyMeet(OverrideOf(p, flat[i].component), OverrideOf(p, flat[i].component));
    }
  }

  // Beside a process that has the whole pool, a defaulted victim runs in
  // regions of components that the topology does not have.
  lemma DefaultedBesideWholePool(p: PerformanceProfile, flat: seq<FlatProcess>, i: nat, c: int)
    requires PlanOf(p, flat).Ok? && Carve(p, flat).Ok? && IsDefaulted(p)
    requires i < |flat| && HasWholePool(p, flat, i) && c in Elems(PlanOf(p, flat).value.victimCPUs)
    ensures exists n :: IsFixed(p, n) && c in Elems(OverrideOf(p, n))
                        && forall k | 0 <= k < |flat| :: flat[k].component != n
  {
    var plan := PlanOf(p, flat).value;
    PlanShape(p, flat, plan);
    PlanRows(p, flat, plan);
    DefaultedVictim(p, Others(p, flat), plan.victimCPUs);
    hide PlanOf, Carve, CPUsFor, WorkloadPool, IsolatedPool, OverrideOf, VictimCPUs, Others, ExclusivesApart, Valid,
      RegionsFit, HasWholePool;
    WholePoolCPUs(p, flat, i);
    DisjointMember(plan.assignments[i].cpus, plan.victimCPUs, c);
    InWorkload(p, c);
    var n :| n in p.componentMap.Keys && IsFixed(p, n) && c in Elems(OverrideOf(p, n));
    forall k | 0 <= k < |flat|
      ensures flat[k].component != n
    {
      if flat[k].component == n {
        FixedRow(p, flat, k);
        assert c in Elems(plan.assignments[k].cpus);
        DisjointMember(plan.assignments[k].cpus, plan.victimCPUs, c);
      }
    }
  }

  lemma FixedRow(p: PerformanceProfile, flat: seq<FlatProcess>, i: nat)
    requires Carve(p, flat).Ok? && i < |flat| && IsFixed(p, flat[i].component)
    ensures RowCPUs(p, flat, i) == OverrideOf(p, flat[i].component)
  {
    hide Carve, WorkloadPool, OverrideOf;
  }

  lemma DisjointMember(a: seq<int>, b: seq<int>, c: int)
    requires Disjoint(a, b) && c in Elems(b)
    ensures c !in Elems(a)
  {
  }

  // ---------- The order of carved CPUs ----------

  lemma SlicesOrdered(l: seq<int>, a: nat, b: nat, c: nat, d: nat, x: int, y: int)
    requires Canonical(l) && a <= b <= c <= d <= |l|
    requires x in l[a..b] && y in l[c..d]
    ensures x < y
  {
    var i :| 0 <= i < b - a && l[a..b][i] == x;
    var j :| 0 <= j < d - c && l[c..d][j] == y;
    assert l[a + i] == x && l[c + j] == y;
  }

  // Where slices lie: tail slices above front slices, later tail slices below
  // earlier ones, later front slices above earlier ones.
  lemma BoundsOrdered(p: PerformanceProfile, flat: seq<FlatProcess>, i: nat, j: nat)
    requires Carve(p, flat).Ok? && i < |flat| && j < |flat|
    ensures DemandOf(p, flat[i]).Front? && DemandOf(p, flat[j]).Tail? ==> Bounds(p, flat, i).1 <= Bounds(p, flat, j).0
    ensures i < j && DemandOf(p, flat[i]).Front? && DemandOf(p, flat[j]).Front? ==>
        Bounds(p, flat, i).1 <= Bounds(p, flat, j).0
    ensures i < j && DemandOf(p, flat[i]).Tail? && DemandOf(p, flat[j]).Tail? ==>
        Bounds(p, flat, j).1 <= Bounds(p, flat, i).0
  {
    hide Carve, WorkloadPool, DemandOf;
    WindowMoves(p, flat, i);
    WindowMoves(p, flat, j);
    WindowsNest(p, flat, i + 1, |flat|);
    WindowsNest(p, flat, j + 1, |flat|);
    if i < j {
      WindowsNest(p, flat, i + 1, j);
    }
  }

  // Of two carved processes, the one whose slice lies lower in the pool has
  // the lower CPUs.
  lemma CarvedBelow(p: PerformanceProfile, flat: seq<FlatProcess>, i: nat, j: nat, c: int, d: int)
    requires Carve(p, flat).Ok? && i < |flat| && j < |flat|
    requires IsCarved(DemandOf(p, flat[i])) && !FellBack(p, flat, i)
    requires IsCarved(DemandOf(p, flat[j])) && !FellBack(p, flat, j)
    requires Bounds(p, flat, i).1 <= Bounds(p, flat, j).0
    requires c in RowCPUs(p, flat, i) && d in RowCPUs(p, flat, j)
    ensures c < d
  {
    CarvedCPUs(p, flat, i);
    CarvedCPUs(p, flat, j);
    WorkloadInside(p);
    hide Carve, WorkloadPool, DemandOf, CPUsFor, Bounds, FellBack, Canonical;
    var a, b := Bounds(p, flat, i), Bounds(p, flat, j);
    SlicesOrdered(WorkloadPool(p), a.0, a.1, b.0, b.1, c, d);
  }

  // In a plan, exclusive processes without CPUs of their own run above all
  // carved shared and burstable ones...
  lemma ExclusivesOnTop(p: PerformanceProfile, flat: seq<FlatProcess>, plan: Plan, i: nat, j: nat, c: int, d: int)
    requires PlanOf(p, flat) == Ok(plan) && |plan.assignments| == |flat| + 2 && i < |flat| && j < |flat|
    requires DemandOf(p, flat[i]).Front? && DemandOf(p, flat[j]).Tail?
    requires c in plan.assignments[i].cpus && d in plan.assignments[j].cpus
    ensures c < d
  {
    PlanRows(p, flat, plan);
    hide PlanOf, Carve, CPUsFor, WindowAt, TuningOf, ClassOf, Bounds;
    CarvedExclusiveRulesOut(p, flat, j, i);
    BoundsOrdered(p, flat, i, j);
    CarvedBelow(p, flat, i, j, c, d);
  }

  // ... and carving follows the order of the topology: upwards for shared and
  // burstable processes, downwards for exclusive ones.
  lemma CarvedInOrder(p: PerformanceProfile, flat: seq<FlatProcess>, plan: Plan, i: nat, j: nat, c: int, d: int)
    requires PlanOf(p, flat) == Ok(plan) && |plan.assignments| == |flat| + 2 && i < j < |flat|
    requires c in plan.assignments[i].cpus && d in plan.assignments[j].cpus
    ensures DemandOf(p, flat[i]).Tail? && DemandOf(p, flat[j]).Tail? ==> d < c
    ensures Carve(p, flat).Ok?
    ensures DemandOf(p, flat[i]).Front? && DemandOf(p, flat[j]).Front? ==>
              !FellBack(p, flat, i) && !FellBack(p, flat, j) ==> c < d
  {
    PlanRows(p, flat, plan);
    hide PlanOf, Carve, CPUsFor, WindowAt, TuningOf, ClassOf, Bounds, FellBack;
    BoundsOrdered(p, flat, i, j);
    if DemandOf(p, flat[i]).Tail? && DemandOf(p, flat[j]).Tail? {
      NoTailFallsBack(p, flat, i);
      NoTailFallsBack(p, flat, j);
      CarvedBelow(p, flat, j, i, d, c);
    } else if DemandOf(p, flat[i]).Front? && DemandOf(p, flat[j]).Front?
              && !FellBack(p, flat, i) && !FellBack(p, flat, j) {
      CarvedBelow(p, flat, i, j, c, d);
    }
  }

  lemma NoTailFallsBack(p: PerformanceProfile, flat: seq<FlatProcess>, i: nat)
    requires Carve(p, flat).Ok? && i < |flat| && DemandOf(p, flat[i]).Tail?
    ensures !FellBack(p, flat, i)
  {
  }

  // ---------- No overcommit among exclusives ----------

  function ExclusiveWidth(rows: seq<Assignment>): nat {
    if rows == [] then 0
    else ExclusiveWidth(rows[..|rows| - 1]) + if rows[|rows| - 1].exclusive then |rows[|rows| - 1].cpus| else 0
  }

  ghost function ExclusiveCPUs(rows: seq<Assignment>): set<int> {
    if rows == [] then {}
    else ExclusiveCPUs(rows[..|rows| - 1]) + if rows[|rows| - 1].exclusive then Elems(rows[|rows| - 1].cpus) else {}
  }

  lemma {:induction false} ExclusiveMember(rows: seq<Assignment>, c: int)
    requires c in ExclusiveCPUs(rows)
    ensures exists i | 0 <= i < |rows| :: rows[i].exclusive && c in Elems(rows[i].cpus)
  {
    hide Elems;
    var n := |rows| - 1;
    if c in ExclusiveCPUs(rows[..n]) {
      ExclusiveMember(rows[..n], c);
      var i :| 0 <= i < n && rows[..n][i].exclusive && c in Elems(rows[..n][i].cpus);
      assert rows[i] == rows[..n][i];
    }
  }

  lemma FrontApart(rows: seq<Assignment>, n: nat)
    requires ExclusivesApart(rows) && n <= |rows|
    ensures ExclusivesApart(rows[..n])
  {
    hide Disjoint;
    forall i, j | 0 <= i < n && 0 <= j < n && i != j && rows[..n][i].exclusive
      ensures Disjoint(rows[..n][i].cpus, rows[..n][j].cpus)
    {
      assert Disjoint(rows[i].cpus, rows[j].cpus);
    }
  }

  // The last exclusive cpuset adds its width to the earlier ones.
  lemma LastAddsWidth(rows: seq<Assignment>)
    requires rows != [] && rows[|rows| - 1].exclusive && Canonical(rows[|rows| - 1].cpus) && ExclusivesApart(rows)
    ensures |ExclusiveCPUs(rows)| == |ExclusiveCPUs(rows[..|rows| - 1])| + |rows[|rows| - 1].cpus|
  {
    hide Canonical;
    var n := |rows| - 1;
    var front := ExclusiveCPUs(rows[..n]);
    CanonicalSize(rows[n].cpus);
    forall c | c in front
      ensures c !in Elems(rows[n].cpus)
    {
      ExclusiveMember(rows[..n], c);
      var i :| 0 <= i < n && rows[..n][i].exclusive && c in Elems(rows[..n][i].cpus);
      assert Disjoint(rows[i].cpus, rows[n].cpus);
    }
    assert |front + Elems(rows[n].cpus)| == |front| + |Elems(rows[n].cpus)|;
  }

  // Exclusive cpusets in one pool need, together, no more CPUs than it has.
  lemma {:induction false} WidthsFit(rows: seq<Assignment>, pool: seq<int>)
    requires ExclusivesApart(rows)
    requires forall i | 0 <= i < |rows| :: rows[i].exclusive ==> Canonical(rows[i].cpus) && Inside(rows[i].cpus, pool)
    ensures |ExclusiveCPUs(rows)| == ExclusiveWidth(rows)
    ensures forall c <- ExclusiveCPUs(rows) :: c in Elems(pool)
  {
    hide Canonical, ExclusivesApart;
    if rows != [] {
      var n := |rows| - 1;
      FrontApart(rows, n);
      assert forall i | 0 <= i < n :: rows[..n][i] == rows[i];
      WidthsFit(rows[..n], pool);
      if rows[n].exclusive {
        LastAddsWidth(rows);
      }
    }
  }

  // An exclusive process runs inside the isolated pool.
  lemma ExclusiveInside(p: PerformanceProfile, flat: seq<FlatProcess>, i: nat)
    requires Valid(p) && RegionsFit(p) && Carve(p, flat).Ok? && i < |flat|
    requires ClassOf(p, flat[i].component).IsolatedExclusive?
    ensures Canonical(RowCPUs(p, flat, i)) && Inside(RowCPUs(p, flat, i), IsolatedPool(p))
  {
    hide Valid, RegionsFit, Carve, WorkloadPool, IsolatedPool, OverrideOf, Canonical, Inside;
    var n := flat[i].component;
    if DemandOf(p, flat[i]).Pinned? {
      ValidOverride(p, n);
      assert IsFixed(p, n);
      RegionOutsideWorkload(p, n);
      FixedRow(p, flat, i);
      OverrideCanonical(p, n);
    } else {
      CarvedCPUs(p, flat, i);
      WorkloadInside(p);
      SliceInside(WorkloadPool(p), Bounds(p, flat, i).0, Bounds(p, flat, i).1);
      InsideTransitive(RowCPUs(p, flat, i), WorkloadPool(p), IsolatedPool(p));
    }
  }

  lemma OverrideCanonical(p: PerformanceProfile, n: string)
    ensures Canonical(OverrideOf(p, n))
  {
    hide PoolOf;
  }

  lemma InsideTransitive(a: seq<int>, b: seq<int>, c: seq<int>)
    requires Inside(a, b) && Inside(b, c)
    ensures Inside(a, c)
  {
  }

  lemma WidthBound(rows: seq<Assignment>, pool: seq<int>)
    requires ExclusivesApart(rows)
    requires forall i | 0 <= i < |rows| :: rows[i].exclusive ==> Canonical(rows[i].cpus) && Inside(rows[i].cpus, pool)
    ensures ExclusiveWidth(rows) <= |pool|
  {
    hide Canonical, ExclusivesApart, Inside;
    WidthsFit(rows, pool);
    MembersSubset(ExclusiveCPUs(rows), Elems(pool));
    ElemsSize(pool);
  }

  lemma ExclusiveRow(p: PerformanceProfile, flat: seq<FlatProcess>, plan: Plan, i: nat)
    requires PlanOf(p, flat) == Ok(plan) && i < |plan.assignments| && plan.assignments[i].exclusive
    ensures Canonical(plan.assignments[i].cpus) && Inside(plan.assignments[i].cpus, plan.isolated)
  {
    PlanShape(p, flat, plan);
    PlanRows(p, flat, plan);
    hide PlanOf, Valid, RegionsFit, Carve, Others, VictimCPUs, ExclusivesApart, IsolatedPool, Canonical, Inside,
      CPUsFor;
    if i < |flat| {
      ExclusiveInside(p, flat, i);
    } else {
      VictimInside(p, flat, plan);
    }
  }

  // The exclusive cpusets of a plan are disjoint parts of the isolated pool,
  // so their widths add up to at most its size.
  lemma NoOvercommit(p: PerformanceProfile, flat: seq<FlatProcess>, plan: Plan)
    requires PlanOf(p, flat) == Ok(plan)
    ensures ExclusivesApart(plan.assignments)
    ensures forall i | 0 <= i < |plan.assignments| ::
              plan.assignments[i].exclusive ==>
                Canonical(plan.assignments[i].cpus) && Inside(plan.assignments[i].cpus, plan.isolated)
    ensures ExclusiveWidth(plan.assignments) <= |plan.isolated|
  {
    PlanShape(p, flat, plan);
    hide PlanOf, Valid, RegionsFit, Carve, Others, VictimCPUs, ExclusivesApart, IsolatedPool, Canonical, Inside;
    forall i | 0 <= i < |plan.assignments| && plan.assignments[i].exclusive
      ensures Canonical(plan.assignments[i].cpus) && Inside(plan.assignments[i].cpus, plan.isolated)
    {
      ExclusiveRow(p, flat, plan, i);
    }
    WidthBound(plan.assignments, plan.isolated);
  }

  lemma VictimInside(p: PerformanceProfile, flat: seq<FlatProcess>, plan: Plan)
    requires PlanOf(p, flat) == Ok(plan) && VictimClass(p).IsolatedExclusive?
    ensures Canonical(plan.victimCPUs) && Inside(plan.victimCPUs, IsolatedPool(p))
  {
    PlanShape(p, flat, plan);
    ProtectedVictimIsolated(p, flat, plan);
    hide PlanOf, Valid, RegionsFit, Carve, Others, ExclusivesApart, IsolatedPool, Canonical, Inside, OverrideOf;
    if IsDefaulted(p) {
      DefaultedVictim(p, Others(p, flat), plan.victimCPUs);
    } else {
      OverrideCanonical(p, VICTIM);
    }
  }

  // GOMAXPROCS is the width of the cpuset, unless the component map sets it
  // for a process; it cannot set the observer's or the victim's.
  lemma GomaxprocsIsWidth(p: PerformanceProfile, flat: seq<FlatProcess>, plan: Plan, i: nat)
    requires PlanOf(p, flat) == Ok(plan) && i < |plan.assignments|
    ensures var row := plan.assignments[i];
            row.gomaxprocs ==
              if i < |flat| && TuningOf(p, flat[i].component).gomaxprocsOverride > 0
              then TuningOf(p, flat[i].component).gomaxprocsOverride
              else |row.cpus|
  {
    PlanRows(p, flat, plan);
    hide PlanOf, Carve, CPUsFor;
    assert i < |flat| || i == |flat| || i == |flat| + 1;
  }

  // ---------- Empty cpusets ----------

  // Exactly the processes that get no CPU at all, although the plan succeeds:
  // the component map's CPUs parse to nothing, or there is no workload pool.
  ghost predicate GetsNothing(p: PerformanceProfile, fp: FlatProcess) {
    match DemandOf(p, fp)
    case Pinned => |OverrideOf(p, fp.component)| == 0
    case Front(_) => |WorkloadPool(p)| == 0
    case WholePool => |WorkloadPool(p)| == 0
    case _ => false
  }

  lemma EmptyRowIff(p: PerformanceProfile, flat: seq<FlatProcess>, i: nat)
    requires Valid(p) && Carve(p, flat).Ok? && i < |flat|
    ensures |RowCPUs(p, flat, i)| == 0 <==> GetsNothing(p, flat[i])
  {
    ValidPools(p);
    WindowStep(p, flat, i);
    if IsCarved(DemandOf(p, flat[i])) && !FellBack(p, flat, i) {
      CarvedCPUs(p, flat, i);
    }
    hide Valid, Carve, WorkloadPool, OverrideOf, ReservedPool, DemandOf;
  }

  lemma EmptyCpusetIff(p: PerformanceProfile, flat: seq<FlatProcess>, plan: Plan, i: nat)
    requires PlanOf(p, flat) == Ok(plan) && i < |flat| && |plan.assignments| == |flat| + 2
    ensures |plan.assignments[i].cpus| == 0 <==> GetsNothing(p, flat[i])
  {
    PlanShape(p, flat, plan);
    PlanRows(p, flat, plan);
    hide PlanOf, Valid, RegionsFit, Carve, Others, VictimCPUs, ExclusivesApart, CPUsFor, GetsNothing;
    EmptyRowIff(p, flat, i);
  }
}
