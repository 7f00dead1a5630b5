// Which processes can really execute on the victim's CPUs. A backend confines
// a process to its row's cpuset only when that is not empty; a process with an
// empty cpuset runs wherever the host lets it.
module Confinement {
  import opened GoStrings
  import opened IntLists
  import opened Topology
  import opened Profile
  import opened Planner
  import opened PlanFacts
  import opened Isolation
  import opened PlanLaws

  ghost predicate CanRunOn(a: Assignment, c: int) {
    |a.cpus| == 0 || c in Elems(a.cpus)
  }

  // A process with this row can execute on none of the CPUs.
  ghost predicate KeepsOff(a: Assignment, v: seq<int>) {
    forall c <- Elems(v) :: !CanRunOn(a, c)
  }

  // The victim has CPUs, all isolated, and no other process of the run can
  // execute on one of them.
  ghost predicate VictimShielded(plan: Plan) {
    && |plan.victimCPUs| > 0
    && Inside(plan.victimCPUs, plan.isolated)
    && Disjoint(plan.victimCPUs, plan.reserved)
    && |plan.assignments| > 0
    && forall i | 0 <= i < |plan.assignments| - 1 :: KeepsOff(plan.assignments[i], plan.victimCPUs)
  }

  // ---------- One plan ----------

  lemma KeepsOffIff(a: Assignment, v: seq<int>)
    requires |v| > 0
    ensures KeepsOff(a, v) <==> Disjoint(a.cpus, v) && |a.cpus| > 0
  {
    assert v[0] in Elems(v);
    if Disjoint(a.cpus, v) && |a.cpus| > 0 {
      forall c | c in Elems(v)
        ensures !CanRunOn(a, c)
      {
        assert c !in Elems(a.cpus);
      }
    }
    if KeepsOff(a, v) {
      assert !CanRunOn(a, v[0]);
      forall c | c in Elems(a.cpus)
        ensures c !in Elems(v)
      {
        assert CanRunOn(a, c);
      }
    }
  }

  lemma ObserverHasCPUs(p: PerformanceProfile, flat: seq<FlatProcess>, plan: Plan)
    requires PlanOf(p, flat) == Ok(plan)
    ensures |plan.assignments| == |flat| + 2 && |plan.assignments[|flat|].cpus| > 0
  {
    PlanShape(p, flat, plan);
    PlanRows(p, flat, plan);
    ValidPools(p);
    hide PlanOf, Valid, RegionsFit, Carve, Others, VictimCPUs, ExclusivesApart, ReservedPool, WorkerAssignment;
  }

  // The i-th row keeps off the victim's CPUs when it is apart from them and
  // not empty.
  lemma RowKeepsOffIff(p: PerformanceProfile, flat: seq<FlatProcess>, plan: Plan, i: nat)
    requires PlanOf(p, flat) == Ok(plan) && |plan.assignments| == |flat| + 2 && i < |flat| + 1
    ensures KeepsOff(plan.assignments[i], plan.victimCPUs) <==>
              Disjoint(plan.assignments[i].cpus, plan.victimCPUs) && (i < |flat| ==> !GetsNothing(p, flat[i]))
  {
    hide *;
    VictimHasCPUs(p, flat, plan);
    KeepsOffIff(plan.assignments[i], plan.victimCPUs);
    if i < |flat| {
      EmptyCpusetIff(p, flat, plan, i);
    } else {
      ObserverHasCPUs(p, flat, plan);
    }
  }

  // A plan shields the victim exactly when it isolates it and leaves no
  // process without CPUs.
  lemma ShieldedIff(p: PerformanceProfile, flat: seq<FlatProcess>, plan: Plan)
    requires PlanOf(p, flat) == Ok(plan)
    ensures VictimShielded(plan) <==> VictimIsolated(plan) && forall i | 0 <= i < |flat| :: !GetsNothing(p, flat[i])
  {
    hide PlanOf, GetsNothing, KeepsOff, Inside, Disjoint;
    ObserverHasCPUs(p, flat, plan);
    forall i | 0 <= i < |plan.assignments| - 1
      ensures KeepsOff(plan.assignments[i], plan.victimCPUs) <==>
                Disjoint(plan.assignments[i].cpus, plan.victimCPUs) && (i < |flat| ==> !GetsNothing(p, flat[i]))
    {
      RowKeepsOffIff(p, flat, plan, i);
    }
  }

  // For a protected victim, that is all there is to check.
  lemma ProtectedShieldedIff(p: PerformanceProfile, flat: seq<FlatProcess>, plan: Plan)
    requires PlanOf(p, flat) == Ok(plan) && Protected(p)
    ensures VictimShielded(plan) <==> forall i | 0 <= i < |flat| :: !GetsNothing(p, flat[i])
  {
    hide PlanOf, Protected, VictimShielded, VictimIsolated, GetsNothing;
    ShieldedIff(p, flat, plan);
    ProtectedVictimIsolated(p, flat, plan);
  }

  // ---------- Which profiles have a plan at all ----------

  ghost predicate Plannable(p: PerformanceProfile) {
    Valid(p) && RegionsFit(p) && (IsDefaulted(p) ==> |IsolatedPool(p)| >= DEFAULT_VICTIM_WIDTH)
  }

  // The row occupies nothing, or shares the reserved pool.
  ghost predicate Harmless(p: PerformanceProfile, a: Assignment) {
    a.cpus == [] || (a.cpus == ReservedPool(p) && !a.exclusive)
  }

  lemma OnlyReservedUsed(p: PerformanceProfile, rows: seq<Assignment>, c: int)
    requires IsUsed(rows, c) && forall i | 0 <= i < |rows| :: Harmless(p, rows[i])
    ensures c in Elems(ReservedPool(p))
  {
    hide ReservedPool;
    var i :| 0 <= i < |rows| && c in Elems(rows[i].cpus);
    assert Harmless(p, rows[i]);
  }

  lemma NothingUsed(p: PerformanceProfile, rows: seq<Assignment>)
    requires Valid(p) && forall i | 0 <= i < |rows| :: Harmless(p, rows[i])
    ensures Unused(p, rows) == IsolatedPool(p)
  {
    ValidPools(p);
    hide Valid, ReservedPool, IsolatedPool;
    forall c | c in Elems(IsolatedPool(p))
      ensures !IsUsed(rows, c)
    {
      if IsUsed(rows, c) {
        OnlyReservedUsed(p, rows, c);
      }
    }
    assert (set c | c in Elems(IsolatedPool(p)) && !IsUsed(rows, c)) == Elems(IsolatedPool(p));
    SortedListOfElems(IsolatedPool(p));
  }

  lemma HarmlessApart(p: PerformanceProfile, rows: seq<Assignment>, last: Assignment)
    requires forall i | 0 <= i < |rows| :: Harmless(p, rows[i])
    requires last.exclusive ==> Disjoint(last.cpus, ReservedPool(p))
    ensures ExclusivesApart(rows + [last])
  {
    hide ReservedPool;
    var all := rows + [last];
    forall i, j | 0 <= i < |all| && 0 <= j < |all| && i != j && all[i].exclusive
      ensures Disjoint(all[i].cpus, all[j].cpus)
    {
      if i < |rows| {
        assert Harmless(p, rows[i]);
      } else {
        assert Harmless(p, rows[j]);
      }
    }
  }

  lemma FinishSucceeds(p: PerformanceProfile, rows: seq<Assignment>)
    requires Plannable(p) && forall i | 0 <= i < |rows| :: Harmless(p, rows[i])
    ensures Finish(p, rows).Ok?
  {
    NothingUsed(p, rows);
    hide Valid, RegionsFit, ReservedPool, IsolatedPool, WorkloadPool, Disjoint, ExclusivesApart, Unused, Harmless,
      OverrideOf;
    var v := VictimCPUs(p, rows).value;
    var last := VictimAssignment(p, v);
    if last.exclusive {
      ExclusiveVictimApart(p, rows, v);
    }
    HarmlessApart(p, rows, last);
  }

  lemma NoProcessPlan(p: PerformanceProfile)
    requires Plannable(p)
    ensures Numbered([]) && PlanOf(p, []).Ok?
  {
    NoneNumbered();
    hide Valid, RegionsFit, ReservedPool, WorkloadPool, Finish, IsolatedPool, IsDefaulted;
    assert Others(p, []) == [ObserverAssignment(p)];
    FinishSucceeds(p, Others(p, []));
  }

  // A process without CPUs stands in nobody's way.
  lemma NothingRow(p: PerformanceProfile, fp: FlatProcess)
    requires GetsNothing(p, fp)
    ensures Carve(p, [fp]).Ok?
    ensures Workers(p, [fp]) == [WorkerAssignment(p, fp, Window(0, |WorkloadPool(p)|))]
    ensures WorkerAssignment(p, fp, Window(0, |WorkloadPool(p)|)).cpus == []
  {
    hide WorkloadPool, TuningOf, ClassOf, OverrideOf, DemandOf;
    assert [fp][..0] == [];
  }

  lemma NothingPlan(p: PerformanceProfile, fp: FlatProcess)
    requires Plannable(p) && GetsNothing(p, fp)
    ensures PlanOf(p, [fp]).Ok?
  {
    hide Valid, RegionsFit, ReservedPool, WorkloadPool, Finish, IsolatedPool, IsDefaulted, GetsNothing, Carve,
      WorkerAssignment;
    NothingRow(p, fp);
    var rows := Others(p, [fp]);
    assert rows == [WorkerAssignment(p, fp, Window(0, |WorkloadPool(p)|)), ObserverAssignment(p)];
    FinishSucceeds(p, rows);
  }

  lemma NoRoom(p: PerformanceProfile, flat: seq<FlatProcess>)
    requires PlanOf(p, flat).Ok?
    ensures Plannable(p)
  {
    var plan := PlanOf(p, flat).value;
    PlanShape(p, flat, plan);
    hide PlanOf, Valid, RegionsFit, Others, Carve, ExclusivesApart, IsolatedPool, OverrideOf;
    if IsDefaulted(p) {
      var free, isolated := Unused(p, Others(p, flat)), IsolatedPool(p);
      MembersSubset(Elems(free), Elems(isolated));
      CanonicalSize(free);
      ElemsSize(isolated);
    }
  }

  // Exactly the profiles for which some run can be planned.
  lemma PlannableIff(p: PerformanceProfile)
    ensures (exists flat :: PlanOf(p, flat).Ok?) <==> Plannable(p)
  {
    hide PlanOf, Plannable;
    if Plannable(p) {
      NoProcessPlan(p);
    }
    forall flat | PlanOf(p, flat).Ok?
      ensures Plannable(p)
    {
      NoRoom(p, flat);
    }
  }

  // ---------- Every plan of a profile ----------

  // The component map names CPUs for the component, and they are none.
  ghost predicate PinsNothing(p: PerformanceProfile, n: string) {
    && n in p.componentMap && p.componentMap[n].cpus != "" && |OverrideOf(p, n)| == 0
    && (p.componentMap[n].cls.IsolatedExclusive? || Shareable(p.componentMap[n].cls))
  }

  // Some process with a name that is not barred would get no CPU.
  ghost predicate CanGetNothing(p: PerformanceProfile, barred: set<string>) {
    || (exists n <- p.componentMap.Keys :: n !in barred && PinsNothing(p, n))
    || (|WorkloadPool(p)| == 0 && WorkloadOpen(p, barred))
  }

  lemma NothingMeansCan(p: PerformanceProfile, barred: set<string>, fp: FlatProcess)
    requires Valid(p) && GetsNothing(p, fp) && fp.component !in barred
    ensures CanGetNothing(p, barred)
  {
    hide Valid, WorkloadPool, OverrideOf;
    var n := fp.component;
    if n in p.componentMap {
      ValidOverride(p, n);
      assert n in p.componentMap.Keys;
    }
    if DemandOf(p, fp).Pinned? {
      assert PinsNothing(p, n);
    } else {
      WorkloadOpenedBy(p, barred, n);
    }
  }

  lemma NothingProcess(p: PerformanceProfile, barred: set<string>) returns (fp: FlatProcess)
    requires CanGetNothing(p, barred)
    ensures GetsNothing(p, fp) && Numbered([fp]) && fp.component !in barred
  {
    hide WorkloadPool, OverrideOf, Numbered, ReplicaID;
    var n: string;
    if exists n <- p.componentMap.Keys :: n !in barred && PinsNothing(p, n) {
      n :| n in p.componentMap.Keys && n !in barred && PinsNothing(p, n);
    } else {
      n := OpeningComponent(p, barred);
    }
    fp := FlatProcess(n, "", 0, 1, ReplicaID(n, 0));
    OneNumbered(fp);
  }

  // The victim's CPUs are safe in every run of the profile that avoids the
  // barred names.
  ghost predicate AlwaysSafe(p: PerformanceProfile, barred: set<string>) {
    (Protected(p) || Unexposed(p, barred)) && !CanGetNothing(p, barred)
  }

  // A process list that breaks the shield of an otherwise plannable profile.
  lemma Unshielded(p: PerformanceProfile, barred: set<string>) returns (flat: seq<FlatProcess>)
    requires Plannable(p) && !AlwaysSafe(p, barred)
    ensures Avoids(flat, barred) && Numbered(flat) && PlanOf(p, flat).Ok? && !VictimShielded(PlanOf(p, flat).value)
  {
    hide Valid, RegionsFit, PlanOf, Unexposed, Protected, CanGetNothing, IsolatedPool, VictimShielded, VictimIsolated,
      GetsNothing, Numbered;
    if CanGetNothing(p, barred) {
      var fp := NothingProcess(p, barred);
      NothingPlan(p, fp);
      flat := [fp];
      assert flat[0] == fp;
    } else {
      flat := HitUnprotected(p, barred);
    }
    ShieldedIff(p, flat, PlanOf(p, flat).value);
  }

  // Exactly when no run of a profile that avoids the barred names lets a
  // process execute on the victim's CPUs: the profile has no plan, or it
  // isolates the victim and neither an override nor the workload pool can
  // leave a process without CPUs.
  lemma ShieldIff(p: PerformanceProfile, barred: set<string>)
    ensures (forall flat :: Avoids(flat, barred) && PlanOf(p, flat).Ok? ==> VictimShielded(PlanOf(p, flat).value)) <==>
              (Plannable(p) ==> AlwaysSafe(p, barred))
    ensures (forall flat :: Avoids(flat, barred) && Numbered(flat) && PlanOf(p, flat).Ok? ==>
                              VictimShielded(PlanOf(p, flat).value)) <==>
              (Plannable(p) ==> AlwaysSafe(p, barred))
  {
    hide PlanOf, Plannable, AlwaysSafe, VictimShielded, Numbered, Avoids;
    if Plannable(p) && !AlwaysSafe(p, barred) {
      var flat := Unshielded(p, barred);
    } else {
      forall flat | Avoids(flat, barred) && PlanOf(p, flat).Ok?
        ensures VictimShielded(PlanOf(p, flat).value)
      {
        ShieldedPlan(p, barred, flat);
      }
    }
  }

  lemma ShieldedPlan(p: PerformanceProfile, barred: set<string>, flat: seq<FlatProcess>)
    requires PlanOf(p, flat).Ok? && Avoids(flat, barred)
    requires Plannable(p) ==> AlwaysSafe(p, barred)
    ensures VictimShielded(PlanOf(p, flat).value)
  {
    hide Valid, RegionsFit, PlanOf, Unexposed, Protected, CanGetNothing, IsolatedPool, IsDefaulted, VictimShielded,
      VictimIsolated, GetsNothing;
    NoRoom(p, flat);
    IsolationIff(p, barred);
    forall i | 0 <= i < |flat|
      ensures !GetsNothing(p, flat[i])
    {
      if GetsNothing(p, flat[i]) {
        NothingMeansCan(p, barred, flat[i]);
      }
    }
    ShieldedIff(p, flat, PlanOf(p, flat).value);
  }
}
