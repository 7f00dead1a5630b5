// What every row of a plan says, in the terms of the profile, the topology and
// the plan's own pools.
module RowLaws {
  import opened GoStrings
  import opened IntLists
  import opened CPULists
  import opened Topology
  import opened Profile
  import opened Planner
  import opened PlanFacts
  import opened PlanLaws
  import opened Success

  // ---------- The fields of a process's row ----------

  // The row of a component with an entry in the component map.
  ghost predicate FollowsEntry(row: Assignment, ct: ComponentTuning) {
    && row.cls == ct.cls && row.memoryMax == ct.memoryMaxBytes && row.rtPriority == ct.rtPriority
    && row.gomaxprocs == if ct.gomaxprocsOverride > 0 then ct.gomaxprocsOverride else |row.cpus|
  }

  // The row of a component without one: the default class, burstable when the
  // profile names none, and no limits.
  ghost predicate FollowsDefault(row: Assignment, defaultClass: TuningClass) {
    && row.cls == (if defaultClass == Unset then Burstable else defaultClass)
    && row.memoryMax == 0 && row.rtPriority == 0 && row.gomaxprocs == |row.cpus|
  }

  lemma ProcessRow(p: PerformanceProfile, flat: seq<FlatProcess>, plan: Plan, i: nat)
    requires PlanOf(p, flat) == Ok(plan) && |plan.assignments| == |flat| + 2 && i < |flat|
    ensures var row, n := plan.assignments[i], flat[i].component;
            && row.component == n && row.replicaID == flat[i].replicaID
            && (row.exclusive <==> row.cls == IsolatedExclusive)
            && if n in p.componentMap then FollowsEntry(row, p.componentMap[n]) else FollowsDefault(row, p.defaultClass)
  {
    PlanShape(p, flat, plan);
    PlanRows(p, flat, plan);
    hide PlanOf, Valid, RegionsFit, Carve, Others, VictimCPUs, ExclusivesApart, CPUsFor, WindowAt;
    if flat[i].component in p.componentMap {
      ValidOverride(p, flat[i].component);
    }
  }

  // ---------- The CPUs of a process's row ----------

  function EntryText(p: PerformanceProfile, n: string): string {
    if n in p.componentMap then p.componentMap[n].cpus else ""
  }

  // What the class of the row, and the CPUs the component map names, if any,
  // make of its cpuset.
  ghost predicate ClassDecides(plan: Plan, row: Assignment, text: string, asked: nat) {
    match row.cls
    case Reserved => row.cpus == plan.reserved
    case BestEffort => row.cpus == plan.workloadCPUs
    case IsolatedExclusive =>
      if text != "" then Parsed(text) == Ok(row.cpus) else |row.cpus| == asked && Inside(row.cpus, plan.workloadCPUs)
    case IsolatedShared => SharedDecides(plan, row, text, asked)
    case Burstable => SharedDecides(plan, row, text, asked)
    case _ => false
  }

  ghost predicate SharedDecides(plan: Plan, row: Assignment, text: string, asked: nat) {
    if text != "" then Parsed(text) == Ok(row.cpus)
    else row.cpus == plan.workloadCPUs || (0 < |row.cpus| <= asked && Inside(row.cpus, plan.workloadCPUs))
  }

  lemma ClassKnown(p: PerformanceProfile, fp: FlatProcess)
    requires Valid(p)
    ensures ClassOf(p, fp.component).Known() && TuningOf(p, fp.component).cpus == EntryText(p, fp.component)
  {
    hide Valid;
    if fp.component in p.componentMap {
      ValidOverride(p, fp.component);
    }
    ValidDefault(p);
  }

  lemma OverrideParsed(p: PerformanceProfile, n: string)
    requires Valid(p) && EntryText(p, n) != ""
    ensures Parsed(EntryText(p, n)) == Ok(OverrideOf(p, n))
  {
    hide Valid, Parsed;
    ValidOverride(p, n);
  }

  lemma RowOf(p: PerformanceProfile, flat: seq<FlatProcess>, plan: Plan, i: nat)
    requires PlanOf(p, flat) == Ok(plan) && |plan.assignments| == |flat| + 2 && i < |flat|
    ensures Valid(p) && Carve(p, flat).Ok?
    ensures plan.assignments[i].cpus == RowCPUs(p, flat, i)
    ensures plan.assignments[i].cls == ClassOf(p, flat[i].component)
    ensures plan.reserved == ReservedPool(p) && plan.workloadCPUs == WorkloadPool(p)
  {
    PlanShape(p, flat, plan);
    PlanRows(p, flat, plan);
    hide PlanOf, Valid, RegionsFit, Carve, Others, VictimCPUs, ExclusivesApart, CPUsFor, WindowAt, ClassOf;
  }

  // The demand of a class.
  lemma DemandOfClass(p: PerformanceProfile, fp: FlatProcess)
    ensures var cls, text, d := ClassOf(p, fp.component), TuningOf(p, fp.component).cpus, DemandOf(p, fp);
            && (cls.Reserved? ==> d.OnReserved?)
            && (cls.BestEffort? ==> d.WholePool?)
            && (cls.IsolatedExclusive? ==> if text != "" then d.Pinned? else d == Tail(Width(fp)))
            && (cls.IsolatedShared? || cls.Burstable? ==> if text != "" then d.Pinned? else d == Front(Width(fp)))
  {
  }

  lemma CarvedRow(p: PerformanceProfile, flat: seq<FlatProcess>, i: nat)
    requires Carve(p, flat).Ok? && i < |flat| && IsCarved(DemandOf(p, flat[i]))
    ensures DemandOf(p, flat[i]).Tail? ==> |RowCPUs(p, flat, i)| == Width(flat[i])
    ensures Inside(RowCPUs(p, flat, i), WorkloadPool(p))
    ensures RowCPUs(p, flat, i) == WorkloadPool(p) || 0 < |RowCPUs(p, flat, i)| <= Width(flat[i])
  {
    hide Carve, WorkloadPool, CPUsFor, DemandOf, Inside;
    ClaimInWorkload(p, flat, i);
    if FellBack(p, flat, i) {
      WholePoolCPUs(p, flat, i);
    } else {
      CarvedCPUs(p, flat, i);
    }
  }

  lemma ProcessCPUs(p: PerformanceProfile, flat: seq<FlatProcess>, plan: Plan, i: nat)
    requires PlanOf(p, flat) == Ok(plan) && |plan.assignments| == |flat| + 2 && i < |flat|
    ensures ClassDecides(plan, plan.assignments[i], EntryText(p, flat[i].component),
                         if flat[i].idealThreads <= 0 then 1 else flat[i].idealThreads)
  {
    RowOf(p, flat, plan, i);
    ClassKnown(p, flat[i]);
    DemandOfClass(p, flat[i]);
    hide PlanOf, Valid, Carve, RowCPUs, ClassOf, DemandOf, TuningOf, WorkloadPool, ReservedPool, EntryText, Parsed,
      OverrideOf, Inside;
    var d := DemandOf(p, flat[i]);
    if IsCarved(d) {
      CarvedRow(p, flat, i);
    } else if d.Pinned? {
      PinnedRow(p, flat, i);
      OverrideParsed(p, flat[i].component);
    } else {
      PoolRow(p, flat, i);
    }
  }

  lemma PoolRow(p: PerformanceProfile, flat: seq<FlatProcess>, i: nat)
    requires Carve(p, flat).Ok? && i < |flat|
    ensures DemandOf(p, flat[i]).OnReserved? ==> RowCPUs(p, flat, i) == ReservedPool(p)
    ensures DemandOf(p, flat[i]).WholePool? ==> RowCPUs(p, flat, i) == WorkloadPool(p)
  {
    hide Carve, WorkloadPool, ReservedPool, DemandOf;
  }

  // ---------- The observer, the victim and the plan itself ----------

  lemma SyntheticRows(p: PerformanceProfile, flat: seq<FlatProcess>, plan: Plan)
    requires PlanOf(p, flat) == Ok(plan)
    ensures |plan.assignments| == |flat| + 2
    ensures plan.assignments[|flat|] ==
              Assignment("chaos-observer", "", Reserved, plan.reserved, false, |plan.reserved|, 0, 0)
    ensures var row := plan.assignments[|flat| + 1];
            && row.component == "chaos-victim" && row.replicaID == "" && row.cpus == plan.victimCPUs
            && row.gomaxprocs == |plan.victimCPUs| && row.memoryMax == 0
            && (row.exclusive <==> row.cls == IsolatedExclusive)
            && if "chaos-victim" in p.componentMap
               then row.cls == p.componentMap["chaos-victim"].cls
                    && row.rtPriority == p.componentMap["chaos-victim"].rtPriority
               else row.cls == IsolatedExclusive && row.rtPriority == 0
  {
    PlanShape(p, flat, plan);
    PlanRows(p, flat, plan);
    hide PlanOf, Valid, RegionsFit, Carve, Others, VictimCPUs, ExclusivesApart, WorkerAssignment;
    if "chaos-victim" in p.componentMap {
      ValidOverride(p, "chaos-victim");
    }
  }

  lemma PlanHead(p: PerformanceProfile, flat: seq<FlatProcess>, plan: Plan)
    requires PlanOf(p, flat) == Ok(plan)
    ensures Parsed(p.reserved) == Ok(plan.reserved) && Parsed(p.isolated) == Ok(plan.isolated)
    ensures plan.hints.hugepages == p.hugepages && plan.hints.realTime == p.rtEnabled
    ensures plan.hints.topologyPolicy == p.topologyPolicy && plan.hints.highPower == p.highPower
    ensures plan.hints.irqBanned == if p.irqBalancingDisabled then plan.isolated else []
  {
    PlanShape(p, flat, plan);
    PoolsParsed(p);
    HintsKept(p, flat, plan);
    hide PlanOf, Valid, RegionsFit, Carve, Others, VictimCPUs, ExclusivesApart, Parsed;
  }

  lemma PoolsParsed(p: PerformanceProfile)
    requires Valid(p)
    ensures Parsed(p.reserved) == Ok(ReservedPool(p)) && Parsed(p.isolated) == Ok(IsolatedPool(p))
  {
    hide Parsed;
    assert !HasFault(p, BadReserved) && !HasFault(p, BadIsolated);
  }

  lemma HintsKept(p: PerformanceProfile, flat: seq<FlatProcess>, plan: Plan)
    requires PlanOf(p, flat) == Ok(plan)
    ensures plan.hints == HintsOf(p)
  {
    hide Valid, RegionsFit, Carve, Others, VictimCPUs, ExclusivesApart, HintsOf;
  }

  // ---------- The pools ----------

  // The component has exclusive CPUs of its own in the component map.
  ghost predicate OwnsRegion(p: PerformanceProfile, n: string) {
    n in p.componentMap && p.componentMap[n].cls == IsolatedExclusive && p.componentMap[n].cpus != ""
  }

  lemma RegionIs(p: PerformanceProfile, n: string)
    requires Valid(p)
    ensures OwnsRegion(p, n) <==> IsFixed(p, n)
    ensures OwnsRegion(p, n) ==> Parsed(p.componentMap[n].cpus) == Ok(OverrideOf(p, n))
  {
    hide Valid, Parsed;
    if n in p.componentMap {
      ValidOverride(p, n);
    }
  }

  // The exclusive overrides, as the component map writes them, are isolated
  // and pairwise disjoint.
  ghost predicate RegionsGood(p: PerformanceProfile)
    requires Valid(p)
  {
    && (forall n :: OwnsRegion(p, n) ==> Inside(OwnRegion(p, n), IsolatedPool(p)))
    && (forall m, n :: OwnsRegion(p, m) && OwnsRegion(p, n) && m != n ==> Disjoint(OwnRegion(p, m), OwnRegion(p, n)))
  }

  ghost function OwnRegion(p: PerformanceProfile, n: string): seq<int>
    requires Valid(p) && OwnsRegion(p, n)
  {
    RegionIs(p, n);
    Parsed(p.componentMap[n].cpus).value
  }

  lemma RegionsFitIff(p: PerformanceProfile)
    requires Valid(p)
    ensures RegionsFit(p) <==> RegionsGood(p)
  {
    hide Valid, OwnsRegion, IsFixed, OverrideOf, IsolatedPool, Inside, Disjoint, OwnRegion;
    forall n
      ensures OwnsRegion(p, n) <==> IsFixed(p, n)
      ensures OwnsRegion(p, n) ==> OwnRegion(p, n) == OverrideOf(p, n)
      ensures OwnsRegion(p, n) ==> n in p.componentMap.Keys
    {
      RegionOf(p, n);
    }
  }

  lemma RegionOf(p: PerformanceProfile, n: string)
    requires Valid(p)
    ensures OwnsRegion(p, n) <==> IsFixed(p, n)
    ensures OwnsRegion(p, n) ==> OwnRegion(p, n) == OverrideOf(p, n) && n in p.componentMap.Keys
  {
    hide Valid, Parsed, OverrideOf;
    RegionIs(p, n);
  }

  // The workload pool of a plan is its isolated pool without the exclusive
  // overrides.
  lemma WorkloadIs(p: PerformanceProfile, flat: seq<FlatProcess>, plan: Plan, c: int)
    requires PlanOf(p, flat) == Ok(plan)
    ensures Valid(p) && RegionsGood(p)
    ensures c in plan.workloadCPUs <==>
              c in plan.isolated && forall n :: OwnsRegion(p, n) ==> c !in OwnRegion(p, n)
  {
    PlanShape(p, flat, plan);
    hide PlanOf, Valid, RegionsFit, RegionsGood, Carve, Others, VictimCPUs, ExclusivesApart, OwnsRegion, IsFixed,
      OverrideOf, IsolatedPool, WorkloadPool, OwnRegion;
    RegionsFitIff(p);
    InWorkload(p, c);
    forall n
      ensures OwnsRegion(p, n) <==> IsFixed(p, n)
      ensures OwnsRegion(p, n) ==> OwnRegion(p, n) == OverrideOf(p, n) && n in p.componentMap.Keys
    {
      RegionOf(p, n);
    }
    assert c in plan.workloadCPUs <==> c in Elems(plan.workloadCPUs);
    assert c in plan.isolated <==> c in Elems(plan.isolated);
  }
}
