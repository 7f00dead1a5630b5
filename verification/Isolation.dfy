// The planner's purpose: the victim's CPUs are in no other cpuset of the run.
// When a plan guarantees it and when it does not. What an empty cpuset means
// for a process is the subject of module Confinement.
module Isolation {
  import opened GoStrings
  import opened IntLists
  import opened Topology
  import opened Profile
  import opened Planner
  import opened PlanFacts

  // The victim has CPUs, all isolated, and no other row's cpuset has one of
  // them.
  ghost predicate VictimIsolated(plan: Plan) {
    && |plan.victimCPUs| > 0
    && Inside(plan.victimCPUs, plan.isolated)
    && Disjoint(plan.victimCPUs, plan.reserved)
    && |plan.assignments| > 0
    && forall i | 0 <= i < |plan.assignments| - 1 :: Disjoint(plan.assignments[i].cpus, plan.victimCPUs)
  }

  // The component map does not give the victim both a non-exclusive class and
  // CPUs of its own.
  ghost predicate Protected(p: PerformanceProfile) {
    VictimClass(p).IsolatedExclusive? || IsDefaulted(p)
  }

  // ---------- Protected victims ----------

  lemma OverrideNeedsText(p: PerformanceProfile, component: string)
    requires |OverrideOf(p, component)| > 0
    ensures component in p.componentMap && p.componentMap[component].cpus != ""
  {
    hide PoolOf;
    NoOverrideText();
  }

  // A victim with an exclusive class and CPUs of its own is a fixed region.
  lemma FixedVictim(p: PerformanceProfile)
    requires Valid(p) && VictimClass(p).IsolatedExclusive? && !IsDefaulted(p)
    ensures IsFixed(p, VICTIM)
  {
    hide Valid, OverrideOf;
    OverrideNeedsText(p, VICTIM);
    ValidOverride(p, VICTIM);
  }

  // A defaulted victim gets four CPUs that are isolated and unused.
  lemma DefaultedVictim(p: PerformanceProfile, rows: seq<Assignment>, v: seq<int>)
    requires IsDefaulted(p) && VictimCPUs(p, rows) == Some(v)
    ensures |v| == 4 && Canonical(v)
    ensures Inside(v, IsolatedPool(p))
    ensures forall i | 0 <= i < |rows| :: Disjoint(rows[i].cpus, v)
  {
    hide IsolatedPool, IsDefaulted, OverrideOf, Disjoint, IsUsed;
    var free := Unused(p, rows);
    SliceInside(free, |free| - DEFAULT_VICTIM_WIDTH, |free|);
    forall c | c in Elems(v)
      ensures c in Elems(IsolatedPool(p)) && !IsUsed(rows, c)
    {
      assert c in Elems(free);
    }
    forall i | 0 <= i < |rows|
      ensures Disjoint(rows[i].cpus, v)
    {
      NotUsed(rows, i, v);
    }
  }

  lemma NotUsed(rows: seq<Assignment>, i: nat, v: seq<int>)
    requires i < |rows| && forall c <- Elems(v) :: !IsUsed(rows, c)
    ensures Disjoint(rows[i].cpus, v)
  {
    forall c | c in Elems(rows[i].cpus)
      ensures c !in Elems(v)
    {
      assert IsUsed(rows, c);
    }
  }

  lemma ReservedApart(p: PerformanceProfile, v: seq<int>)
    requires Valid(p) && Inside(v, IsolatedPool(p))
    ensures Disjoint(v, ReservedPool(p))
  {
    hide Valid, ReservedPool, IsolatedPool;
    ValidPools(p);
    DisjointSymmetric(ReservedPool(p), IsolatedPool(p));
    SubsetDisjoint(v, IsolatedPool(p), ReservedPool(p));
  }

  // An exclusive victim is never placed on the reserved pool.
  lemma ExclusiveVictimApart(p: PerformanceProfile, rows: seq<Assignment>, v: seq<int>)
    requires Valid(p) && RegionsFit(p) && VictimClass(p).IsolatedExclusive? && VictimCPUs(p, rows) == Some(v)
    ensures Disjoint(v, ReservedPool(p))
  {
    hide Valid, RegionsFit, ReservedPool, IsolatedPool, OverrideOf, Disjoint;
    if IsDefaulted(p) {
      DefaultedVictim(p, rows, v);
    } else {
      FixedVictim(p);
      RegionOutsideWorkload(p, VICTIM);
    }
    ReservedApart(p, v);
  }

  // The last row, when exclusive, meets no other row.
  lemma LastRowApart(rows: seq<Assignment>, last: Assignment)
    requires ExclusivesApart(rows + [last]) && last.exclusive
    ensures forall i | 0 <= i < |rows| :: Disjoint(rows[i].cpus, last.cpus)
  {
    hide Disjoint;
    var all := rows + [last];
    forall i | 0 <= i < |rows|
      ensures Disjoint(rows[i].cpus, last.cpus)
    {
      assert all[|rows|] == last && all[i] == rows[i];
      DisjointSymmetric(last.cpus, rows[i].cpus);
    }
  }

  lemma ProtectedPlacement(p: PerformanceProfile, rows: seq<Assignment>, v: seq<int>)
    requires Valid(p) && RegionsFit(p) && Protected(p)
    requires VictimCPUs(p, rows) == Some(v) && ExclusivesApart(rows + [VictimAssignment(p, v)])
    ensures |v| > 0 && Inside(v, IsolatedPool(p)) && Disjoint(v, ReservedPool(p))
    ensures forall i | 0 <= i < |rows| :: Disjoint(rows[i].cpus, v)
  {
    hide Valid, RegionsFit, Disjoint, ReservedPool, IsolatedPool, WorkloadPool, Inside, ExclusivesApart;
    if IsDefaulted(p) {
      DefaultedVictim(p, rows, v);
    } else {
      FixedVictim(p);
      RegionOutsideWorkload(p, VICTIM);
      LastRowApart(rows, VictimAssignment(p, v));
    }
    ReservedApart(p, v);
  }

  // Every successful plan isolates a protected victim.
  lemma ProtectedVictimIsolated(p: PerformanceProfile, flat: seq<FlatProcess>, plan: Plan)
    requires PlanOf(p, flat) == Ok(plan) && Protected(p)
    ensures VictimIsolated(plan)
  {
    PlanShape(p, flat, plan);
    hide PlanOf, Valid, RegionsFit, Disjoint, ReservedPool, IsolatedPool, WorkloadPool, Others, Carve, Inside,
      ExclusivesApart, VictimCPUs, VictimAssignment, Protected;
    ProtectedPlacement(p, Others(p, flat), plan.victimCPUs);
  }

  // A victim's cpuset is never empty, protected or not.
  lemma VictimHasCPUs(p: PerformanceProfile, flat: seq<FlatProcess>, plan: Plan)
    requires PlanOf(p, flat) == Ok(plan)
    ensures |plan.victimCPUs| > 0
  {
    PlanShape(p, flat, plan);
    hide PlanOf, Valid, RegionsFit, Others, Carve, ExclusivesApart;
    if IsDefaulted(p) {
      DefaultedVictim(p, Others(p, flat), plan.victimCPUs);
    }
  }

  // ---------- Unprotected victims ----------

  predicate Shareable(cls: TuningClass) {
    cls.IsolatedShared? || cls.Burstable?
  }

  // The processes bear none of the barred names. With {VICTIM} barred, no
  // worker is the victim's namesake; with {}, every list is meant.
  predicate Avoids(flat: seq<FlatProcess>, barred: set<string>) {
    forall i | 0 <= i < |flat| :: flat[i].component !in barred
  }

  // A process of this class is carved from, or spread over, the workload pool
  // without having it to itself.
  predicate OpensWorkload(p: PerformanceProfile, cls: TuningClass, cpus: string) {
    cls.BestEffort? || (Shareable(cls) && cpus == "")
  }

  ghost predicate WorkloadOpen(p: PerformanceProfile, barred: set<string>) {
    || OpensWorkload(p, EffectiveDefaultClass(p), "")
    || exists n <- p.componentMap.Keys ::
         n !in barred && OpensWorkload(p, p.componentMap[n].cls, p.componentMap[n].cpus)
  }

  // A non-exclusive process with a name that is not barred can run on this
  // CPU.
  ghost predicate Exposed(p: PerformanceProfile, barred: set<string>, c: int) {
    || c in Elems(ReservedPool(p))
    || (WorkloadOpen(p, barred) && c in Elems(WorkloadPool(p)))
    || exists n <- p.componentMap.Keys :: n !in barred && SharedPin(p, n) && c in Elems(OverrideOf(p, n))
  }

  predicate SharedPin(p: PerformanceProfile, n: string) {
    n in p.componentMap && Shareable(p.componentMap[n].cls) && p.componentMap[n].cpus != ""
  }

  // The victim's own CPUs are isolated and none of them is exposed.
  ghost predicate Unexposed(p: PerformanceProfile, barred: set<string>) {
    && Inside(OverrideOf(p, VICTIM), IsolatedPool(p))
    && forall c <- Elems(OverrideOf(p, VICTIM)) :: !Exposed(p, barred, c)
  }

  // A non-exclusive process only gets exposed CPUs.
  lemma NonExclusiveIsExposed(p: PerformanceProfile, barred: set<string>, fp: FlatProcess, w: Window, c: int)
    requires fp.component !in barred
    requires Valid(p) && w.lo <= w.hi <= |WorkloadPool(p)|
    requires !ClassOf(p, fp.component).IsolatedExclusive?
    requires c in Elems(CPUsFor(p, fp.component, DemandOf(p, fp), w))
    ensures Exposed(p, barred, c)
  {
    hide Valid, ReservedPool, WorkloadPool, OverrideOf;
    var n := fp.component;
    if n in p.componentMap {
      ValidOverride(p, n);
      assert n in p.componentMap.Keys;
    }
    match DemandOf(p, fp)
    case OnReserved =>
    case Pinned => assert SharedPin(p, n);
    case Front(k) =>
      SliceInside(WorkloadPool(p), w.lo, w.After(k));
      assert c in Elems(WorkloadPool(p));
      WorkloadOpenedBy(p, barred, n);
    case WholePool => WorkloadOpenedBy(p, barred, n);
    case Tail(_) =>
    case Refused =>
  }

  lemma WorkloadOpenedBy(p: PerformanceProfile, barred: set<string>, n: string)
    requires n !in barred
    requires n in p.componentMap ==> p.componentMap[n].cls.Known()
    requires OpensWorkload(p, ClassOf(p, n), TuningOf(p, n).cpus)
    ensures WorkloadOpen(p, barred)
  {
    if n in p.componentMap {
      assert n in p.componentMap.Keys;
    }
  }

  lemma UnexposedVictimIsolated(p: PerformanceProfile, barred: set<string>, flat: seq<FlatProcess>, plan: Plan)
    requires PlanOf(p, flat) == Ok(plan) && !IsDefaulted(p) && Unexposed(p, barred) && Avoids(flat, barred)
    ensures VictimIsolated(plan)
  {
    PlanShape(p, flat, plan);
    PlanRows(p, flat, plan);
    hide PlanOf, Valid, RegionsFit, Disjoint, ReservedPool, IsolatedPool, WorkloadPool, Others, Carve, Inside, Exposed,
      CPUsFor, DemandOf;
    var v := plan.victimCPUs;
    ReservedApart(p, v);
    forall i | 0 <= i < |plan.assignments| - 1
      ensures Disjoint(plan.assignments[i].cpus, v)
    {
      var row := plan.assignments[i];
      if row.exclusive {
        assert Disjoint(row.cpus, plan.assignments[|flat| + 1].cpus);
      } else if i < |flat| {
        forall c | c in Elems(row.cpus)
          ensures Exposed(p, barred, c)
        {
          NonExclusiveIsExposed(p, barred, flat[i], WindowAt(p, flat, i), c);
        }
        ExposedApart(p, barred, row.cpus, v);
      } else {
        DisjointSymmetric(ReservedPool(p), v);
      }
    }
  }

  lemma ExposedApart(p: PerformanceProfile, barred: set<string>, cpus: seq<int>, v: seq<int>)
    requires forall c <- Elems(cpus) :: Exposed(p, barred, c)
    requires forall c <- Elems(v) :: !Exposed(p, barred, c)
    ensures Disjoint(cpus, v)
  {
    hide Exposed;
  }

  // ---------- An exposed victim is hit ----------

  // With no process, or with one non-exclusive process, a plan exists and
  // gives the victim its own CPUs.
  lemma EmptyPlan(p: PerformanceProfile) returns (plan: Plan)
    requires Valid(p) && RegionsFit(p) && !Protected(p)
    ensures PlanOf(p, []) == Ok(plan)
    ensures plan.victimCPUs == OverrideOf(p, VICTIM) && plan.isolated == IsolatedPool(p)
        && plan.reserved == ReservedPool(p)
  {
    hide Valid, RegionsFit, OverrideOf, ReservedPool, IsolatedPool, WorkloadPool, Disjoint;
    plan := PlanOf(p, []).value;
  }

  lemma SoloPlan(p: PerformanceProfile, fp: FlatProcess) returns (plan: Plan)
    requires Valid(p) && RegionsFit(p) && !Protected(p)
    requires !ClassOf(p, fp.component).IsolatedExclusive? && !DemandOf(p, fp).Refused?
    ensures PlanOf(p, [fp]) == Ok(plan)
    ensures plan.victimCPUs == OverrideOf(p, VICTIM)
    ensures |plan.assignments| == 3
    ensures plan.assignments[0].cpus == CPUsFor(p, fp.component, DemandOf(p, fp), Window(0, |WorkloadPool(p)|))
  {
    hide Valid, RegionsFit, OverrideOf, ReservedPool, IsolatedPool, WorkloadPool, Disjoint, ClassOf, CPUsFor, PlanOf;
    SoloCarve(p, fp);
    var rows := Others(p, [fp]);
    var all := rows + [VictimAssignment(p, OverrideOf(p, VICTIM))];
    assert forall i | 0 <= i < |all| :: !all[i].exclusive;
    plan := Plan(ReservedPool(p), IsolatedPool(p), OverrideOf(p, VICTIM), WorkloadPool(p), all, HintsOf(p));
    SoloFinish(p, fp, plan);
  }

  lemma SoloCarve(p: PerformanceProfile, fp: FlatProcess)
    requires !ClassOf(p, fp.component).IsolatedExclusive? && !DemandOf(p, fp).Refused?
    ensures Carve(p, [fp]).Ok?
    ensures Workers(p, [fp]) == [WorkerAssignment(p, fp, Window(0, |WorkloadPool(p)|))]
  {
    hide WorkloadPool, ClassOf, TuningOf, WorkerAssignment;
    assert [fp][..0] == [];
  }

  lemma SoloFinish(p: PerformanceProfile, fp: FlatProcess, plan: Plan)
    requires Valid(p) && RegionsFit(p) && Carve(p, [fp]).Ok? && !IsDefaulted(p)
    requires plan.assignments == Others(p, [fp]) + [VictimAssignment(p, OverrideOf(p, VICTIM))]
    requires plan == Plan(ReservedPool(p), IsolatedPool(p), OverrideOf(p, VICTIM), WorkloadPool(p), plan.assignments,
        HintsOf(p))
    requires forall i | 0 <= i < |plan.assignments| :: !plan.assignments[i].exclusive
    ensures PlanOf(p, [fp]) == Ok(plan)
  {
    hide Valid, RegionsFit, OverrideOf, ReservedPool, IsolatedPool, WorkloadPool, Disjoint, Others, VictimAssignment,
      Carve;
  }

  // A name that no entry of a finite set has.
  lemma FreshName(names: set<string>) returns (name: string)
    ensures name !in names
  {
    var n := LongerThan(names);
    name := seq(n, _ => 'x');
    assert forall x <- names :: |x| < |name|;
  }

  lemma {:induction false} LongerThan(names: set<string>) returns (n: nat)
    ensures forall x <- names :: |x| < n
    decreases |names|
  {
    if names == {} {
      return 0;
    }
    var x := AnyOf(names);
    var m := LongerThan(names - {x});
    return if m <= |x| then |x| + 1 else m;
  }

  // A process that occupies the whole workload pool.
  lemma WholeWorkload(p: PerformanceProfile, component: string) returns (fp: FlatProcess)
    requires OpensWorkload(p, ClassOf(p, component), TuningOf(p, component).cpus)
    requires |WorkloadPool(p)| > 0
    ensures fp.component == component && fp.replicaID == ReplicaID(component, 0) && !DemandOf(p, fp).Refused?
    ensures CPUsFor(p, component, DemandOf(p, fp), Window(0, |WorkloadPool(p)|)) == WorkloadPool(p)
  {
    hide WorkloadPool, ClassOf, TuningOf;
    fp := FlatProcess(component, "", 0, |WorkloadPool(p)|, ReplicaID(component, 0));
  }

  // The process runs on the CPU when the whole workload pool is free.
  ghost predicate RunsOn(p: PerformanceProfile, fp: FlatProcess, c: int) {
    && !ClassOf(p, fp.component).IsolatedExclusive? && !DemandOf(p, fp).Refused?
    && c in Elems(CPUsFor(p, fp.component, DemandOf(p, fp), Window(0, |WorkloadPool(p)|)))
  }

  lemma PinnedProcess(p: PerformanceProfile, n: string, c: int) returns (fp: FlatProcess)
    requires SharedPin(p, n) && c in Elems(OverrideOf(p, n))
    ensures fp.component == n && fp.replicaID == ReplicaID(n, 0) && RunsOn(p, fp, c)
  {
    hide WorkloadPool, OverrideOf, ReplicaID;
    fp := FlatProcess(n, "", 0, 1, ReplicaID(n, 0));
    PinnedDemand(p, fp);
  }

  lemma WorkloadProcess(p: PerformanceProfile, n: string, c: int) returns (fp: FlatProcess)
    requires OpensWorkload(p, ClassOf(p, n), TuningOf(p, n).cpus) && c in Elems(WorkloadPool(p))
    ensures fp.component == n && fp.replicaID == ReplicaID(n, 0) && RunsOn(p, fp, c)
  {
    hide WorkloadPool, CPUsFor, DemandOf, ReplicaID, TuningOf;
    fp := WholeWorkload(p, n);
  }

  // A process on an exposed CPU that is not reserved.
  lemma ExposedProcess(p: PerformanceProfile, barred: set<string>, c: int) returns (fp: FlatProcess)
    requires Exposed(p, barred, c) && c !in Elems(ReservedPool(p))
    ensures fp.component !in barred && fp.replicaID == ReplicaID(fp.component, 0) && RunsOn(p, fp, c)
  {
    hide ReservedPool, WorkloadPool, OverrideOf, RunsOn, ReplicaID, WorkloadOpen, SharedPin, OpensWorkload;
    if exists n <- p.componentMap.Keys :: n !in barred && SharedPin(p, n) && c in Elems(OverrideOf(p, n)) {
      var n :| n in p.componentMap.Keys && n !in barred && SharedPin(p, n) && c in Elems(OverrideOf(p, n));
      fp := PinnedProcess(p, n, c);
    } else {
      var n := OpeningComponent(p, barred);
      fp := WorkloadProcess(p, n, c);
    }
  }

  // The process list that puts a process on an exposed CPU of the victim.
  lemma ExposedVictimHit(p: PerformanceProfile, barred: set<string>, c: int) returns (flat: seq<FlatProcess>)
    requires Valid(p) && RegionsFit(p) && !Protected(p)
    requires c in Elems(OverrideOf(p, VICTIM)) && Exposed(p, barred, c)
    ensures Avoids(flat, barred) && Numbered(flat) && PlanOf(p, flat).Ok? && !VictimIsolated(PlanOf(p, flat).value)
  {
    hide Valid, RegionsFit, Protected, Exposed, ReservedPool, IsolatedPool, WorkloadPool, OverrideOf, PlanOf, CPUsFor,
      DemandOf, ClassOf, Numbered, ReplicaID;
    if c in Elems(ReservedPool(p)) {
      NoneNumbered();
      var plan := EmptyPlan(p);
      Meet(plan.victimCPUs, plan.reserved, c);
      return [];
    }
    var fp := ExposedProcess(p, barred, c);
    OneNumbered(fp);
    var plan := SoloPlan(p, fp);
    Meet(plan.assignments[0].cpus, plan.victimCPUs, c);
    return [fp];
  }

  lemma NoneNumbered()
    ensures Numbered([])
  {
  }

  lemma OneNumbered(fp: FlatProcess)
    requires fp.replicaID == ReplicaID(fp.component, 0)
    ensures Numbered([fp])
  {
    assert [fp][..0] == [];
  }

  lemma PinnedDemand(p: PerformanceProfile, fp: FlatProcess)
    requires SharedPin(p, fp.component)
    ensures DemandOf(p, fp).Pinned? && !ClassOf(p, fp.component).IsolatedExclusive?
    ensures CPUsFor(p, fp.component, DemandOf(p, fp), Window(0, |WorkloadPool(p)|)) == OverrideOf(p, fp.component)
  {
    hide WorkloadPool, OverrideOf;
  }

  lemma OpeningComponent(p: PerformanceProfile, barred: set<string>) returns (component: string)
    requires WorkloadOpen(p, barred)
    ensures component !in barred && OpensWorkload(p, ClassOf(p, component), TuningOf(p, component).cpus)
  {
    if OpensWorkload(p, EffectiveDefaultClass(p), "") {
      component := FreshName(p.componentMap.Keys + barred);
    } else {
      component :| component in p.componentMap.Keys && component !in barred
                   && OpensWorkload(p, p.componentMap[component].cls, p.componentMap[component].cpus);
    }
  }

  // Exactly when the planner isolates the victim in every run of a profile:
  // the victim is protected, or its own CPUs happen to be isolated and out of
  // reach of every non-exclusive class that the profile lets a process have.
  // The runs are those that avoid any names one may choose to bar, of all
  // process lists or of flattened topologies only.
  lemma IsolationIff(p: PerformanceProfile, barred: set<string>)
    requires Valid(p) && RegionsFit(p)
    ensures (forall flat :: Avoids(flat, barred) && PlanOf(p, flat).Ok? ==> VictimIsolated(PlanOf(p, flat).value)) <==>
              Protected(p) || Unexposed(p, barred)
    ensures (forall flat :: Avoids(flat, barred) && Numbered(flat) && PlanOf(p, flat).Ok? ==>
                              VictimIsolated(PlanOf(p, flat).value)) <==>
              Protected(p) || Unexposed(p, barred)
  {
    hide Valid, RegionsFit, PlanOf, VictimIsolated, Exposed, ReservedPool, IsolatedPool, WorkloadPool, Numbered, Avoids;
    if Protected(p) || Unexposed(p, barred) {
      forall flat | Avoids(flat, barred) && PlanOf(p, flat).Ok?
        ensures VictimIsolated(PlanOf(p, flat).value)
      {
        if Protected(p) {
          ProtectedVictimIsolated(p, flat, PlanOf(p, flat).value);
        } else {
          UnexposedVictimIsolated(p, barred, flat, PlanOf(p, flat).value);
        }
      }
    } else {
      var flat := HitUnprotected(p, barred);
    }
  }

  lemma HitUnprotected(p: PerformanceProfile, barred: set<string>) returns (flat: seq<FlatProcess>)
    requires Valid(p) && RegionsFit(p) && !Protected(p) && !Unexposed(p, barred)
    ensures Avoids(flat, barred) && Numbered(flat) && PlanOf(p, flat).Ok? && !VictimIsolated(PlanOf(p, flat).value)
  {
    hide Valid, RegionsFit, PlanOf, Exposed, ReservedPool, IsolatedPool, WorkloadPool, Numbered;
    NoneNumbered();
    if !Inside(OverrideOf(p, VICTIM), IsolatedPool(p)) {
      var plan := EmptyPlan(p);
      return [];
    }
    var c :| c in Elems(OverrideOf(p, VICTIM)) && Exposed(p, barred, c);
    flat := ExposedVictimHit(p, barred, c);
  }
}
