// Small profiles on which the planner keeps less than its comments say: a
// host with reserved CPU 0 and isolated CPUs 4-7.
module Witnesses {
  import opened GoStrings
  import opened IntLists
  import opened CPULists
  import opened CPUListLaws
  import opened Topology
  import opened Profile
  import opened Planner
  import opened PlanFacts
  import opened Isolation
  import opened PlanLaws
  import opened Confinement
  import opened Success
  import opened Completeness
  import opened UnitNames

  const RESERVED := "0"
  const ISOLATED := "4-7"

  function Example(entries: map<string, ComponentTuning>, defaultClass: TuningClass): PerformanceProfile {
    PerformanceProfile("", "", RESERVED, ISOLATED, "", "", [], "", false, false, false, entries, defaultClass)
  }

  // The component map has an entry for the victim only, with all isolated
  // CPUs.
  function VictimEntry(cls: TuningClass): map<string, ComponentTuning> {
    map[VICTIM := ComponentTuning(cls, ISOLATED, 0, 0, 0)]
  }

  function Etcd(): FlatProcess {
    FlatProcess("etcd", "", 0, 1, ReplicaID("etcd", 0))
  }

  // ---------- The pools ----------

  lemma Texts()
    ensures RunText(Run(0, 0)) == RESERVED && RunText(Run(4, 7)) == ISOLATED
  {
    assert DigitsOf(0) == "0" && DigitsOf(4) == "4" && DigitsOf(7) == "7";
  }

  lemma PoolIs(text: string, r: Run, l: seq<int>)
    requires 0 <= r.lo <= r.hi <= MAX_INT && RunText(r) == text
    requires Canonical(l) && Elems(l) == Interval(r.lo, r.hi)
    ensures Parsed(text) == Ok(l) && PoolOf(text) == l
  {
    hide CPUSetOf, RunText;
    RunTextParses(r);
    SortedListOfElems(l);
  }

  lemma Pools()
    ensures Parsed(RESERVED) == Ok([0]) && PoolOf(RESERVED) == [0]
    ensures Parsed(ISOLATED) == Ok([4, 5, 6, 7]) && PoolOf(ISOLATED) == [4, 5, 6, 7]
  {
    Texts();
    Members();
    hide Parsed, PoolOf, RunText, Interval;
    PoolIs(RESERVED, Run(0, 0), [0]);
    PoolIs(ISOLATED, Run(4, 7), [4, 5, 6, 7]);
  }

  lemma Members()
    ensures Elems([0]) == Interval(0, 0)
    ensures Elems([4, 5, 6, 7]) == Interval(4, 7)
  {
    var l := [4, 5, 6, 7];
    assert l[0] in l && l[1] in l && l[2] in l && l[3] in l;
  }

  lemma ExampleValid(entries: map<string, ComponentTuning>, defaultClass: TuningClass)
    requires defaultClass.Unset? || defaultClass.Known()
    requires forall n <- entries.Keys ::
               entries[n].cls.Known() && entries[n].cpus in {"", ISOLATED} && entries[n].rtPriority == 0
    ensures Valid(Example(entries, defaultClass))
    ensures ReservedPool(Example(entries, defaultClass)) == [0]
    ensures IsolatedPool(Example(entries, defaultClass)) == [4, 5, 6, 7]
  {
    Pools();
    hide Parsed, PoolOf;
    var p := Example(entries, defaultClass);
    assert ReservedPool(p) == [0] && IsolatedPool(p) == [4, 5, 6, 7];
    forall f: Fault
      ensures !HasFault(p, f)
    {
    }
  }

  // ---------- The victim and the workload pool ----------

  lemma NoEntries(defaultClass: TuningClass)
    requires defaultClass.Unset? || defaultClass.Known()
    ensures var p := Example(map[], defaultClass);
            Plannable(p) && IsDefaulted(p) && forall n :: !IsFixed(p, n)
  {
    ExampleValid(map[], defaultClass);
    NoOverrideText();
    EmptyMapFits(Example(map[], defaultClass));
    hide Valid, IsolatedPool, PoolOf, RegionsFit;
  }

  lemma EmptyMapFits(p: PerformanceProfile)
    requires p.componentMap == map[]
    ensures RegionsFit(p)
  {
    hide OverrideOf, IsolatedPool;
  }

  // A victim without an entry runs in the plan's workload pool.
  lemma DefaultedVictimInWorkload()
    ensures PlanOf(Example(map[], Unset), []).Ok?
    ensures var plan := PlanOf(Example(map[], Unset), []).value; !Disjoint(plan.victimCPUs, plan.workloadCPUs)
  {
    var p := Example(map[], Unset);
    NoEntries(Unset);
    hide PlanOf, Valid, RegionsFit, Carve, Others, VictimCPUs, ExclusivesApart, WorkloadPool, IsolatedPool, IsFixed,
      Plannable, IsDefaulted, VictimAssignment, Disjoint, Inside;
    NoProcessPlan(p);
    var plan := PlanOf(p, []).value;
    PlanShape(p, [], plan);
    DefaultedVictim(p, Others(p, []), plan.victimCPUs);
    MeetsWorkload(p, plan.victimCPUs);
  }

  lemma MeetsWorkload(p: PerformanceProfile, v: seq<int>)
    requires |v| > 0 && Inside(v, IsolatedPool(p)) && forall n :: !IsFixed(p, n)
    ensures !Disjoint(v, WorkloadPool(p))
  {
    hide IsolatedPool, WorkloadPool, IsFixed;
    assert v[0] in Elems(v);
    InWorkload(p, v[0]);
    Meet(v, WorkloadPool(p), v[0]);
  }

  // ---------- An unprotected victim ----------

  lemma VictimOverride(cls: TuningClass, defaultClass: TuningClass)
    ensures OverrideOf(Example(VictimEntry(cls), defaultClass), VICTIM) == [4, 5, 6, 7]
    ensures !IsDefaulted(Example(VictimEntry(cls), defaultClass))
  {
    Pools();
    hide Parsed, PoolOf;
  }

  lemma VictimRegions(cls: TuningClass, defaultClass: TuningClass)
    ensures RegionsFit(Example(VictimEntry(cls), defaultClass))
  {
    VictimOverride(cls, defaultClass);
    Pools();
    hide Parsed, PoolOf;
  }

  // Without fixed regions the workload pool is the isolated pool.
  lemma AllIsWorkload(p: PerformanceProfile)
    requires forall n :: !IsFixed(p, n)
    ensures WorkloadPool(p) == IsolatedPool(p)
  {
    hide IsolatedPool, WorkloadPool, IsFixed;
    forall c
      ensures c in Elems(WorkloadPool(p)) <==> c in Elems(IsolatedPool(p))
    {
      InWorkload(p, c);
    }
    assert Elems(WorkloadPool(p)) == Elems(IsolatedPool(p));
    WorkloadInside(p);
    IsolatedCanonical(p);
    CanonicalUnique(WorkloadPool(p), IsolatedPool(p));
  }

  lemma IsolatedCanonical(p: PerformanceProfile)
    ensures Canonical(IsolatedPool(p))
  {
    hide PoolOf;
  }

  lemma NotVictim()
    ensures Etcd().component != VICTIM && Numbered([Etcd()])
  {
    assert "etcd"[0] != VICTIM[0];
    OneNumbered(Etcd());
  }

  lemma EtcdDemand(cls: TuningClass)
    ensures var p := Example(VictimEntry(cls), Unset);
            DemandOf(p, Etcd()) == Front(1) && !IsExclusive(p, Etcd())
  {
    NotVictim();
    assert Etcd().component !in VictimEntry(cls);
  }

  lemma BurstableNotFixed(defaultClass: TuningClass)
    ensures forall n :: !IsFixed(Example(VictimEntry(Burstable), defaultClass), n)
  {
  }

  lemma FrontOfPool(p: PerformanceProfile, fp: FlatProcess)
    requires DemandOf(p, fp) == Front(1) && !IsExclusive(p, fp) && |WorkloadPool(p)| > 0
    ensures RunsOn(p, fp, WorkloadPool(p)[0])
  {
    hide WorkloadPool, DemandOf, ClassOf;
    assert WorkloadPool(p)[0] in WorkloadPool(p)[0..1];
  }

  lemma EtcdOnFour()
    ensures RunsOn(Example(VictimEntry(Burstable), Unset), Etcd(), 4)
  {
    var p := Example(VictimEntry(Burstable), Unset);
    ExampleValid(VictimEntry(Burstable), Unset);
    BurstableNotFixed(Unset);
    AllIsWorkload(p);
    EtcdDemand(Burstable);
    hide *;
    FrontOfPool(p, Etcd());
  }

  // A burstable victim on 4-7 shares CPU 4 with a burstable process.
  lemma BurstableVictimHit()
    ensures var p := Example(VictimEntry(Burstable), Unset);
            && Valid(p) && RegionsFit(p) && !Protected(p)
            && Numbered([Etcd()]) && Avoids([Etcd()], {VICTIM})
            && PlanOf(p, [Etcd()]).Ok? && !VictimIsolated(PlanOf(p, [Etcd()]).value)
  {
    var p := Example(VictimEntry(Burstable), Unset);
    ExampleValid(VictimEntry(Burstable), Unset);
    VictimOverride(Burstable, Unset);
    VictimRegions(Burstable, Unset);
    EtcdOnFour();
    NotVictim();
    hide Valid, RegionsFit, PlanOf, OverrideOf, Numbered, CPUsFor, DemandOf, WorkloadPool, IsolatedPool, ReservedPool,
      IsDefaulted;
    var plan := SoloPlan(p, Etcd());
    assert 4 in [4, 5, 6, 7];
    Meet(plan.assignments[0].cpus, plan.victimCPUs, 4);
  }

  lemma NoWayIn()
    ensures var p := Example(VictimEntry(Burstable), Reserved);
            p.componentMap.Keys == {VICTIM} && !WorkloadOpen(p, {VICTIM})
  {
  }

  // Where every name of the component map is barred and the default class does
  // not open the workload pool, isolated CPUs are unexposed.
  lemma UnexposedWhen(p: PerformanceProfile, barred: set<string>)
    requires Valid(p) && Inside(OverrideOf(p, VICTIM), IsolatedPool(p))
    requires !WorkloadOpen(p, barred) && p.componentMap.Keys <= barred
    ensures Unexposed(p, barred)
  {
    hide Valid, ReservedPool, IsolatedPool, WorkloadPool, OverrideOf, WorkloadOpen, SharedPin, Inside;
    ReservedApart(p, OverrideOf(p, VICTIM));
  }

  // With reserved as the default class, the same victim is isolated in every
  // run without a namesake; a namesake could still share its CPUs.
  lemma BurstableVictimSpared()
    ensures var p := Example(VictimEntry(Burstable), Reserved);
            && Valid(p) && RegionsFit(p) && !Protected(p) && Unexposed(p, {VICTIM}) && !Unexposed(p, {})
  {
    var p := Example(VictimEntry(Burstable), Reserved);
    ExampleValid(VictimEntry(Burstable), Reserved);
    VictimOverride(Burstable, Reserved);
    VictimRegions(Burstable, Reserved);
    NoWayIn();
    NamesakeReaches();
    BurstableClass(Reserved);
    assert 4 in [4, 5, 6, 7];
    assert Inside([4, 5, 6, 7], [4, 5, 6, 7]);
    hide Valid, RegionsFit, OverrideOf, Exposed, IsolatedPool, IsDefaulted, WorkloadOpen, VictimClass, Inside;
    UnexposedWhen(p, {VICTIM});
  }

  lemma BurstableClass(defaultClass: TuningClass)
    ensures !VictimClass(Example(VictimEntry(Burstable), defaultClass)).IsolatedExclusive?
  {
  }

  lemma NamesakeReaches()
    ensures Exposed(Example(VictimEntry(Burstable), Reserved), {}, 4)
  {
    var p := Example(VictimEntry(Burstable), Reserved);
    VictimOverride(Burstable, Reserved);
    hide ReservedPool, WorkloadPool, OverrideOf;
    assert 4 in [4, 5, 6, 7];
    assert VICTIM in p.componentMap.Keys && SharedPin(p, VICTIM) && 4 in Elems(OverrideOf(p, VICTIM));
  }

  // ---------- An empty cpuset ----------

  // With a victim exclusively on all isolated CPUs, a burstable process gets
  // an empty cpuset: the plan isolates the victim and does not shield it.
  lemma IsolatedNotShielded()
    ensures var p := Example(VictimEntry(IsolatedExclusive), Unset);
            && PlanOf(p, [Etcd()]).Ok?
            && VictimIsolated(PlanOf(p, [Etcd()]).value) && !VictimShielded(PlanOf(p, [Etcd()]).value)
  {
    var p := Example(VictimEntry(IsolatedExclusive), Unset);
    ExampleValid(VictimEntry(IsolatedExclusive), Unset);
    VictimOverride(IsolatedExclusive, Unset);
    VictimRegions(IsolatedExclusive, Unset);
    EtcdGetsNothing();
    hide Valid, RegionsFit, PlanOf, OverrideOf, VictimIsolated, VictimShielded, GetsNothing, IsolatedPool;
    NothingPlan(p, Etcd());
    var plan := PlanOf(p, [Etcd()]).value;
    ProtectedVictimIsolated(p, [Etcd()], plan);
    ProtectedShieldedIff(p, [Etcd()], plan);
    assert [Etcd()][0] == Etcd();
  }

  lemma NoWorkload()
    ensures |WorkloadPool(Example(VictimEntry(IsolatedExclusive), Unset))| == 0
  {
    var p := Example(VictimEntry(IsolatedExclusive), Unset);
    ExampleValid(VictimEntry(IsolatedExclusive), Unset);
    VictimOverride(IsolatedExclusive, Unset);
    hide Valid, OverrideOf, IsolatedPool, WorkloadPool;
    assert IsFixed(p, VICTIM) && VICTIM in p.componentMap.Keys;
    forall c
      ensures c !in Elems(WorkloadPool(p))
    {
      InWorkload(p, c);
    }
    EmptyIfNone(Elems(WorkloadPool(p)));
    WorkloadInside(p);
    CanonicalSize(WorkloadPool(p));
  }

  lemma EtcdGetsNothing()
    ensures GetsNothing(Example(VictimEntry(IsolatedExclusive), Unset), Etcd())
  {
    NoWorkload();
    hide WorkloadPool, OverrideOf;
    assert "etcd"[0] != VICTIM[0];
    assert DemandOf(Example(VictimEntry(IsolatedExclusive), Unset), Etcd()) == Front(1);
  }

  // ---------- Two names for one unit ----------

  function First(name: string): FlatProcess {
    FlatProcess(name, "", 0, 1, ReplicaID(name, 0))
  }

  lemma PairNumbered(a: string, b: string)
    requires a != b
    ensures Numbered([First(a), First(b)])
  {
    var flat := [First(a), First(b)];
    hide ReplicaID;
    assert flat[..0] == [] && flat[..1] == [First(a)] && [First(a)][..0] == [];
    assert CountOf([First(a)], b) == 0;
    assert forall i | 0 <= i < |flat| :: flat[i].replicaID == ReplicaID(flat[i].component, 0);
  }

  lemma ReservedDemand(fp: FlatProcess)
    ensures DemandOf(Example(map[], Reserved), fp) == OnReserved
  {
  }

  lemma OnReservedFits(p: PerformanceProfile, flat: seq<FlatProcess>)
    requires Valid(p) && RegionsFit(p) && IsDefaulted(p) && |WorkloadPool(p)| >= 4 && TotalWidth(p, flat) == 0
    requires forall i | 0 <= i < |flat| :: flat[i].component != VICTIM && DemandOf(p, flat[i]) == OnReserved
    ensures Fits(p, flat)
  {
    hide Valid, RegionsFit, WorkloadPool, IsDefaulted, TotalWidth, DemandOf, VictimClass;
  }

  lemma OnReservedPlan(flat: seq<FlatProcess>)
    requires |flat| == 2 && forall i | 0 <= i < 2 :: flat[i].component != VICTIM
    ensures PlanOf(Example(map[], Reserved), flat).Ok?
  {
    var p := Example(map[], Reserved);
    NoEntries(Reserved);
    PlannableParts(p);
    ExampleValid(map[], Reserved);
    AllIsWorkload(p);
    assert |WorkloadPool(p)| == 4;
    hide *;
    forall i | 0 <= i < 2
      ensures DemandOf(p, flat[i]) == OnReserved
    {
      ReservedDemand(flat[i]);
    }
    NothingCarved(p, flat);
    OnReservedFits(p, flat);
    PlanExists(p, flat);
  }

  lemma PlannableParts(p: PerformanceProfile)
    requires Plannable(p)
    ensures Valid(p) && RegionsFit(p)
  {
  }

  lemma NothingCarved(p: PerformanceProfile, flat: seq<FlatProcess>)
    requires |flat| == 2 && forall i | 0 <= i < 2 :: DemandOf(p, flat[i]) == OnReserved
    ensures TotalWidth(p, flat) == 0
  {
    hide DemandOf;
    assert flat[..1][..0] == [];
    assert TailWidth(p, flat[..1]) == 0 && FrontWidth(p, flat[..1]) == 0;
  }

  // Components "a.b" and "a_b" share the scope and the cgroup of their first
  // replicas.
  lemma DottedNameShares()
    ensures var p, flat := Example(map[], Reserved), [First("a.b"), First("a_b")];
            && Numbered(flat) && PlanOf(p, flat).Ok? && !UnitsDistinct(PlanOf(p, flat).value.assignments)
  {
    var p, flat := Example(map[], Reserved), [First("a.b"), First("a_b")];
    assert "a.b"[1] != "a_b"[1] && |"a.b"| != |VICTIM| && |"a_b"| != |VICTIM|;
    PairNumbered("a.b", "a_b");
    OnReservedPlan(flat);
    SanitisedAlike();
    hide PlanOf, Numbered, Sanitise, UnitsDistinct, ReplicaID;
    assert flat[0].component == "a.b" && flat[1].component == "a_b";
    assert !NamesApart(flat);
    UnitsDistinctIff(p, flat, PlanOf(p, flat).value);
  }

  lemma SanitisedAlike()
    ensures Sanitise("a.b") == Sanitise("a_b")
  {
    var s, t := "a.b", "a_b";
    assert s[..2] == "a." && t[..2] == "a_" && s[..2][..1] == "a" && t[..2][..1] == "a";
    assert CleanChar('.') == "_" && CleanChar('_') == "_";
    assert Sanitise("a.") == Sanitise("a") + "_" && Sanitise("a_") == Sanitise("a") + "_";
  }
}
