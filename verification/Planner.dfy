// BuildPlan: which CPUs each process of a run is confined to.
//
// The plan is specified without the planner's pools and loops. Every process
// makes a demand; the processes before it leave a window of the workload pool
// free; the demand and the window give its CPUs. The method BuildPlan, which
// keeps the mutable pools of the source, is proved to return this plan.
module Planner {
  import opened GoStrings
  import opened IntLists
  import opened CPULists
  import opened Topology
  import opened Profile

  const VICTIM := "chaos-victim"
  const OBSERVER := "chaos-observer"
  const DEFAULT_VICTIM_WIDTH := 4

  datatype Assignment = Assignment(
    component: string,
    replicaID: string,
    cls: TuningClass,
    cpus: seq<int>,
    exclusive: bool,
    gomaxprocs: int,
    memoryMax: int,
    rtPriority: int)

  datatype Plan = Plan(
    reserved: seq<int>,
    isolated: seq<int>,
    victimCPUs: seq<int>,
    workloadCPUs: seq<int>,
    assignments: seq<Assignment>,
    hints: Hints)

  // What the plan passes on to the host's tuning.
  datatype Hints = Hints(
    hugepages: seq<HugepagePage>,
    realTime: bool,
    irqBanned: seq<int>,
    topologyPolicy: string,
    highPower: bool)

  datatype PlanError =
    | InvalidProfile
    | ExclusiveRefused
    | TooFewCPUs(component: string)
    | UnknownClass(component: string)
    | NoVictimRoom
    | ExclusiveOverlap

  // ---------- The fixed exclusive regions and the workload pool ----------

  function TuningOf(p: PerformanceProfile, component: string): ComponentTuning {
    if component in p.componentMap then p.componentMap[component] else ComponentTuning(Unset, "", 0, 0, 0)
  }

  function ClassOf(p: PerformanceProfile, component: string): TuningClass {
    var cls := TuningOf(p, component).cls;
    if cls.Unset? then EffectiveDefaultClass(p) else cls
  }

  // The component has CPUs of its own in the component map.
  predicate IsFixed(p: PerformanceProfile, component: string) {
    component in p.componentMap && p.componentMap[component].cls.IsolatedExclusive?
      && p.componentMap[component].cpus != ""
  }

  // The CPUs that the component map names for the component.
  ghost function OverrideOf(p: PerformanceProfile, component: string): seq<int> {
    PoolOf(TuningOf(p, component).cpus)
  }

  ghost predicate Inside(cpus: seq<int>, pool: seq<int>) {
    forall c <- Elems(cpus) :: c in Elems(pool)
  }

  // The fixed regions lie in the isolated pool and do not meet.
  ghost predicate RegionsFit(p: PerformanceProfile) {
    && (forall n <- p.componentMap.Keys :: IsFixed(p, n) ==> Inside(OverrideOf(p, n), IsolatedPool(p)))
    && (forall m, n :: IsFixed(p, m) && IsFixed(p, n) && m != n ==> Disjoint(OverrideOf(p, m), OverrideOf(p, n)))
  }

  ghost predicate InRegion(p: PerformanceProfile, names: set<string>, c: int) {
    exists n <- names :: IsFixed(p, n) && c in Elems(OverrideOf(p, n))
  }

  // Isolated minus the fixed regions.
  ghost function WorkloadPool(p: PerformanceProfile): seq<int> {
    SortedList(set c | c in Elems(IsolatedPool(p)) && !InRegion(p, p.componentMap.Keys, c))
  }

  // ---------- Demands ----------

  datatype Demand =
    | OnReserved         // the reserved pool
    | Pinned             // the CPUs of the component map
    | Tail(width: nat)   // a slice from the end of the free window, or nothing
    | Front(width: nat)  // a slice from its front, as much as there is
    | WholePool          // the whole workload pool
    | Refused

  function Width(fp: FlatProcess): nat {
    if fp.idealThreads <= 0 then 1 else fp.idealThreads
  }

  function DemandOf(p: PerformanceProfile, fp: FlatProcess): Demand {
    var cls, pinned := ClassOf(p, fp.component), TuningOf(p, fp.component).cpus != "";
    match cls
    case Reserved => OnReserved
    case IsolatedExclusive => if pinned then Pinned else Tail(Width(fp))
    case IsolatedShared => if pinned then Pinned else Front(Width(fp))
    case Burstable => if pinned then Pinned else Front(Width(fp))
    case BestEffort => WholePool
    case _ => Refused
  }

  // ---------- The free window ----------

  // The part workload[lo..hi] that is not carved yet.
  datatype Window = Window(lo: nat, hi: nat) {
    function Free(): int {
      hi - lo
    }

    // Where the window starts after up to n CPUs are taken from its front.
    function After(n: nat): nat {
      if Free() < n then hi else lo + n
    }
  }

  function NextWindow(w: Window, d: Demand, component: string): (r: Result<Window, PlanError>)
    requires w.lo <= w.hi
    ensures r.Ok? ==> w.lo <= r.value.lo <= r.value.hi <= w.hi
  {
    match d
    case Tail(n) => if w.Free() < n then Err(TooFewCPUs(component)) else Ok(Window(w.lo, w.hi - n))
    case Front(n) => Ok(Window(w.After(n), w.hi))
    case Refused => Err(UnknownClass(component))
    case _ => Ok(w)
  }

  // The window after the processes, or the error that stopped the carving.
  ghost function Carve(p: PerformanceProfile, flat: seq<FlatProcess>): (r: Result<Window, PlanError>)
    ensures r.Ok? ==> r.value.lo <= r.value.hi <= |WorkloadPool(p)|
  {
    if flat == [] then
      Ok(Window(0, |WorkloadPool(p)|))
    else
      var last := flat[|flat| - 1];
      var before := Carve(p, flat[..|flat| - 1]);
      if before.Err? then before else NextWindow(before.value, DemandOf(p, last), last.component)
  }

  // ---------- Assignments ----------

  // The CPUs for a demand when the window is free.
  ghost function CPUsFor(p: PerformanceProfile, component: string, d: Demand, w: Window): seq<int>
    requires w.lo <= w.hi <= |WorkloadPool(p)|
  {
    var pool := WorkloadPool(p);
    match d
    case OnReserved => ReservedPool(p)
    case Pinned => OverrideOf(p, component)
    case Tail(n) => if n <= w.Free() then pool[w.hi - n..w.hi] else []
    case Front(n) => if w.Free() == 0 then pool else pool[w.lo..w.After(n)]
    case WholePool => pool
    case Refused => []
  }

  ghost function WorkerAssignment(p: PerformanceProfile, fp: FlatProcess, w: Window): Assignment
    requires w.lo <= w.hi <= |WorkloadPool(p)|
  {
    var ct := TuningOf(p, fp.component);
    var cpus := CPUsFor(p, fp.component, DemandOf(p, fp), w);
    Assignment(
      fp.component, fp.replicaID, ClassOf(p, fp.component), cpus, ClassOf(p, fp.component).IsolatedExclusive?,
      if ct.gomaxprocsOverride > 0 then ct.gomaxprocsOverride else |cpus|, ct.memoryMaxBytes, ct.rtPriority)
  }

  ghost function Workers(p: PerformanceProfile, flat: seq<FlatProcess>): (rows: seq<Assignment>)
    requires Carve(p, flat).Ok?
    ensures |rows| == |flat|
  {
    if flat == [] then
      []
    else
      var front := flat[..|flat| - 1];
      Workers(p, front) + [WorkerAssignment(p, flat[|flat| - 1], Carve(p, front).value)]
  }

  ghost function ObserverAssignment(p: PerformanceProfile): Assignment {
    Assignment(OBSERVER, "", Reserved, ReservedPool(p), false, |ReservedPool(p)|, 0, 0)
  }

  // Workers and observer, in plan order.
  ghost function Others(p: PerformanceProfile, flat: seq<FlatProcess>): seq<Assignment>
    requires Carve(p, flat).Ok?
  {
    Workers(p, flat) + [ObserverAssignment(p)]
  }

  // ---------- The victim ----------

  function VictimClass(p: PerformanceProfile): TuningClass {
    var cls := TuningOf(p, VICTIM).cls;
    if cls.Unset? then IsolatedExclusive else cls
  }

  ghost predicate IsUsed(rows: seq<Assignment>, c: int) {
    exists i | 0 <= i < |rows| :: c in Elems(rows[i].cpus)
  }

  // Isolated CPUs that no assignment uses.
  ghost function Unused(p: PerformanceProfile, rows: seq<Assignment>): seq<int> {
    SortedList(set c | c in Elems(IsolatedPool(p)) && !IsUsed(rows, c))
  }

  // The victim has no CPUs of its own and gets the last free ones.
  ghost predicate IsDefaulted(p: PerformanceProfile) {
    |OverrideOf(p, VICTIM)| == 0
  }

  ghost function VictimCPUs(p: PerformanceProfile, rows: seq<Assignment>): Option<seq<int>> {
    if !IsDefaulted(p) then
      Some(OverrideOf(p, VICTIM))
    else
      var free := Unused(p, rows);
      if |free| < DEFAULT_VICTIM_WIDTH then None else Some(free[|free| - DEFAULT_VICTIM_WIDTH..])
  }

  ghost function VictimAssignment(p: PerformanceProfile, cpus: seq<int>): Assignment {
    Assignment(VICTIM, "", VictimClass(p), cpus, VictimClass(p).IsolatedExclusive?, |cpus|, 0,
      TuningOf(p, VICTIM).rtPriority)
  }

  // ---------- The plan ----------

  // An exclusive assignment meets no other one.
  ghost predicate ExclusivesApart(rows: seq<Assignment>) {
    forall i, j | 0 <= i < |rows| && 0 <= j < |rows| && i != j ::
      rows[i].exclusive ==> Disjoint(rows[i].cpus, rows[j].cpus)
  }

  ghost function HintsOf(p: PerformanceProfile): Hints {
    var banned := if p.irqBalancingDisabled then IsolatedPool(p) else [];
    Hints(p.hugepages, p.rtEnabled, banned, p.topologyPolicy, p.highPower)
  }

  ghost function Finish(p: PerformanceProfile, others: seq<Assignment>): Result<Plan, PlanError> {
    match VictimCPUs(p, others)
    case None => Err(NoVictimRoom)
    case Some(cpus) =>
      var all := others + [VictimAssignment(p, cpus)];
      if ExclusivesApart(all)
      then Ok(Plan(ReservedPool(p), IsolatedPool(p), cpus, WorkloadPool(p), all, HintsOf(p)))
      else Err(ExclusiveOverlap)
  }

  ghost function PlanOf(p: PerformanceProfile, flat: seq<FlatProcess>): Result<Plan, PlanError> {
    if !Valid(p) then
      Err(InvalidProfile)
    else if !RegionsFit(p) then
      Err(ExclusiveRefused)
    else
      match Carve(p, flat)
      case Err(e) => Err(e)
      case Ok(_) => Finish(p, Others(p, flat))
  }

  // ---------- Step 1: the fixed regions ----------

  // What the loop over the component map has built for the names visited.
  ghost predicate Taken(p: PerformanceProfile, names: set<string>, taken: map<string, seq<int>>, workload: seq<int>) {
    && TakenMap(p, names, taken)
    && workload == SortedList(set c | c in Elems(IsolatedPool(p)) && !InRegion(p, names, c))
  }

  ghost predicate TakenMap(p: PerformanceProfile, names: set<string>, taken: map<string, seq<int>>) {
    && (forall n :: n in taken <==> n in names && IsFixed(p, n))
    && (forall n <- taken.Keys :: taken[n] == OverrideOf(p, n) && Inside(taken[n], IsolatedPool(p)))
    && (forall m, n :: m in taken && n in taken && m != n ==> Disjoint(taken[m], taken[n]))
  }

  method MeetsTaken(cpus: seq<int>, taken: map<string, seq<int>>) returns (meets: bool)
    ensures meets <==> exists n <- taken.Keys :: !Disjoint(cpus, taken[n])
  {
    hide Disjoint;
    var rest := taken.Keys;
    while rest != {}
      invariant rest <= taken.Keys
      invariant forall n <- taken.Keys :: n !in rest ==> Disjoint(cpus, taken[n])
      decreases rest
    {
      ghost var some := AnyOf(rest);
      var prev :| prev in rest;
      var apart := AreDisjoint(cpus, taken[prev]);
      if !apart {
        return true;
      }
      rest := rest - {prev};
    }
    return false;
  }

  lemma DisjointSymmetric(a: seq<int>, b: seq<int>)
    ensures Disjoint(a, b) <==> Disjoint(b, a)
  {
  }

  lemma TakenStep(p: PerformanceProfile, names: set<string>, taken: map<string, seq<int>>, workload: seq<int>,
                  name: string)
    requires Taken(p, names, taken, workload) && name !in names
    requires IsFixed(p, name) ==> Inside(OverrideOf(p, name), IsolatedPool(p))
    requires IsFixed(p, name) ==> forall n <- taken.Keys :: Disjoint(OverrideOf(p, name), taken[n])
    ensures IsFixed(p, name) ==>
              Taken(p, names + {name}, taken[name := OverrideOf(p, name)],
                SortedList(Elems(workload) - Elems(OverrideOf(p, name))))
    ensures !IsFixed(p, name) ==> Taken(p, names + {name}, taken, workload)
  {
    hide IsFixed, OverrideOf, IsolatedPool, Inside, Disjoint, InRegion, TakenMap;
    RegionStep(p, names, name);
    if IsFixed(p, name) {
      TakenMapStep(p, names, taken, name);
    } else {
      NotTaken(p, names, taken, name);
    }
  }

  lemma TakenMapStep(p: PerformanceProfile, names: set<string>, taken: map<string, seq<int>>, name: string)
    requires TakenMap(p, names, taken) && name !in names && IsFixed(p, name)
    requires Inside(OverrideOf(p, name), IsolatedPool(p))
    requires forall n <- taken.Keys :: Disjoint(OverrideOf(p, name), taken[n])
    ensures TakenMap(p, names + {name}, taken[name := OverrideOf(p, name)])
  {
    hide IsFixed, OverrideOf, IsolatedPool, Inside, Disjoint;
    forall n <- taken.Keys
      ensures Disjoint(taken[n], OverrideOf(p, name))
    {
      DisjointSymmetric(OverrideOf(p, name), taken[n]);
    }
  }

  lemma NotTaken(p: PerformanceProfile, names: set<string>, taken: map<string, seq<int>>, name: string)
    requires TakenMap(p, names, taken) && !IsFixed(p, name)
    ensures TakenMap(p, names + {name}, taken)
  {
    hide IsFixed, OverrideOf, IsolatedPool, Inside, Disjoint;
  }

  lemma RegionStep(p: PerformanceProfile, names: set<string>, name: string)
    ensures var isolated := Elems(IsolatedPool(p));
            (set c | c in isolated && !InRegion(p, names + {name}, c)) ==
              (set c | c in isolated && !InRegion(p, names, c))
              - if IsFixed(p, name) then Elems(OverrideOf(p, name)) else {}
  {
    hide IsFixed, OverrideOf, IsolatedPool;
    forall c
      ensures InRegion(p, names + {name}, c) <==>
          InRegion(p, names, c) || (IsFixed(p, name) && c in Elems(OverrideOf(p, name)))
    {
    }
  }

  // The names are visited in an arbitrary order.
  method ResolveExclusives(p: PerformanceProfile, isolated: seq<int>)
    returns (r: Result<(map<string, seq<int>>, seq<int>), PlanError>)
    requires Valid(p) && isolated == IsolatedPool(p)
    ensures r.Ok? <==> RegionsFit(p)
    ensures r.Err? ==> r.error == ExclusiveRefused
    ensures r.Ok? ==> Taken(p, p.componentMap.Keys, r.value.0, r.value.1) && r.value.1 == WorkloadPool(p)
  {
    var rest := p.componentMap.Keys;
    var workload := isolated;
    var taken: map<string, seq<int>> := map[];
    NothingTaken(p);
    while rest != {}
      invariant rest <= p.componentMap.Keys
      invariant Taken(p, p.componentMap.Keys - rest, taken, workload)
      decreases rest
    {
      ghost var some := AnyOf(rest);
      var name :| name in rest;
      ghost var names := p.componentMap.Keys - rest;
      var step := ResolveOne(p, name, isolated, names, taken, workload);
      if step.Err? {
        return Err(step.error);
      }
      taken, workload := step.value.0, step.value.1;
      rest := rest - {name};
      assert p.componentMap.Keys - rest == names + {name};
    }
    assert p.componentMap.Keys - rest == p.componentMap.Keys;
    TakenMeansFit(p, taken, workload);
    return Ok((taken, workload));
  }

  lemma NothingTaken(p: PerformanceProfile)
    ensures Taken(p, p.componentMap.Keys - p.componentMap.Keys, map[], IsolatedPool(p))
  {
    hide IsFixed, OverrideOf;
    var isolated := IsolatedPool(p);
    assert (set c | c in Elems(isolated) && !InRegion(p, p.componentMap.Keys - p.componentMap.Keys, c))
      == Elems(isolated);
    SortedListOfElems(isolated);
  }

  lemma TakenMeansFit(p: PerformanceProfile, taken: map<string, seq<int>>, workload: seq<int>)
    requires Taken(p, p.componentMap.Keys, taken, workload)
    ensures RegionsFit(p) && workload == WorkloadPool(p)
  {
    hide OverrideOf, Disjoint, Inside;
    forall m, n | IsFixed(p, m) && IsFixed(p, n) && m != n
      ensures Disjoint(OverrideOf(p, m), OverrideOf(p, n))
    {
      assert m in taken && n in taken;
    }
  }

  method ResolveOne(p: PerformanceProfile, name: string, isolated: seq<int>, ghost names: set<string>,
                    taken: map<string, seq<int>>, workload: seq<int>)
    returns (r: Result<(map<string, seq<int>>, seq<int>), PlanError>)
    requires Valid(p) && isolated == IsolatedPool(p)
    requires name in p.componentMap && name !in names && Taken(p, names, taken, workload)
    ensures r.Ok? ==> Taken(p, names + {name}, r.value.0, r.value.1)
    ensures r.Err? ==> r.error == ExclusiveRefused && !RegionsFit(p)
  {
    hide CPUSetOf, Disjoint, Valid, RegionsFit, Taken, SortedList, Inside;
    TakenStepFor(p, names, taken, workload, name);
    ValidOverride(p, name);
    var ct := p.componentMap[name];
    if !ct.cls.IsolatedExclusive? || ct.cpus == "" {
      return Ok((taken, workload));
    }
    var parsed := ParseCPUList(ct.cpus);
    var cpus := parsed.value;
    var outside := Difference(cpus, isolated);
    EmptyDifference(cpus, isolated, outside);
    if |outside| > 0 {
      return Err(ExclusiveRefused);
    }
    var meets := MeetsTaken(cpus, taken);
    if meets {
      return Err(ExclusiveRefused);
    }
    var left := Difference(workload, cpus);
    return Ok((taken[name := cpus], left));
  }

  // Every text of a valid component map is accepted.
  lemma ValidOverride(p: PerformanceProfile, name: string)
    requires Valid(p) && name in p.componentMap
    ensures p.componentMap[name].cls.Known()
    ensures p.componentMap[name].cpus != "" ==> Parsed(p.componentMap[name].cpus).Ok?
  {
    assert !HasFault(p, BadEntryClass(name)) && !HasFault(p, BadEntryCPUs(name));
  }

  lemma EmptyDifference(a: seq<int>, b: seq<int>, d: seq<int>)
    requires Elems(d) == Elems(a) - Elems(b)
    ensures |d| == 0 <==> Inside(a, b)
  {
    if |d| > 0 {
      var c := d[0];
      assert c in Elems(d);
      assert !(c in Elems(a) ==> c in Elems(b));
    } else {
      forall c | c in Elems(a)
        ensures c in Elems(b)
      {
        assert c in Elems(b) || c in Elems(d);
        assert c !in d;
      }
    }
  }

  lemma TakenStepFor(p: PerformanceProfile, names: set<string>, taken: map<string, seq<int>>, workload: seq<int>,
                     name: string)
    requires Taken(p, names, taken, workload) && name !in names && name in p.componentMap
    ensures Canonical(workload)
    ensures IsFixed(p, name) ==> OverrideOf(p, name) == PoolOf(p.componentMap[name].cpus)
    ensures !IsFixed(p, name) ==> Taken(p, names + {name}, taken, workload)
    ensures IsFixed(p, name) && Inside(OverrideOf(p, name), IsolatedPool(p))
            && (forall n <- taken.Keys :: Disjoint(OverrideOf(p, name), taken[n])) ==>
              Taken(p, names + {name}, taken[name := OverrideOf(p, name)],
                SortedList(Elems(workload) - Elems(OverrideOf(p, name))))
    ensures IsFixed(p, name) && RegionsFit(p) ==>
              && Inside(OverrideOf(p, name), IsolatedPool(p))
              && forall n <- taken.Keys :: Disjoint(OverrideOf(p, name), taken[n])
  {
    hide Disjoint, Inside;
    var fits := Inside(OverrideOf(p, name), IsolatedPool(p))
                && forall n <- taken.Keys :: Disjoint(OverrideOf(p, name), taken[n]);
    if !IsFixed(p, name) || fits {
      TakenStep(p, names, taken, workload, name);
    }
  }

  // ---------- Step 2: the processes ----------

  lemma WindowSorted(p: PerformanceProfile, w: Window)
    requires w.lo <= w.hi <= |WorkloadPool(p)|
    ensures SortInts(WorkloadPool(p)[w.lo..w.hi]) == WorkloadPool(p)[w.lo..w.hi]
  {
    SortIntsSorted(WorkloadPool(p)[w.lo..w.hi]);
  }

  lemma SliceOfSlice<T>(l: seq<T>, lo: nat, hi: nat, k: nat)
    requires lo <= hi <= |l| && k <= hi - lo
    ensures l[lo..hi][..k] == l[lo..lo + k] && l[lo..hi][k..] == l[lo + k..hi]
  {
  }

  lemma PinnedCPUs(p: PerformanceProfile, component: string, taken: map<string, seq<int>>, workload: seq<int>)
    requires Valid(p) && Taken(p, p.componentMap.Keys, taken, workload)
    requires TuningOf(p, component).cpus != ""
    ensures Parsed(TuningOf(p, component).cpus) == Ok(OverrideOf(p, component))
    ensures TuningOf(p, component).cls.Known()
    ensures ClassOf(p, component).IsolatedExclusive? ==>
        component in taken && taken[component] == OverrideOf(p, component)
  {
    hide InRegion, Inside, Disjoint, Valid;
    ValidOverride(p, component);
  }

  // The pools between two passes of the loop: w is free.
  ghost predicate Ready(p: PerformanceProfile, reserved: seq<int>, workload: seq<int>, taken: map<string, seq<int>>,
                        freeWorkload: seq<int>, w: Window) {
    && Valid(p) && reserved == ReservedPool(p)
    && workload == WorkloadPool(p) && Taken(p, p.componentMap.Keys, taken, workload)
    && w.lo <= w.hi <= |workload| && freeWorkload == workload[w.lo..w.hi]
  }

  // The process's CPUs and what is free after it.
  ghost function Chosen(p: PerformanceProfile, fp: FlatProcess, w: Window): Result<(seq<int>, seq<int>), PlanError>
    requires w.lo <= w.hi <= |WorkloadPool(p)|
  {
    match NextWindow(w, DemandOf(p, fp), fp.component)
    case Err(e) => Err(e)
    case Ok(next) => Ok((CPUsFor(p, fp.component, DemandOf(p, fp), w), WorkloadPool(p)[next.lo..next.hi]))
  }

  lemma ChosenByClass(p: PerformanceProfile, fp: FlatProcess, w: Window)
    requires w.lo <= w.hi <= |WorkloadPool(p)|
    ensures var cls, pinned, pool := ClassOf(p, fp.component), TuningOf(p, fp.component).cpus != "", WorkloadPool(p);
            var n, free := Width(fp), pool[w.lo..w.hi];
            Chosen(p, fp, w) ==
              match cls
              case Reserved => Ok((ReservedPool(p), free))
              case IsolatedExclusive =>
                if pinned then Ok((OverrideOf(p, fp.component), free))
                else if |free| < n then Err(TooFewCPUs(fp.component))
                else Ok((free[|free| - n..], free[..|free| - n]))
              case IsolatedShared =>
                if pinned then Ok((OverrideOf(p, fp.component), free))
                else Ok((if |free| == 0 then pool else pool[w.lo..w.After(n)], pool[w.After(n)..w.hi]))
              case Burstable =>
                if pinned then Ok((OverrideOf(p, fp.component), free))
                else Ok((if |free| == 0 then pool else pool[w.lo..w.After(n)], pool[w.After(n)..w.hi]))
              case BestEffort => Ok((pool, free))
              case _ => Err(UnknownClass(fp.component))
  {
    hide WorkloadPool, ReservedPool, OverrideOf, ClassOf, TuningOf;
    var n := Width(fp);
    if n <= w.Free() {
      SliceOfSlice(WorkloadPool(p), w.lo, w.hi, w.Free() - n);
    }
  }

  // The switch on the class: the process's CPUs, and what is left of the
  // window freeWorkload that the earlier processes left.
  method ChooseCPUs(p: PerformanceProfile, fp: FlatProcess, cls: TuningClass, width: nat,
                    reserved: seq<int>, workload: seq<int>, taken: map<string, seq<int>>,
                    freeWorkload: seq<int>, ghost w: Window)
    returns (r: Result<(seq<int>, seq<int>), PlanError>)
    requires Ready(p, reserved, workload, taken, freeWorkload, w)
    requires cls == ClassOf(p, fp.component) && width == Width(fp)
    ensures r == Chosen(p, fp, w)
  {
    hide Valid, Taken, WorkloadPool, CPUSetOf, ReservedPool, ClassOf, Chosen, SortInts;
    ChosenByClass(p, fp, w);
    var override := TuningOf(p, fp.component).cpus;
    if override != "" {
      PinnedCPUs(p, fp.component, taken, workload);
    }
    WindowSorted(p, w);
    match cls {
      case Reserved =>
        return Ok((reserved, freeWorkload));
      case IsolatedExclusive =>
        if override != "" {
          return Ok((taken[fp.component], freeWorkload));
        }
        if |freeWorkload| < width {
          return Err(TooFewCPUs(fp.component));
        }
        return Ok((freeWorkload[|freeWorkload| - width..], freeWorkload[..|freeWorkload| - width]));
      case IsolatedShared =>
        var cpus, left := CarveShared(override, width, workload, freeWorkload, w);
        return Ok((cpus, left));
      case Burstable =>
        var cpus, left := CarveShared(override, width, workload, freeWorkload, w);
        return Ok((cpus, left));
      case BestEffort =>
        return Ok((workload, freeWorkload));
      case _ =>
        return Err(UnknownClass(fp.component));
    }
  }

  // One pass of the loop over the processes.
  method CarveOne(p: PerformanceProfile, fp: FlatProcess, reserved: seq<int>, workload: seq<int>,
                  taken: map<string, seq<int>>, freeWorkload: seq<int>, ghost w: Window)
    returns (r: Result<(Assignment, seq<int>), PlanError>)
    requires Ready(p, reserved, workload, taken, freeWorkload, w)
    ensures Chosen(p, fp, w).Err? ==> r == Err(Chosen(p, fp, w).error)
    ensures Chosen(p, fp, w).Ok? ==> r == Ok((WorkerAssignment(p, fp, w), Chosen(p, fp, w).value.1))
  {
    hide Valid, Taken, WorkloadPool, ReservedPool, DemandOf, NextWindow, CPUsFor;
    var ct := TuningOf(p, fp.component);
    var cls := ct.cls;
    if fp.component !in p.componentMap || cls.Unset? {
      cls := EffectiveDefaultClass(p);
    }
    var width := fp.idealThreads;
    if width <= 0 {
      width := 1;
    }
    var chosen := ChooseCPUs(p, fp, cls, width, reserved, workload, taken, freeWorkload, w);
    if chosen.Err? {
      return Err(chosen.error);
    }
    var cpus := chosen.value.0;
    var gomaxprocs := |cpus|;
    if ct.gomaxprocsOverride > 0 {
      gomaxprocs := ct.gomaxprocsOverride;
    }
    return Ok((Assignment(fp.component, fp.replicaID, cls, cpus, cls.IsolatedExclusive?, gomaxprocs,
                          ct.memoryMaxBytes, ct.rtPriority), chosen.value.1));
  }

  lemma ParsedPool(text: string)
    requires Parsed(text).Ok?
    ensures Parsed(text).value == PoolOf(text)
  {
  }

  // The branch shared by isolated-shared and burstable.
  method CarveShared(override: string, width: nat, workload: seq<int>, free: seq<int>, ghost w: Window)
    returns (cpus: seq<int>, left: seq<int>)
    requires override != "" ==> Parsed(override).Ok?
    requires w.lo <= w.hi <= |workload| && free == workload[w.lo..w.hi]
    requires width > 0 && SortInts(free) == free
    ensures override != "" ==> cpus == PoolOf(override) && left == free
    ensures override == "" ==> cpus == if w.Free() == 0 then workload else workload[w.lo..w.After(width)]
    ensures override == "" ==> left == workload[w.After(width)..w.hi]
  {
    hide Parsed, SortInts, PoolOf;
    if override != "" {
      ParsedPool(override);
      var parsed := ParseCPUList(override);
      return parsed.value, free;
    }
    if |free| == 0 {
      return workload, free;
    }
    var take := width;
    if take > |free| {
      take := |free|;
    }
    cpus, left := Take(free, take);
    assert cpus == free[..take] && left == free[take..] by {
      assert cpus == (cpus + left)[..take] && left == (cpus + left)[take..];
    }
    SliceOfSlice(workload, w.lo, w.hi, take);
  }

  method CarveWorkers(p: PerformanceProfile, flat: seq<FlatProcess>, reserved: seq<int>, workload: seq<int>,
                      taken: map<string, seq<int>>)
    returns (r: Result<seq<Assignment>, PlanError>)
    requires Valid(p) && reserved == ReservedPool(p)
    requires workload == WorkloadPool(p) && Taken(p, p.componentMap.Keys, taken, workload)
    ensures Carve(p, flat).Ok? ==> r == Ok(Workers(p, flat))
    ensures Carve(p, flat).Err? ==> r == Err(Carve(p, flat).error)
  {
    hide Valid, Taken, WorkloadPool, ReservedPool, DemandOf, NextWindow, WorkerAssignment;
    var assignments: seq<Assignment> := [];
    var freeWorkload := workload;
    for i := 0 to |flat|
      invariant Carve(p, flat[..i]).Ok?
      invariant var w := Carve(p, flat[..i]).value; freeWorkload == workload[w.lo..w.hi]
      invariant assignments == Workers(p, flat[..i])
    {
      assert flat[..i + 1][..i] == flat[..i];
      var one := CarveOne(p, flat[i], reserved, workload, taken, freeWorkload, Carve(p, flat[..i]).value);
      if one.Err? {
        CarveErrorStays(p, flat, i + 1);
        return Err(one.error);
      }
      assignments := assignments + [one.value.0];
      freeWorkload := one.value.1;
    }
    assert flat[..|flat|] == flat;
    return Ok(assignments);
  }

  lemma {:induction false} CarveErrorStays(p: PerformanceProfile, flat: seq<FlatProcess>, i: nat)
    requires i <= |flat| && Carve(p, flat[..i]).Err?
    ensures Carve(p, flat) == Carve(p, flat[..i])
    decreases |flat| - i
  {
    hide WorkloadPool, NextWindow;
    if i < |flat| {
      assert flat[..i + 1][..i] == flat[..i];
      CarveErrorStays(p, flat, i + 1);
    } else {
      assert flat[..i] == flat;
    }
  }

  // ---------- Step 3: the victim ----------

  method UsedCPUs(rows: seq<Assignment>) returns (used: seq<int>)
    ensures forall c :: c in Elems(used) <==> IsUsed(rows, c)
  {
    used := [];
    for i := 0 to |rows|
      invariant forall c :: c in Elems(used) <==> IsUsed(rows[..i], c)
    {
      UsedStep(rows, i);
      used := Union(used, rows[i].cpus);
    }
    assert rows[..|rows|] == rows;
  }

  lemma UsedStep(rows: seq<Assignment>, i: nat)
    requires i < |rows|
    ensures forall c :: IsUsed(rows[..i + 1], c) <==> IsUsed(rows[..i], c) || c in Elems(rows[i].cpus)
  {
    hide Elems;
    var all, front := rows[..i + 1], rows[..i];
    assert all[i] == rows[i];
    forall c
      ensures IsUsed(front, c) ==> IsUsed(all, c)
      ensures IsUsed(all, c) ==> IsUsed(front, c) || c in Elems(rows[i].cpus)
    {
      if IsUsed(front, c) {
        var k :| 0 <= k < i && c in Elems(front[k].cpus);
        assert all[k] == front[k];
      }
      if IsUsed(all, c) {
        var k :| 0 <= k <= i && c in Elems(all[k].cpus);
        assert k < i ==> front[k] == all[k];
      }
    }
  }

  method PlaceVictim(p: PerformanceProfile, isolated: seq<int>, rows: seq<Assignment>)
    returns (r: Option<Assignment>)
    requires Valid(p) && isolated == IsolatedPool(p)
    ensures VictimCPUs(p, rows).None? ==> r.None?
    ensures VictimCPUs(p, rows).Some? ==> r == Some(VictimAssignment(p, VictimCPUs(p, rows).value))
  {
    hide Valid, CPUSetOf;
    var cls, exclusive, rtPriority := IsolatedExclusive, true, TuningOf(p, VICTIM).rtPriority;
    var cpus: seq<int> := [];
    NoOverrideText();
    if VICTIM in p.componentMap {
      var vct := p.componentMap[VICTIM];
      if !vct.cls.Unset? && !vct.cls.IsolatedExclusive? {
        cls := vct.cls;
        exclusive := vct.cls.IsolatedExclusive?;
      }
      if vct.cpus != "" {
        ValidOverride(p, VICTIM);
        var parsed := ParseCPUList(vct.cpus);
        cpus := parsed.value;
      }
    }
    if |cpus| == 0 {
      var used := UsedCPUs(rows);
      var candidate := Difference(isolated, used);
      assert Elems(isolated) - Elems(used) == set c | c in Elems(IsolatedPool(p)) && !IsUsed(rows, c);
      if |candidate| < DEFAULT_VICTIM_WIDTH {
        return None;
      }
      cpus := candidate[|candidate| - DEFAULT_VICTIM_WIDTH..];
    }
    return Some(Assignment(VICTIM, "", cls, cpus, exclusive, |cpus|, 0, rtPriority));
  }

  lemma NoOverrideText()
    ensures PoolOf("") == []
  {
    BlankIsEmpty();
    CanonicalSize(PoolOf(""));
  }

  // ---------- Step 4: exclusivity ----------

  method CheckExclusive(rows: seq<Assignment>) returns (ok: bool)
    ensures ok <==> ExclusivesApart(rows)
  {
    hide Disjoint;
    for i := 0 to |rows|
      invariant forall k, j | 0 <= k < i && 0 <= j < |rows| && k != j ::
                  rows[k].exclusive ==> Disjoint(rows[k].cpus, rows[j].cpus)
    {
      if rows[i].exclusive {
        for j := 0 to |rows|
          invariant forall k | 0 <= k < j && i != k :: Disjoint(rows[i].cpus, rows[k].cpus)
        {
          if i != j {
            var apart := AreDisjoint(rows[i].cpus, rows[j].cpus);
            if !apart {
              return false;
            }
          }
        }
      }
    }
    return true;
  }

  // ---------- BuildPlan ----------

  method BuildPlan(p: PerformanceProfile, flat: seq<FlatProcess>) returns (r: Result<Plan, PlanError>)
    ensures r == PlanOf(p, flat)
  {
    hide Valid, RegionsFit, Taken, WorkloadPool, VictimCPUs, VictimAssignment, ExclusivesApart, PoolOf, Carve;
    var fault := Validate(p);
    if fault.Some? {
      FaultMeansInvalid(p, fault.value);
      return Err(InvalidProfile);
    }
    var reserved := ParsePool(p.reserved);
    var isolated := ParsePool(p.isolated);
    var banned: seq<int> := [];
    if p.irqBalancingDisabled {
      banned := isolated;
    }
    var hints := Hints(p.hugepages, p.rtEnabled, banned, p.topologyPolicy, p.highPower);
    var regions := ResolveExclusives(p, isolated);
    if regions.Err? {
      return Err(regions.error);
    }
    var taken, workload := regions.value.0, regions.value.1;
    var workers := CarveWorkers(p, flat, reserved, workload, taken);
    if workers.Err? {
      return Err(workers.error);
    }
    var rows := workers.value + [Assignment(OBSERVER, "", Reserved, reserved, false, |reserved|, 0, 0)];
    var victim := PlaceVictim(p, isolated, rows);
    if victim.None? {
      return Err(NoVictimRoom);
    }
    VictimRowCPUs(p, rows);
    rows := rows + [victim.value];
    var apart := CheckExclusive(rows);
    if !apart {
      return Err(ExclusiveOverlap);
    }
    return Ok(Plan(reserved, isolated, victim.value.cpus, workload, rows, hints));
  }

  lemma FaultMeansInvalid(p: PerformanceProfile, f: Fault)
    requires HasFault(p, f)
    ensures !Valid(p)
  {
  }

  lemma VictimRowCPUs(p: PerformanceProfile, rows: seq<Assignment>)
    ensures VictimCPUs(p, rows).Some? ==>
              VictimAssignment(p, VictimCPUs(p, rows).value).cpus == VictimCPUs(p, rows).value
  {
  }
}
