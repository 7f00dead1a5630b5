// Exactly which runs the planner accepts. The condition names no window, no
// row and no earlier result: it adds up the widths that the processes ask for
// and compares the CPUs they claim.
module Success {
  import opened GoStrings
  import opened IntLists
  import opened Topology
  import opened Profile
  import opened Planner
  import opened PlanFacts
  import opened Isolation
  import opened PlanLaws

  // ---------- What the processes ask for ----------

  // Workload CPUs asked for from the end of the pool...
  function TailWidth(p: PerformanceProfile, flat: seq<FlatProcess>): nat {
    if flat == [] then 0
    else
      var d := DemandOf(p, flat[|flat| - 1]);
      TailWidth(p, flat[..|flat| - 1]) + if d.Tail? then d.width else 0
  }

  // ... and from its front.
  function FrontWidth(p: PerformanceProfile, flat: seq<FlatProcess>): nat {
    if flat == [] then 0
    else
      var d := DemandOf(p, flat[|flat| - 1]);
      FrontWidth(p, flat[..|flat| - 1]) + if d.Front? then d.width else 0
  }

  // Every exclusive slice fits beside everything asked for before it.
  ghost predicate TailsFit(p: PerformanceProfile, flat: seq<FlatProcess>) {
    forall i | 0 <= i < |flat| :: TailFits(p, flat, i)
  }

  ghost predicate TailFits(p: PerformanceProfile, flat: seq<FlatProcess>, i: nat)
    requires i < |flat|
  {
    DemandOf(p, flat[i]).Tail? ==> FrontWidth(p, flat[..i]) + TailWidth(p, flat[..i + 1]) <= |WorkloadPool(p)|
  }

  // The earlier processes have asked for the whole pool.
  ghost predicate Spent(p: PerformanceProfile, flat: seq<FlatProcess>, i: nat)
    requires i < |flat|
  {
    FrontWidth(p, flat[..i]) + TailWidth(p, flat[..i]) >= |WorkloadPool(p)|
  }

  function Cut(l: seq<int>, a: int, b: int): seq<int> {
    if 0 <= a <= b <= |l| then l[a..b] else []
  }

  // The CPUs claimed by a demand after f CPUs are asked for from the front and
  // t from the end.
  ghost function ClaimOf(p: PerformanceProfile, component: string, d: Demand, f: nat, t: nat): seq<int> {
    var pool := WorkloadPool(p);
    match d
    case OnReserved => ReservedPool(p)
    case Pinned => OverrideOf(p, component)
    case Tail(n) => Cut(pool, |pool| - t - n, |pool| - t)
    case Front(n) => if f + t >= |pool| then pool else Cut(pool, f, if f + n + t <= |pool| then f + n else |pool| - t)
    case WholePool => pool
    case Refused => []
  }

  ghost function Claim(p: PerformanceProfile, flat: seq<FlatProcess>, i: nat): seq<int>
    requires i < |flat|
  {
    ClaimOf(p, flat[i].component, DemandOf(p, flat[i]), FrontWidth(p, flat[..i]), TailWidth(p, flat[..i]))
  }

  // ---------- The condition ----------

  predicate IsExclusive(p: PerformanceProfile, fp: FlatProcess) {
    ClassOf(p, fp.component).IsolatedExclusive?
  }

  // The exclusive process i cannot run beside process j.
  ghost predicate Clash(p: PerformanceProfile, flat: seq<FlatProcess>, i: nat, j: nat)
    requires i < |flat| && j < |flat|
  {
    match DemandOf(p, flat[j])
    case Front(_) => DemandOf(p, flat[i]).Tail? && Spent(p, flat, j)
    case WholePool => DemandOf(p, flat[i]).Tail?
    case Pinned =>
      if IsExclusive(p, flat[j]) then
        flat[i].component == flat[j].component && |OverrideOf(p, flat[j].component)| > 0
      else
        !Disjoint(Claim(p, flat, i), OverrideOf(p, flat[j].component))
    case _ => false
  }

  ghost predicate NoClash(p: PerformanceProfile, flat: seq<FlatProcess>) {
    forall i, j | 0 <= i < |flat| && 0 <= j < |flat| && i != j :: IsExclusive(p, flat[i]) ==> !Clash(p, flat, i, j)
  }

  ghost predicate IsClaimed(p: PerformanceProfile, flat: seq<FlatProcess>, c: int) {
    exists i | 0 <= i < |flat| :: c in Elems(Claim(p, flat, i))
  }

  ghost function Unclaimed(p: PerformanceProfile, flat: seq<FlatProcess>): set<int> {
    set c | c in Elems(IsolatedPool(p)) && !IsClaimed(p, flat, c)
  }

  // The i-th process leaves the victim its own CPUs.
  ghost predicate YieldsToVictim(p: PerformanceProfile, flat: seq<FlatProcess>, i: nat)
    requires i < |flat|
  {
    if VictimClass(p).IsolatedExclusive? then
      && flat[i].component != VICTIM
      && (SharedPin(p, flat[i].component) ==> Disjoint(OverrideOf(p, flat[i].component), OverrideOf(p, VICTIM)))
    else
      IsExclusive(p, flat[i]) ==> Disjoint(Claim(p, flat, i), OverrideOf(p, VICTIM))
  }

  ghost predicate VictimFits(p: PerformanceProfile, flat: seq<FlatProcess>) {
    if IsDefaulted(p) then |Unclaimed(p, flat)| >= DEFAULT_VICTIM_WIDTH
    else forall i | 0 <= i < |flat| :: YieldsToVictim(p, flat, i)
  }

  ghost predicate Feasible(p: PerformanceProfile, flat: seq<FlatProcess>) {
    Valid(p) && RegionsFit(p) && TailsFit(p, flat) && NoClash(p, flat) && VictimFits(p, flat)
  }

  // ---------- Carving ----------

  // Validation leaves no process with a class the planner does not know.
  lemma NeverRefused(p: PerformanceProfile, fp: FlatProcess)
    requires Valid(p)
    ensures !DemandOf(p, fp).Refused?
  {
    hide Valid;
    if fp.component in p.componentMap {
      ValidOverride(p, fp.component);
    }
    ValidDefault(p);
  }

  lemma ValidDefault(p: PerformanceProfile)
    requires Valid(p)
    ensures EffectiveDefaultClass(p).Known()
  {
    assert !HasFault(p, BadDefaultClass);
  }

  lemma WidthAsked(p: PerformanceProfile, fp: FlatProcess)
    ensures IsCarved(DemandOf(p, fp)) ==> DemandOf(p, fp).width == Width(fp) > 0
  {
  }

  // The free window in terms of the widths asked for.
  lemma {:induction false} WindowFormula(p: PerformanceProfile, flat: seq<FlatProcess>)
    requires Carve(p, flat).Ok?
    ensures TailWidth(p, flat) <= |WorkloadPool(p)|
    ensures var w, f := Carve(p, flat).value, FrontWidth(p, flat);
            && w.hi == |WorkloadPool(p)| - TailWidth(p, flat)
            && w.lo == if f <= w.hi then f else w.hi
  {
    hide WorkloadPool, DemandOf;
    if flat != [] {
      WindowFormula(p, flat[..|flat| - 1]);
    }
  }

  lemma TailsFitStep(p: PerformanceProfile, flat: seq<FlatProcess>)
    requires flat != []
    ensures var n := |flat| - 1;
            TailsFit(p, flat) <==>
              TailsFit(p, flat[..n])
              && (DemandOf(p, flat[n]).Tail? ==> FrontWidth(p, flat[..n]) + TailWidth(p, flat) <= |WorkloadPool(p)|)
  {
    hide WorkloadPool, DemandOf, FrontWidth, TailWidth;
    var n := |flat| - 1;
    var front := flat[..n];
    assert flat[..n + 1] == flat;
    forall i | 0 <= i < n
      ensures TailFits(p, front, i) <==> TailFits(p, flat, i)
    {
      assert front[..i] == flat[..i] && front[..i + 1] == flat[..i + 1];
    }
    if TailsFit(p, flat) {
      assert TailFits(p, flat, n);
      assert forall i | 0 <= i < n :: TailFits(p, front, i) <==> TailFits(p, flat, i);
    }
  }

  // Carving succeeds exactly when the exclusive slices fit.
  lemma {:induction false} CarveIff(p: PerformanceProfile, flat: seq<FlatProcess>)
    requires Valid(p)
    ensures Carve(p, flat).Ok? <==> TailsFit(p, flat)
  {
    hide Valid, WorkloadPool, DemandOf, TailsFit;
    if flat == [] {
      NothingToFit(p);
    } else {
      var n := |flat| - 1;
      CarveIff(p, flat[..n]);
      TailsFitStep(p, flat);
      NeverRefused(p, flat[n]);
      WidthAsked(p, flat[n]);
      if Carve(p, flat[..n]).Ok? {
        WindowFormula(p, flat[..n]);
      }
    }
  }

  lemma NothingToFit(p: PerformanceProfile)
    ensures TailsFit(p, [])
  {
  }

  lemma ClaimFrom(p: PerformanceProfile, component: string, d: Demand, w: Window, f: nat, t: nat)
    requires w.lo <= w.hi <= |WorkloadPool(p)| && NextWindow(w, d, component).Ok?
    requires w.hi == |WorkloadPool(p)| - t && w.lo == if f <= w.hi then f else w.hi
    ensures CPUsFor(p, component, d, w) == ClaimOf(p, component, d, f, t)
    ensures w.Free() == 0 <==> f + t >= |WorkloadPool(p)|
  {
    hide WorkloadPool, OverrideOf, ReservedPool;
  }

  // A claim is what the process gets.
  lemma ClaimIsRow(p: PerformanceProfile, flat: seq<FlatProcess>, i: nat)
    requires Carve(p, flat).Ok? && i < |flat|
    ensures RowCPUs(p, flat, i) == Claim(p, flat, i)
    ensures FellBack(p, flat, i) <==> DemandOf(p, flat[i]).Front? && Spent(p, flat, i)
  {
    hide WorkloadPool, DemandOf, OverrideOf, ReservedPool, TailWidth, FrontWidth, Carve, CPUsFor, ClaimOf, NextWindow;
    var w := WindowAt(p, flat, i);
    WindowFormula(p, flat[..i]);
    WindowStep(p, flat, i);
    ClaimFrom(p, flat[i].component, DemandOf(p, flat[i]), w, FrontWidth(p, flat[..i]), TailWidth(p, flat[..i]));
  }

  // ---------- Pairs of processes ----------

  lemma ClaimInWorkload(p: PerformanceProfile, flat: seq<FlatProcess>, j: nat)
    requires Carve(p, flat).Ok? && j < |flat|
    requires IsCarved(DemandOf(p, flat[j])) || DemandOf(p, flat[j]).WholePool?
    ensures Inside(RowCPUs(p, flat, j), WorkloadPool(p))
  {
    hide Carve, WorkloadPool, CPUsFor, DemandOf, Bounds, Inside;
    if HasWholePool(p, flat, j) {
      WholePoolCPUs(p, flat, j);
      SliceInside(WorkloadPool(p), 0, |WorkloadPool(p)|);
      assert WorkloadPool(p)[0..|WorkloadPool(p)|] == WorkloadPool(p);
    } else {
      CarvedCPUs(p, flat, j);
      SliceInside(WorkloadPool(p), Bounds(p, flat, j).0, Bounds(p, flat, j).1);
    }
  }

  // A fixed region misses whatever comes from the workload pool.
  lemma RegionMisses(p: PerformanceProfile, n: string, cpus: seq<int>)
    requires RegionsFit(p) && IsFixed(p, n) && Inside(cpus, WorkloadPool(p))
    ensures Disjoint(OverrideOf(p, n), cpus) && Disjoint(cpus, OverrideOf(p, n))
  {
    hide WorkloadPool, IsolatedPool, Inside, Disjoint, RegionsFit, IsFixed, OverrideOf;
    RegionOutsideWorkload(p, n);
    DisjointSymmetric(OverrideOf(p, n), WorkloadPool(p));
    SubsetDisjoint(cpus, WorkloadPool(p), OverrideOf(p, n));
  }

  lemma RegionsApart(p: PerformanceProfile, m: string, n: string)
    requires RegionsFit(p) && IsFixed(p, m) && IsFixed(p, n)
    ensures Disjoint(OverrideOf(p, m), OverrideOf(p, n)) <==> m != n || |OverrideOf(p, n)| == 0
  {
    hide OverrideOf, Inside;
    if m == n && |OverrideOf(p, n)| > 0 {
      NonEmptyMeet(OverrideOf(p, n), OverrideOf(p, n));
    }
  }

  // Two slices, or a slice and the whole pool.
  lemma TailBeside(p: PerformanceProfile, flat: seq<FlatProcess>, i: nat, j: nat)
    requires Carve(p, flat).Ok? && i < |flat| && j < |flat| && i != j && DemandOf(p, flat[i]).Tail?
    requires IsCarved(DemandOf(p, flat[j])) || DemandOf(p, flat[j]).WholePool?
    ensures Disjoint(RowCPUs(p, flat, i), RowCPUs(p, flat, j)) <==> !HasWholePool(p, flat, j)
  {
    CarvedCPUs(p, flat, i);
    hide Carve, WorkloadPool, CPUsFor, DemandOf, Slice, Disjoint, Inside;
    if HasWholePool(p, flat, j) {
      ClaimInWorkload(p, flat, i);
      WholePoolCPUs(p, flat, j);
      NonEmptyMeet(RowCPUs(p, flat, i), RowCPUs(p, flat, j));
    } else {
      CarvedCPUs(p, flat, j);
      if i < j {
        SlicesOfProcesses(p, flat, i, j);
      } else {
        SlicesOfProcesses(p, flat, j, i);
      }
    }
  }

  lemma PinnedIsFixed(p: PerformanceProfile, fp: FlatProcess)
    requires Valid(p) && DemandOf(p, fp).Pinned?
    ensures IsExclusive(p, fp) <==> IsFixed(p, fp.component)
    ensures !IsExclusive(p, fp) <==> SharedPin(p, fp.component)
  {
    hide Valid;
    ValidOverride(p, fp.component);
  }

  lemma PairIff(p: PerformanceProfile, flat: seq<FlatProcess>, i: nat, j: nat)
    requires Valid(p) && RegionsFit(p) && Carve(p, flat).Ok?
    requires i < |flat| && j < |flat| && i != j && IsExclusive(p, flat[i])
    ensures Disjoint(RowCPUs(p, flat, i), RowCPUs(p, flat, j)) <==> !Clash(p, flat, i, j)
  {
    ClaimIsRow(p, flat, i);
    ClaimIsRow(p, flat, j);
    DemandByClass(p, flat[i]);
    NeverRefused(p, flat[j]);
    hide Valid, RegionsFit, Carve, WorkloadPool, ReservedPool, IsolatedPool, OverrideOf, DemandOf, RowCPUs, Claim,
      IsExclusive, IsFixed, Disjoint, Inside, Spent;
    var d, e := DemandOf(p, flat[i]), DemandOf(p, flat[j]);
    if d.Pinned? {
      PinnedIsFixed(p, flat[i]);
      PinnedRow(p, flat, i);
    }
    if e.OnReserved? {
      ReservedRow(p, flat, j);
      ExclusiveInside(p, flat, i);
      ReservedApart(p, RowCPUs(p, flat, i));
    } else if e.Pinned? {
      PinnedIsFixed(p, flat[j]);
      PinnedRow(p, flat, j);
      if IsExclusive(p, flat[j]) {
        BesideRegion(p, flat, i, flat[j].component);
      }
    } else if d.Tail? {
      TailBeside(p, flat, i, j);
    } else {
      ClaimInWorkload(p, flat, j);
      RegionMisses(p, flat[i].component, RowCPUs(p, flat, j));
    }
  }

  // An exclusive process beside a fixed region.
  lemma BesideRegion(p: PerformanceProfile, flat: seq<FlatProcess>, i: nat, n: string)
    requires Valid(p) && RegionsFit(p) && Carve(p, flat).Ok? && i < |flat| && IsExclusive(p, flat[i]) && IsFixed(p, n)
    ensures Disjoint(RowCPUs(p, flat, i), OverrideOf(p, n)) <==> flat[i].component != n || |OverrideOf(p, n)| == 0
  {
    DemandByClass(p, flat[i]);
    hide Valid, RegionsFit, Carve, WorkloadPool, OverrideOf, RowCPUs, Disjoint, Inside;
    if DemandOf(p, flat[i]).Pinned? {
      PinnedIsFixed(p, flat[i]);
      PinnedRow(p, flat, i);
      RegionsApart(p, flat[i].component, n);
    } else {
      ClaimInWorkload(p, flat, i);
      RegionMisses(p, n, RowCPUs(p, flat, i));
    }
  }

  lemma DemandByClass(p: PerformanceProfile, fp: FlatProcess)
    requires IsExclusive(p, fp)
    ensures DemandOf(p, fp).Pinned? || DemandOf(p, fp).Tail?
  {
  }

  lemma PinnedRow(p: PerformanceProfile, flat: seq<FlatProcess>, i: nat)
    requires Carve(p, flat).Ok? && i < |flat| && DemandOf(p, flat[i]).Pinned?
    ensures RowCPUs(p, flat, i) == OverrideOf(p, flat[i].component)
  {
    hide Carve, WorkloadPool, OverrideOf, DemandOf;
  }

  lemma ReservedRow(p: PerformanceProfile, flat: seq<FlatProcess>, i: nat)
    requires Carve(p, flat).Ok? && i < |flat| && DemandOf(p, flat[i]).OnReserved?
    ensures RowCPUs(p, flat, i) == ReservedPool(p)
  {
    hide Carve, WorkloadPool, ReservedPool, DemandOf;
  }

  // ---------- The victim ----------

  lemma OthersRows(p: PerformanceProfile, flat: seq<FlatProcess>)
    requires Carve(p, flat).Ok?
    ensures |Others(p, flat)| == |flat| + 1
    ensures forall i | 0 <= i < |flat| ::
              Others(p, flat)[i].cpus == RowCPUs(p, flat, i) && Others(p, flat)[i].exclusive == IsExclusive(p, flat[i])
    ensures Others(p, flat)[|flat|] == ObserverAssignment(p)
  {
    hide Carve, CPUsFor;
    forall i | 0 <= i < |flat|
      ensures Others(p, flat)[i] == WorkerAssignment(p, flat[i], WindowAt(p, flat, i))
    {
      WorkerAt(p, flat, i);
    }
  }

  lemma UsedMeansClaimed(p: PerformanceProfile, flat: seq<FlatProcess>, c: int)
    requires Valid(p) && Carve(p, flat).Ok? && c in Elems(IsolatedPool(p))
    ensures IsUsed(Others(p, flat), c) <==> IsClaimed(p, flat, c)
  {
    OthersRows(p, flat);
    ValidPools(p);
    hide Valid, Carve, Others, RowCPUs, Claim, ReservedPool, IsolatedPool;
    var rows := Others(p, flat);
    if i :| 0 <= i < |rows| && c in Elems(rows[i].cpus) {
      assert i < |flat|;
      ClaimIsRow(p, flat, i);
    }
    if i :| 0 <= i < |flat| && c in Elems(Claim(p, flat, i)) {
      ClaimIsRow(p, flat, i);
      assert c in Elems(rows[i].cpus);
    }
  }

  lemma UnusedIsUnclaimed(p: PerformanceProfile, flat: seq<FlatProcess>)
    requires Valid(p) && Carve(p, flat).Ok?
    ensures Elems(Unused(p, Others(p, flat))) == Unclaimed(p, flat)
    ensures |Unused(p, Others(p, flat))| == |Unclaimed(p, flat)|
  {
    hide Valid, Carve, Others, IsUsed, IsClaimed, IsolatedPool;
    forall c | c in Elems(IsolatedPool(p))
      ensures IsUsed(Others(p, flat), c) <==> IsClaimed(p, flat, c)
    {
      UsedMeansClaimed(p, flat, c);
    }
    assert (set c | c in Elems(IsolatedPool(p)) && !IsUsed(Others(p, flat), c)) == Unclaimed(p, flat);
  }

  // A fixed victim beside a process.
  lemma FixedVictimBeside(p: PerformanceProfile, flat: seq<FlatProcess>, i: nat)
    requires Valid(p) && RegionsFit(p) && Carve(p, flat).Ok? && i < |flat|
    requires VictimClass(p).IsolatedExclusive? && !IsDefaulted(p)
    ensures Disjoint(RowCPUs(p, flat, i), OverrideOf(p, VICTIM)) <==> YieldsToVictim(p, flat, i)
  {
    FixedVictim(p);
    NeverRefused(p, flat[i]);
    RegionOutsideWorkload(p, VICTIM);
    VictimsDemand(p, flat[i]);
    hide Valid, RegionsFit, Carve, WorkloadPool, ReservedPool, IsolatedPool, OverrideOf, RowCPUs, IsFixed, Disjoint,
      Inside, DemandOf;
    var d := DemandOf(p, flat[i]);
    if d.OnReserved? {
      ReservedRow(p, flat, i);
      ReservedApart(p, OverrideOf(p, VICTIM));
      DisjointSymmetric(ReservedPool(p), OverrideOf(p, VICTIM));
    } else if d.Pinned? {
      PinnedIsFixed(p, flat[i]);
      PinnedRow(p, flat, i);
      if IsExclusive(p, flat[i]) {
        BesideRegion(p, flat, i, VICTIM);
      }
    } else {
      ClaimInWorkload(p, flat, i);
      RegionMisses(p, VICTIM, RowCPUs(p, flat, i));
    }
  }

  // A process with the victim's name claims the victim's region; only pinned
  // demands are shared pins.
  lemma VictimsDemand(p: PerformanceProfile, fp: FlatProcess)
    requires IsFixed(p, VICTIM)
    ensures fp.component == VICTIM ==> DemandOf(p, fp).Pinned? && IsExclusive(p, fp)
    ensures SharedPin(p, fp.component) ==> DemandOf(p, fp).Pinned?
  {
  }

  lemma ObserverApart(p: PerformanceProfile, flat: seq<FlatProcess>, i: nat)
    requires Valid(p) && RegionsFit(p) && Carve(p, flat).Ok? && i < |flat| && IsExclusive(p, flat[i])
    ensures Disjoint(RowCPUs(p, flat, i), ReservedPool(p))
  {
    hide Valid, RegionsFit, Carve, WorkloadPool, ReservedPool, IsolatedPool, RowCPUs, Disjoint, Inside;
    ExclusiveInside(p, flat, i);
    ReservedApart(p, RowCPUs(p, flat, i));
  }

  // ---------- The exclusivity check ----------

  // What has to be apart beside the observer, who never is in the way.
  ghost predicate ProcessesApart(p: PerformanceProfile, flat: seq<FlatProcess>)
    requires Carve(p, flat).Ok?
  {
    forall i, j | 0 <= i < |flat| && 0 <= j < |flat| && i != j ::
      IsExclusive(p, flat[i]) ==> Disjoint(RowCPUs(p, flat, i), RowCPUs(p, flat, j))
  }

  ghost predicate VictimApart(p: PerformanceProfile, flat: seq<FlatProcess>, v: seq<int>)
    requires Carve(p, flat).Ok?
  {
    forall i | 0 <= i < |flat| ::
      IsExclusive(p, flat[i]) || VictimClass(p).IsolatedExclusive? ==> Disjoint(RowCPUs(p, flat, i), v)
  }

  // Rows of which the last but one is in nobody's way.
  lemma ApartSplit(all: seq<Assignment>, n: nat)
    requires |all| == n + 2 && !all[n].exclusive
    requires forall i | 0 <= i < |all| && i != n :: all[i].exclusive ==> Disjoint(all[i].cpus, all[n].cpus)
    ensures ExclusivesApart(all) <==>
              && (forall i, j | 0 <= i < n && 0 <= j < n && i != j :: all[i].exclusive ==>
                Disjoint(all[i].cpus, all[j].cpus))
              && (forall i | 0 <= i < n :: all[i].exclusive || all[n + 1].exclusive ==>
                Disjoint(all[i].cpus, all[n + 1].cpus))
  {
    hide Disjoint;
    forall i | 0 <= i < n
      ensures Disjoint(all[i].cpus, all[n + 1].cpus) <==> Disjoint(all[n + 1].cpus, all[i].cpus)
    {
      DisjointSymmetric(all[i].cpus, all[n + 1].cpus);
    }
  }

  lemma PlanRowsFor(p: PerformanceProfile, flat: seq<FlatProcess>, v: seq<int>)
    requires Carve(p, flat).Ok?
    ensures var all, n := Others(p, flat) + [VictimAssignment(p, v)], |flat|;
            && |all| == n + 2
            && (forall i | 0 <= i < n ::
              all[i].cpus == RowCPUs(p, flat, i) && all[i].exclusive == IsExclusive(p, flat[i]))
            && all[n].cpus == ReservedPool(p) && !all[n].exclusive
            && all[n + 1].cpus == v && all[n + 1].exclusive == VictimClass(p).IsolatedExclusive?
  {
    hide Carve, Others, RowCPUs, ReservedPool, IsExclusive, VictimClass;
    OthersRows(p, flat);
  }

  lemma ApartIff(p: PerformanceProfile, flat: seq<FlatProcess>, v: seq<int>)
    requires Valid(p) && RegionsFit(p) && Carve(p, flat).Ok? && VictimCPUs(p, Others(p, flat)) == Some(v)
    ensures ExclusivesApart(Others(p, flat) + [VictimAssignment(p, v)]) <==>
        ProcessesApart(p, flat) && VictimApart(p, flat, v)
  {
    hide Valid, RegionsFit, Carve, Others, RowCPUs, ReservedPool, Disjoint, VictimAssignment, VictimCPUs, IsExclusive,
      VictimClass, ExclusivesApart;
    PlanRowsFor(p, flat, v);
    var all, n := Others(p, flat) + [VictimAssignment(p, v)], |flat|;
    forall i | 0 <= i < |all| && i != n && all[i].exclusive
      ensures Disjoint(all[i].cpus, all[n].cpus)
    {
      if i < n {
        ObserverApart(p, flat, i);
      } else {
        ExclusiveVictimApart(p, Others(p, flat), v);
      }
    }
    ApartSplit(all, n);
  }

  lemma VictimIff(p: PerformanceProfile, flat: seq<FlatProcess>)
    requires Valid(p) && RegionsFit(p) && Carve(p, flat).Ok?
    ensures (VictimCPUs(p, Others(p, flat)).Some? && VictimApart(p, flat, VictimCPUs(p, Others(p, flat)).value)) <==>
              VictimFits(p, flat)
  {
    var rows := Others(p, flat);
    if IsDefaulted(p) {
      UnusedIsUnclaimed(p, flat);
      if VictimCPUs(p, rows).Some? {
        DefaultedVictim(p, rows, VictimCPUs(p, rows).value);
        OthersRows(p, flat);
      }
    } else {
      hide Valid, RegionsFit, Carve, Others, RowCPUs, OverrideOf, Disjoint, IsExclusive, IsDefaulted, Claim;
      forall i | 0 <= i < |flat|
        ensures (IsExclusive(p, flat[i]) || VictimClass(p).IsolatedExclusive? ==>
            Disjoint(RowCPUs(p, flat, i), OverrideOf(p, VICTIM)))
                <==> YieldsToVictim(p, flat, i)
      {
        ClaimIsRow(p, flat, i);
        if VictimClass(p).IsolatedExclusive? {
          FixedVictimBeside(p, flat, i);
        }
      }
    }
  }

  // ---------- The theorem ----------

  lemma ProcessesIff(p: PerformanceProfile, flat: seq<FlatProcess>)
    requires Valid(p) && RegionsFit(p) && Carve(p, flat).Ok?
    ensures ProcessesApart(p, flat) <==> NoClash(p, flat)
  {
    hide Valid, RegionsFit, Carve, RowCPUs, Disjoint, IsExclusive, Clash;
    forall i, j | 0 <= i < |flat| && 0 <= j < |flat| && i != j && IsExclusive(p, flat[i])
      ensures Disjoint(RowCPUs(p, flat, i), RowCPUs(p, flat, j)) <==> !Clash(p, flat, i, j)
    {
      PairIff(p, flat, i, j);
    }
  }

  // BuildPlan succeeds exactly on the feasible runs.
  lemma PlanIff(p: PerformanceProfile, flat: seq<FlatProcess>)
    ensures PlanOf(p, flat).Ok? <==> Feasible(p, flat)
  {
    hide Valid, RegionsFit, Carve, Others, VictimCPUs, VictimAssignment, ExclusivesApart, ProcessesApart, VictimApart,
      NoClash, VictimFits, TailsFit;
    if Valid(p) && RegionsFit(p) {
      CarveIff(p, flat);
      if Carve(p, flat).Ok? {
        ProcessesIff(p, flat);
        VictimIff(p, flat);
        var placed := VictimCPUs(p, Others(p, flat));
        if placed.Some? {
          ApartIff(p, flat, placed.value);
        }
      }
    }
  }
}
