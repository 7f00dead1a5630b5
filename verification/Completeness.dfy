// The planner never refuses a run that fits: when the fixed regions are used
// by one process each and the carved widths, with four CPUs for a defaulted
// victim, fit the workload pool, there is a plan and every carved process
// gets exactly the width it asked for.
module Completeness {
  import opened IntLists
  import opened Topology
  import opened Profile
  import opened Planner
  import opened PlanFacts
  import opened Isolation
  import opened PlanLaws
  import opened Success

  // ---------- The premise ----------

  // How many workload CPUs the processes ask for.
  function TotalWidth(p: PerformanceProfile, flat: seq<FlatProcess>): nat {
    FrontWidth(p, flat) + TailWidth(p, flat)
  }

  // The process is on the reserved pool, is carved, or is the only replica of
  // a component with a fixed region.
  ghost predicate Orderly(p: PerformanceProfile, flat: seq<FlatProcess>, i: nat)
    requires i < |flat|
  {
    && flat[i].component != VICTIM
    && match DemandOf(p, flat[i])
       case OnReserved => true
       case Tail(_) => true
       case Front(_) => true
       case Pinned =>
         && IsExclusive(p, flat[i])
         && forall j | 0 <= j < |flat| && j != i :: flat[j].component != flat[i].component
       case _ => false
  }

  ghost predicate Fits(p: PerformanceProfile, flat: seq<FlatProcess>) {
    && Valid(p) && RegionsFit(p) && Protected(p)
    && (forall i | 0 <= i < |flat| :: Orderly(p, flat, i))
    && TotalWidth(p, flat) + (if IsDefaulted(p) then DEFAULT_VICTIM_WIDTH else 0) <= |WorkloadPool(p)|
  }

  lemma FitsParts(p: PerformanceProfile, flat: seq<FlatProcess>)
    requires Fits(p, flat)
    ensures Valid(p) && RegionsFit(p) && Protected(p)
    ensures TotalWidth(p, flat) + (if IsDefaulted(p) then DEFAULT_VICTIM_WIDTH else 0) <= |WorkloadPool(p)|
  {
  }

  lemma OrderlyAt(p: PerformanceProfile, flat: seq<FlatProcess>, i: nat)
    requires Fits(p, flat) && i < |flat|
    ensures Orderly(p, flat, i)
  {
    hide Orderly;
  }

  // ---------- Carving succeeds ----------

  lemma {:induction false} WidthsGrow(p: PerformanceProfile, flat: seq<FlatProcess>, i: nat, j: nat)
    requires i <= j <= |flat|
    ensures FrontWidth(p, flat[..i]) <= FrontWidth(p, flat[..j])
    ensures TailWidth(p, flat[..i]) <= TailWidth(p, flat[..j])
    decreases j
  {
    hide DemandOf;
    if i < j {
      assert flat[..j][..j - 1] == flat[..j - 1];
      WidthsGrow(p, flat, i, j - 1);
    }
  }

  // What the processes up to the i-th ask for is part of the total.
  lemma AskedBefore(p: PerformanceProfile, flat: seq<FlatProcess>, i: nat)
    requires i < |flat|
    ensures FrontWidth(p, flat[..i]) + TailWidth(p, flat[..i + 1]) <= TotalWidth(p, flat)
    ensures FrontWidth(p, flat[..i]) + TailWidth(p, flat[..i])
            + (if IsCarved(DemandOf(p, flat[i])) then DemandOf(p, flat[i]).width else 0) <= TotalWidth(p, flat)
  {
    hide DemandOf;
    assert flat[..|flat|] == flat && flat[..i + 1][..i] == flat[..i];
    WidthsGrow(p, flat, i, i + 1);
    WidthsGrow(p, flat, i + 1, |flat|);
  }

  lemma CarveSucceeds(p: PerformanceProfile, flat: seq<FlatProcess>)
    requires Valid(p) && TotalWidth(p, flat) <= |WorkloadPool(p)|
    ensures TailsFit(p, flat) && Carve(p, flat).Ok?
    ensures Carve(p, flat).value.Free() == |WorkloadPool(p)| - TotalWidth(p, flat)
  {
    hide Valid, Carve, WorkloadPool, FrontWidth, TailWidth;
    forall i | 0 <= i < |flat|
      ensures TailFits(p, flat, i)
    {
      AskedBefore(p, flat, i);
    }
    CarveIff(p, flat);
    WindowFormula(p, flat);
  }

  // Every carved process still finds its width free.
  lemma RoomBefore(p: PerformanceProfile, flat: seq<FlatProcess>, i: nat)
    requires Carve(p, flat).Ok? && TotalWidth(p, flat) <= |WorkloadPool(p)| && i < |flat|
    ensures IsCarved(DemandOf(p, flat[i])) ==> Width(flat[i]) <= WindowAt(p, flat, i).Free() && !Spent(p, flat, i)
  {
    hide Carve, WorkloadPool, DemandOf, Width, TotalWidth, FrontWidth, TailWidth;
    WidthAsked(p, flat[i]);
    AskedBefore(p, flat, i);
    var w := WindowAt(p, flat, i);
    WindowFormula(p, flat[..i]);
  }

  lemma CarvedWidth(p: PerformanceProfile, flat: seq<FlatProcess>, i: nat)
    requires Carve(p, flat).Ok? && TotalWidth(p, flat) <= |WorkloadPool(p)| && i < |flat|
    requires IsCarved(DemandOf(p, flat[i]))
    ensures !FellBack(p, flat, i)
    ensures RowCPUs(p, flat, i) == Slice(p, flat, i) && |Slice(p, flat, i)| == Width(flat[i])
  {
    hide Carve, WorkloadPool, DemandOf, TotalWidth, CPUsFor, Slice, Spent;
    RoomBefore(p, flat, i);
    WidthAsked(p, flat[i]);
    CarvedCPUs(p, flat, i);
  }

  // ---------- No clash ----------

  lemma OrderlyNoClash(p: PerformanceProfile, flat: seq<FlatProcess>, i: nat, j: nat)
    requires Fits(p, flat) && Carve(p, flat).Ok? && i < |flat| && j < |flat| && i != j
    ensures !Clash(p, flat, i, j)
  {
    OrderlyAt(p, flat, j);
    FitsParts(p, flat);
    hide Fits, Valid, RegionsFit, Protected, WorkloadPool, Carve, DemandOf, OverrideOf, Claim, Spent, TotalWidth,
      IsExclusive;
    RoomBefore(p, flat, j);
  }

  // ---------- The victim fits ----------

  // The window that is free at the end.
  ghost function LastWindow(p: PerformanceProfile, flat: seq<FlatProcess>): seq<int>
    requires Carve(p, flat).Ok?
  {
    var w := WindowAt(p, flat, |flat|);
    WorkloadPool(p)[w.lo..w.hi]
  }

  lemma LastWindowApart(p: PerformanceProfile, flat: seq<FlatProcess>, i: nat)
    requires Carve(p, flat).Ok? && i < |flat|
    ensures Disjoint(Slice(p, flat, i), LastWindow(p, flat))
  {
    hide Carve, WorkloadPool, DemandOf, Disjoint;
    WorkloadInside(p);
    WindowMoves(p, flat, i);
    WindowsNest(p, flat, i + 1, |flat|);
    var w := WindowAt(p, flat, |flat|);
    SlicesApart(WorkloadPool(p), Bounds(p, flat, i).0, Bounds(p, flat, i).1, w.lo, w.hi);
  }

  lemma LastWindowInside(p: PerformanceProfile, flat: seq<FlatProcess>)
    requires Carve(p, flat).Ok?
    ensures Inside(LastWindow(p, flat), WorkloadPool(p)) && Inside(LastWindow(p, flat), IsolatedPool(p))
    ensures Canonical(LastWindow(p, flat)) && |LastWindow(p, flat)| == WindowAt(p, flat, |flat|).Free()
  {
    hide Carve, WorkloadPool, IsolatedPool, Inside, Canonical;
    var w := WindowAt(p, flat, |flat|);
    WorkloadInside(p);
    SliceInside(WorkloadPool(p), w.lo, w.hi);
    InsideTransitive(LastWindow(p, flat), WorkloadPool(p), IsolatedPool(p));
  }

  // Nobody claims what is free at the end.
  lemma LastWindowUnclaimed(p: PerformanceProfile, flat: seq<FlatProcess>, i: nat)
    requires Fits(p, flat) && Carve(p, flat).Ok? && i < |flat|
    ensures Disjoint(Claim(p, flat, i), LastWindow(p, flat))
  {
    OrderlyAt(p, flat, i);
    FitsParts(p, flat);
    LastWindowInside(p, flat);
    ClaimIsRow(p, flat, i);
    hide Fits, Valid, RegionsFit, WorkloadPool, Protected, Carve, ReservedPool, IsolatedPool, OverrideOf, Slice,
      RowCPUs, Claim, LastWindow, Inside, Disjoint, DemandOf, IsExclusive, IsFixed, TotalWidth, FellBack, Spent,
      Canonical;
    var d := DemandOf(p, flat[i]);
    if d.OnReserved? {
      ReservedRow(p, flat, i);
      ReservedApart(p, LastWindow(p, flat));
      DisjointSymmetric(ReservedPool(p), LastWindow(p, flat));
    } else if d.Pinned? {
      PinnedIsFixed(p, flat[i]);
      PinnedRow(p, flat, i);
      RegionMisses(p, flat[i].component, LastWindow(p, flat));
    } else {
      CarvedWidth(p, flat, i);
      LastWindowApart(p, flat, i);
    }
  }

  lemma FourUnclaimed(p: PerformanceProfile, flat: seq<FlatProcess>)
    requires Fits(p, flat) && Carve(p, flat).Ok? && IsDefaulted(p)
    ensures |Unclaimed(p, flat)| >= DEFAULT_VICTIM_WIDTH
  {
    FitsParts(p, flat);
    CarveSucceeds(p, flat);
    LastWindowInside(p, flat);
    hide Fits, Valid, RegionsFit, WorkloadPool, Protected, Carve, IsolatedPool, LastWindow, Claim, Disjoint, Canonical,
      TotalWidth, IsDefaulted, TailsFit;
    assert flat[..|flat|] == flat;
    var l := LastWindow(p, flat);
    forall c | c in Elems(l)
      ensures c in Unclaimed(p, flat)
    {
      forall i | 0 <= i < |flat|
        ensures c !in Elems(Claim(p, flat, i))
      {
        LastWindowUnclaimed(p, flat, i);
        DisjointMember(Claim(p, flat, i), l, c);
      }
    }
    MembersSubset(Elems(l), Unclaimed(p, flat));
    CanonicalSize(l);
  }

  lemma OrderlyYields(p: PerformanceProfile, flat: seq<FlatProcess>, i: nat)
    requires Fits(p, flat) && i < |flat| && !IsDefaulted(p)
    ensures YieldsToVictim(p, flat, i)
  {
    OrderlyAt(p, flat, i);
    FitsParts(p, flat);
    hide Fits, Valid, RegionsFit, WorkloadPool, OverrideOf, TotalWidth, Disjoint, IsDefaulted, Claim, DemandOf,
      IsExclusive, IsFixed, SharedPin;
    FixedVictim(p);
    VictimsDemand(p, flat[i]);
    if DemandOf(p, flat[i]).Pinned? {
      PinnedIsFixed(p, flat[i]);
    }
  }

  // ---------- The theorem ----------

  lemma FitsIsFeasible(p: PerformanceProfile, flat: seq<FlatProcess>)
    requires Fits(p, flat)
    ensures Feasible(p, flat) && Carve(p, flat).Ok?
  {
    FitsParts(p, flat);
    CarveSucceeds(p, flat);
    hide Fits, Valid, RegionsFit, WorkloadPool, Protected, Carve, TotalWidth, TailsFit, Clash, IsDefaulted,
      YieldsToVictim, IsExclusive, Unclaimed;
    forall i, j | 0 <= i < |flat| && 0 <= j < |flat| && i != j
      ensures !Clash(p, flat, i, j)
    {
      OrderlyNoClash(p, flat, i, j);
    }
    if IsDefaulted(p) {
      FourUnclaimed(p, flat);
    } else {
      forall i | 0 <= i < |flat|
        ensures YieldsToVictim(p, flat, i)
      {
        OrderlyYields(p, flat, i);
      }
    }
  }

  lemma PlanExists(p: PerformanceProfile, flat: seq<FlatProcess>)
    requires Fits(p, flat)
    ensures PlanOf(p, flat).Ok?
    ensures var plan := PlanOf(p, flat).value;
            |plan.assignments| == |flat| + 2
            && forall i | 0 <= i < |flat| && IsCarved(DemandOf(p, flat[i])) ::
                 |plan.assignments[i].cpus| == if flat[i].idealThreads <= 0 then 1 else flat[i].idealThreads
  {
    FitsIsFeasible(p, flat);
    FitsParts(p, flat);
    PlanIff(p, flat);
    var plan := PlanOf(p, flat).value;
    PlanRows(p, flat, plan);
    hide Fits, PlanOf, Feasible, Carve, CPUsFor, DemandOf, Slice, TotalWidth, WorkloadPool, Valid, RegionsFit,
      Protected;
    forall i | 0 <= i < |flat| && IsCarved(DemandOf(p, flat[i]))
      ensures |plan.assignments[i].cpus| == if flat[i].idealThreads <= 0 then 1 else flat[i].idealThreads
    {
      CarvedWidth(p, flat, i);
    }
  }
}
