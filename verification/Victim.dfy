// What a run's input says about its victim: whether its CPUs are isolated,
// shielded, and left out of the plan's workload pool. The conditions are over
// the profile and the CPUs that the processes claim, before anything is
// planned.
module Victim {
  import opened GoStrings
  import opened IntLists
  import opened Topology
  import opened Profile
  import opened Planner
  import opened PlanFacts
  import opened Isolation
  import opened PlanLaws
  import opened Confinement
  import opened Success

  // ---------- One run ----------

  // The victim is defaulted, or its own CPUs are isolated and no process
  // claims one of them.
  ghost predicate RunIsolates(p: PerformanceProfile, flat: seq<FlatProcess>) {
    IsDefaulted(p) || (Inside(OverrideOf(p, VICTIM), IsolatedPool(p)) && NoneClaimsVictim(p, flat))
  }

  ghost predicate NoneClaimsVictim(p: PerformanceProfile, flat: seq<FlatProcess>) {
    forall i | 0 <= i < |flat| :: Disjoint(Claim(p, flat, i), OverrideOf(p, VICTIM))
  }

  lemma OwnCPUs(p: PerformanceProfile, flat: seq<FlatProcess>, plan: Plan)
    requires PlanOf(p, flat) == Ok(plan) && !IsDefaulted(p)
    ensures plan.victimCPUs == OverrideOf(p, VICTIM)
  {
    PlanShape(p, flat, plan);
    hide PlanOf, Valid, RegionsFit, Carve, Others, ExclusivesApart, OverrideOf;
  }

  // The i-th row of a plan is what the i-th process claims, and the observer
  // is on the reserved pool.
  lemma RowIsClaim(p: PerformanceProfile, flat: seq<FlatProcess>, plan: Plan, i: nat)
    requires PlanOf(p, flat) == Ok(plan) && |plan.assignments| == |flat| + 2 && i < |flat| + 1
    ensures plan.assignments[i].cpus == if i < |flat| then Claim(p, flat, i) else plan.reserved
  {
    PlanShape(p, flat, plan);
    PlanRows(p, flat, plan);
    hide PlanOf, Valid, RegionsFit, Carve, Others, VictimCPUs, ExclusivesApart, CPUsFor, Claim, ReservedPool;
    if i < |flat| {
      ClaimIsRow(p, flat, i);
    }
  }

  // The rows of a plan, taken for what is claimed.
  lemma ClaimedRowsIff(p: PerformanceProfile, flat: seq<FlatProcess>, plan: Plan)
    requires |plan.assignments| == |flat| + 2 && |plan.victimCPUs| > 0 && plan.victimCPUs == OverrideOf(p, VICTIM)
    requires forall i | 0 <= i < |flat| :: plan.assignments[i].cpus == Claim(p, flat, i)
    requires plan.assignments[|flat|].cpus == plan.reserved
    requires Inside(plan.victimCPUs, plan.isolated) ==>
               Disjoint(plan.victimCPUs, plan.reserved) && Disjoint(plan.reserved, plan.victimCPUs)
    ensures VictimIsolated(plan) <==> Inside(plan.victimCPUs, plan.isolated) && NoneClaimsVictim(p, flat)
  {
    hide Inside, Disjoint, Claim, OverrideOf;
  }

  lemma OwnIsolatedIff(p: PerformanceProfile, flat: seq<FlatProcess>, plan: Plan)
    requires PlanOf(p, flat) == Ok(plan) && !IsDefaulted(p)
    ensures VictimIsolated(plan) <==> Inside(OverrideOf(p, VICTIM), IsolatedPool(p)) && NoneClaimsVictim(p, flat)
  {
    OwnCPUs(p, flat, plan);
    VictimHasCPUs(p, flat, plan);
    PlanShape(p, flat, plan);
    hide *;
    if Inside(plan.victimCPUs, IsolatedPool(p)) {
      ReservedApart(p, plan.victimCPUs);
      DisjointSymmetric(ReservedPool(p), plan.victimCPUs);
    }
    forall i | 0 <= i < |flat| + 1
      ensures plan.assignments[i].cpus == if i < |flat| then Claim(p, flat, i) else plan.reserved
    {
      RowIsClaim(p, flat, plan, i);
    }
    ClaimedRowsIff(p, flat, plan);
  }

  // Exactly when a planned run isolates its victim.
  lemma RunIsolatedIff(p: PerformanceProfile, flat: seq<FlatProcess>, plan: Plan)
    requires PlanOf(p, flat) == Ok(plan)
    ensures VictimIsolated(plan) <==> RunIsolates(p, flat)
  {
    hide PlanOf, VictimIsolated, NoneClaimsVictim, Inside, IsDefaulted;
    if IsDefaulted(p) {
      ProtectedVictimIsolated(p, flat, plan);
    } else {
      OwnIsolatedIff(p, flat, plan);
    }
  }

  // Exactly when no other process of a planned run can execute on the victim's
  // CPUs.
  lemma RunShieldedIff(p: PerformanceProfile, flat: seq<FlatProcess>, plan: Plan)
    requires PlanOf(p, flat) == Ok(plan)
    ensures VictimShielded(plan) <==> RunIsolates(p, flat) && forall i | 0 <= i < |flat| :: !GetsNothing(p, flat[i])
  {
    hide *;
    RunIsolatedIff(p, flat, plan);
    ShieldedIff(p, flat, plan);
  }

  // ---------- The victim and the workload pool ----------

  ghost function UnclaimedAbove(p: PerformanceProfile, flat: seq<FlatProcess>, c: int): set<int> {
    set d | d in Unclaimed(p, flat) && d > c
  }

  // A defaulted victim: the last four unclaimed CPUs lie in fixed regions. Any
  // other victim: its own CPUs are reserved or in fixed regions.
  ghost predicate KeepsOutOfWorkload(p: PerformanceProfile, flat: seq<FlatProcess>) {
    if IsDefaulted(p) then
      forall c <- Unclaimed(p, flat) ::
        c in Elems(WorkloadPool(p)) ==> |UnclaimedAbove(p, flat, c)| >= DEFAULT_VICTIM_WIDTH
    else
      forall c <- Elems(OverrideOf(p, VICTIM)) :: c in Elems(ReservedPool(p)) || InRegion(p, p.componentMap.Keys, c)
  }

  lemma {:induction false} AboveInSorted(l: seq<int>, k: nat)
    requires Canonical(l) && k < |l|
    ensures |set d | d in Elems(l) && d > l[k]| == |l| - k - 1
  {
    var above := set d | d in Elems(l) && d > l[k];
    var tail := l[k + 1..];
    forall d
      ensures d in above <==> d in Elems(tail)
    {
      if d in above {
        var i :| 0 <= i < |l| && l[i] == d;
        assert tail[i - k - 1] == d;
      }
      if d in Elems(tail) {
        var i :| 0 <= i < |tail| && tail[i] == d;
        assert l[k + 1 + i] == d;
      }
    }
    assert above == Elems(tail);
    CanonicalSize(tail);
  }

  // The last n members of a sorted list are those with fewer than n above.
  lemma LastMembers(l: seq<int>, n: nat, c: int)
    requires Canonical(l) && n <= |l| && c in Elems(l)
    ensures c in Elems(l[|l| - n..]) <==> |set d | d in Elems(l) && d > c| < n
  {
    var k :| 0 <= k < |l| && l[k] == c;
    AboveInSorted(l, k);
    if k >= |l| - n {
      assert l[|l| - n..][k - (|l| - n)] == c;
    } else {
      var last := l[|l| - n..];
      assert forall i | 0 <= i < |last| :: last[i] > c;
    }
  }

  lemma DefaultedMember(p: PerformanceProfile, flat: seq<FlatProcess>, v: seq<int>, c: int)
    requires Valid(p) && Carve(p, flat).Ok? && IsDefaulted(p) && VictimCPUs(p, Others(p, flat)) == Some(v)
    ensures c in Elems(v) <==> c in Unclaimed(p, flat) && |UnclaimedAbove(p, flat, c)| < DEFAULT_VICTIM_WIDTH
  {
    UnusedIsUnclaimed(p, flat);
    hide Valid, Carve, Others, IsolatedPool, OverrideOf, IsUsed, IsClaimed, Unclaimed, Unused;
    var free := Unused(p, Others(p, flat));
    UnusedCanonical(p, Others(p, flat));
    SliceInside(free, |free| - DEFAULT_VICTIM_WIDTH, |free|);
    assert UnclaimedAbove(p, flat, c) == set d | d in Elems(free) && d > c;
    if c in Elems(free) {
      LastMembers(free, DEFAULT_VICTIM_WIDTH, c);
    }
  }

  lemma UnusedCanonical(p: PerformanceProfile, rows: seq<Assignment>)
    ensures Canonical(Unused(p, rows))
  {
  }

  // A CPU of a valid override is outside the workload pool exactly when it is
  // reserved or in a fixed region.
  lemma OverrideOutsideWorkload(p: PerformanceProfile, n: string, c: int)
    requires Valid(p) && c in Elems(OverrideOf(p, n))
    ensures c !in Elems(WorkloadPool(p)) <==> c in Elems(ReservedPool(p)) || InRegion(p, p.componentMap.Keys, c)
  {
    hide Valid, PoolOf, InRegion, WorkloadPool, ReservedPool, IsolatedPool;
    OverrideInPools(p, n, c);
    ValidPools(p);
    InWorkload(p, c);
  }

  lemma OverrideInPools(p: PerformanceProfile, n: string, c: int)
    requires Valid(p) && c in Elems(OverrideOf(p, n))
    ensures InPool(p, c)
  {
    hide PoolOf;
    OverrideNeedsText(p, n);
    assert !HasFault(p, EntryOutside(n));
  }

  lemma DefaultedOutsideIff(p: PerformanceProfile, flat: seq<FlatProcess>, v: seq<int>)
    requires Valid(p) && Carve(p, flat).Ok? && IsDefaulted(p) && VictimCPUs(p, Others(p, flat)) == Some(v)
    ensures Disjoint(v, WorkloadPool(p)) <==> KeepsOutOfWorkload(p, flat)
  {
    hide Valid, Carve, Others, WorkloadPool, ReservedPool, InRegion, Unclaimed, UnclaimedAbove, IsDefaulted, VictimCPUs,
      OverrideOf;
    forall c
      ensures c in Elems(v) <==> c in Unclaimed(p, flat) && |UnclaimedAbove(p, flat, c)| < DEFAULT_VICTIM_WIDTH
    {
      DefaultedMember(p, flat, v, c);
    }
  }

  lemma OwnOutsideIff(p: PerformanceProfile, flat: seq<FlatProcess>)
    requires Valid(p) && !IsDefaulted(p)
    ensures Disjoint(OverrideOf(p, VICTIM), WorkloadPool(p)) <==> KeepsOutOfWorkload(p, flat)
  {
    hide Valid, WorkloadPool, ReservedPool, InRegion, Unclaimed, UnclaimedAbove, IsDefaulted, OverrideOf;
    forall c | c in Elems(OverrideOf(p, VICTIM))
      ensures c !in Elems(WorkloadPool(p)) <==> c in Elems(ReservedPool(p)) || InRegion(p, p.componentMap.Keys, c)
    {
      OverrideOutsideWorkload(p, VICTIM, c);
    }
  }

  // The plan's workload pool leaves out the victim's CPUs exactly on this
  // condition.
  lemma VictimOutsideWorkloadIff(p: PerformanceProfile, flat: seq<FlatProcess>, plan: Plan)
    requires PlanOf(p, flat) == Ok(plan)
    ensures Disjoint(plan.victimCPUs, plan.workloadCPUs) <==> KeepsOutOfWorkload(p, flat)
  {
    PlanShape(p, flat, plan);
    hide PlanOf, Valid, RegionsFit, WorkloadPool, Others, ExclusivesApart, KeepsOutOfWorkload, OverrideOf, Unused,
      Disjoint, Carve;
    if IsDefaulted(p) {
      DefaultedOutsideIff(p, flat, plan.victimCPUs);
    } else {
      OwnOutsideIff(p, flat);
    }
  }

  // So a victim with exclusive CPUs of its own is always left out.
  lemma FixedVictimOutsideWorkload(p: PerformanceProfile, flat: seq<FlatProcess>, plan: Plan)
    requires PlanOf(p, flat) == Ok(plan) && IsFixed(p, VICTIM) && !IsDefaulted(p)
    ensures Disjoint(plan.victimCPUs, plan.workloadCPUs)
  {
    VictimOutsideWorkloadIff(p, flat, plan);
    hide PlanOf, WorkloadPool, ReservedPool, OverrideOf, Disjoint;
  }
}
