// From the profile to the observed affinities: what the plan, the text
// hand-offs and the verification guarantee together.
module EndToEnd {
  import opened GoStrings
  import opened IntLists
  import opened CPULists
  import opened CPUListLaws
  import opened Affinity
  import opened Topology
  import opened Profile
  import opened Planner
  import opened PlanFacts
  import opened Isolation
  import opened PlanLaws
  import opened Confinement
  import opened Victim
  import opened Verify
  import opened Identity

  // ---------- Texts ----------

  // A cpuset the parser could have produced.
  ghost predicate Listable(cpus: seq<int>) {
    Canonical(cpus) && Naturals(cpus)
  }

  lemma PoolListable(text: string)
    ensures Listable(PoolOf(text))
  {
    hide CPUSetOf;
    if Parsed(text).Ok? {
      ParsedIsCanonical(text);
    }
  }

  lemma InsideListable(cpus: seq<int>, pool: seq<int>)
    requires Canonical(cpus) && Inside(cpus, pool) && Listable(pool)
    ensures Listable(cpus)
  {
    hide Canonical;
    forall c | c in cpus
      ensures 0 <= c <= MAX_INT
    {
      assert c in Elems(cpus) && c in Elems(pool);
    }
  }

  lemma WorkloadListable(p: PerformanceProfile)
    ensures Listable(WorkloadPool(p)) && Listable(IsolatedPool(p)) && Listable(ReservedPool(p))
  {
    PoolListable(p.isolated);
    PoolListable(p.reserved);
    WorkloadInside(p);
    hide WorkloadPool, Listable, Inside, Canonical, PoolOf;
    InsideListable(WorkloadPool(p), IsolatedPool(p));
  }

  lemma SliceListable(l: seq<int>, a: nat, b: nat)
    requires Listable(l) && a <= b <= |l|
    ensures Listable(l[a..b])
  {
    SliceInside(l, a, b);
    hide Listable, Inside;
    assert Canonical(l) by { ListableParts(l); }
    InsideListable(l[a..b], l);
  }

  lemma ListableParts(l: seq<int>)
    requires Listable(l)
    ensures Canonical(l) && Naturals(l)
  {
  }

  lemma ProcessListable(p: PerformanceProfile, component: string, d: Demand, w: Window)
    requires w.lo <= w.hi <= |WorkloadPool(p)|
    ensures Listable(CPUsFor(p, component, d, w))
  {
    WorkloadListable(p);
    PoolListable(TuningOf(p, component).cpus);
    hide WorkloadPool, Listable, PoolOf, TuningOf, IsolatedPool, ReservedPool;
    var pool := WorkloadPool(p);
    match d
    case Tail(n) =>
      if n <= w.Free() {
        SliceListable(pool, w.hi - n, w.hi);
      } else {
        SliceListable(pool, 0, 0);
      }
    case Front(n) => SliceListable(pool, w.lo, w.After(n));
    case Refused => SliceListable(pool, 0, 0);
    case _ =>
  }

  lemma VictimListable(p: PerformanceProfile, rows: seq<Assignment>, v: seq<int>)
    requires VictimCPUs(p, rows) == Some(v)
    ensures Listable(v)
  {
    PoolListable(TuningOf(p, VICTIM).cpus);
    WorkloadListable(p);
    hide Listable, PoolOf, IsolatedPool, WorkloadPool, ReservedPool;
    if IsDefaulted(p) {
      DefaultedVictim(p, rows, v);
      InsideListable(v, IsolatedPool(p));
    }
  }

  // Every cpuset of a plan survives its text: what is written to cpuset.cpus
  // or AllowedCPUs denotes exactly the planned CPUs.
  lemma RowsSurviveText(p: PerformanceProfile, flat: seq<FlatProcess>, plan: Plan, i: nat)
    requires PlanOf(p, flat) == Ok(plan) && i < |plan.assignments|
    ensures Parsed(Text(plan.assignments[i].cpus)) == Ok(plan.assignments[i].cpus)
  {
    PlanShape(p, flat, plan);
    PlanRows(p, flat, plan);
    WorkloadListable(p);
    hide PlanOf, Valid, RegionsFit, Carve, Others, VictimCPUs, ExclusivesApart, WorkloadPool, IsolatedPool,
      ReservedPool, CPUsFor, Listable, Parsed, Text, DemandOf;
    if i < |flat| {
      ProcessListable(p, flat[i].component, DemandOf(p, flat[i]), WindowAt(p, flat, i));
    } else if i == |flat| + 1 {
      VictimListable(p, Others(p, flat), plan.victimCPUs);
    }
    ListableParts(plan.assignments[i].cpus);
    RoundTrip(plan.assignments[i].cpus);
  }

  // The victim pins itself to exactly the CPUs of its row.
  lemma VictimPinsToPlan(p: PerformanceProfile, flat: seq<FlatProcess>, plan: Plan)
    requires PlanOf(p, flat) == Ok(plan)
    ensures Text(plan.victimCPUs) != ""
    ensures VictimParsed(Text(plan.victimCPUs)) == Ok(plan.victimCPUs)
  {
    PlanShape(p, flat, plan);
    VictimHasCPUs(p, flat, plan);
    VictimListable(p, Others(p, flat), plan.victimCPUs);
    hide PlanOf, Valid, RegionsFit, Carve, Others, VictimCPUs, ExclusivesApart, Listable, VictimParsed, Text;
    ListableParts(plan.victimCPUs);
    VictimReadsPlanner(plan.victimCPUs);
    EmptyTextForVictim();
  }

  lemma EmptyTextForVictim()
    ensures VictimParsed("") == Ok([])
  {
    RenderForVictim([]);
  }

  // ---------- Observed isolation ----------

  // The i-th row's process was started and its inner process's status can be
  // read.
  ghost predicate Inspected(flat: seq<FlatProcess>, procs: seq<Started>, inner: map<int, int>,
                            statuses: map<int, string>, i: nat)
    requires Launched(flat, procs) && i < |flat| + 2
  {
    var proc := procs[ProcOf(flat, i)];
    proc.pid.Some? && proc.pid.value in inner && inner[proc.pid.value] in statuses
  }

  ghost function StatusText(flat: seq<FlatProcess>, procs: seq<Started>, inner: map<int, int>,
                            statuses: map<int, string>, i: nat): string
    requires Launched(flat, procs) && i < |flat| + 2 && Inspected(flat, procs, inner, statuses, i)
  {
    statuses[inner[procs[ProcOf(flat, i)].pid.value]]
  }

  // resolveInnerPIDs: the same keys, with the pids of the inner processes.
  ghost predicate Resolved(pids: map<string, int>, inner: map<int, int>, resolved: map<string, int>) {
    && resolved.Keys == pids.Keys
    && forall key <- pids.Keys :: pids[key] in inner && resolved[key] == inner[pids[key]]
  }

  lemma ConfinedRow(p: PerformanceProfile, flat: seq<FlatProcess>, plan: Plan, procs: seq<Started>,
                    inner: map<int, int>, resolved: map<string, int>, statuses: map<int, string>, i: nat)
    requires PlanOf(p, flat) == Ok(plan) && Numbered(flat) && Launched(flat, procs)
    requires Resolved(PidsOf(procs), inner, resolved)
    requires forall r <- Judgements(plan.assignments, resolved, statuses) :: r.ok
    requires |plan.assignments| == |flat| + 2 && i < |plan.assignments| && Inspected(flat, procs, inner, statuses, i)
    ensures var seen := Observed(StatusText(flat, procs, inner, statuses, i));
            seen.Some? && Inside(seen.value, plan.assignments[i].cpus)
  {
    hide PlanOf, Numbered, Judgements, Judge, Observed, PidsOf, Inside, Key;
    RowMeetsItsProcess(p, flat, plan, procs, i);
    var key := Key(plan.assignments[i]);
    assert key in PidsOf(procs).Keys;
    NoneFailedIff(plan.assignments, resolved, statuses);
    assert Passes(plan.assignments[i], StatusOf(statuses, resolved[key]));
  }

  // If the plan was built, it isolates the victim and verification reports no
  // failure, then the CPUs the victim is seen to run on and the CPUs any
  // other inspected process is seen to run on have nothing in common.
  lemma ObservedIsolation(p: PerformanceProfile, flat: seq<FlatProcess>, plan: Plan, procs: seq<Started>,
                          inner: map<int, int>, resolved: map<string, int>, statuses: map<int, string>, i: nat)
    requires PlanOf(p, flat) == Ok(plan) && Numbered(flat) && VictimIsolated(plan)
    requires Launched(flat, procs) && Resolved(PidsOf(procs), inner, resolved)
    requires forall r <- Judgements(plan.assignments, resolved, statuses) :: r.ok
    requires i < |flat| + 1 && Inspected(flat, procs, inner, statuses, i)
        && Inspected(flat, procs, inner, statuses, |flat| + 1)
    ensures var other, victim := Observed(StatusText(flat, procs, inner, statuses, i)),
                                 Observed(StatusText(flat, procs, inner, statuses, |flat| + 1));
            other.Some? && victim.Some? && Disjoint(other.value, victim.value)
  {
    PlanRows(p, flat, plan);
    hide PlanOf, Numbered, Judgements, Observed, PidsOf, Inside, Disjoint, Carve, CPUsFor, Launched, Inspected,
      Resolved, StatusText;
    ConfinedRow(p, flat, plan, procs, inner, resolved, statuses, i);
    ConfinedRow(p, flat, plan, procs, inner, resolved, statuses, |flat| + 1);
    var other, victim := Observed(StatusText(flat, procs, inner, statuses, i)).value,
                         Observed(StatusText(flat, procs, inner, statuses, |flat| + 1)).value;
    PartsDisjoint(other, plan.assignments[i].cpus, victim, plan.victimCPUs);
  }

  lemma PartsDisjoint(a: seq<int>, big: seq<int>, b: seq<int>, bigB: seq<int>)
    requires Inside(a, big) && Inside(b, bigB) && Disjoint(big, bigB)
    ensures Disjoint(a, b)
  {
  }

  // ---------- The rows that are applied ----------

  // The row that the launcher wraps the i-th process with; after the
  // topology's processes come the observer and the victim.
  function AppliedRow(rows: seq<Assignment>, flat: seq<FlatProcess>, i: nat): Option<Assignment>
    requires i < |flat| + 2
  {
    if i < |flat| then RowFor(rows, flat[i].component, flat[i].replicaID)
    else RowFor(rows, if i == |flat| then OBSERVER else VICTIM, "")
  }

  // Every process of the run is wrapped, and the rows they are wrapped with
  // keep all others off the victim's CPUs.
  ghost predicate LaunchShielded(plan: Plan, flat: seq<FlatProcess>) {
    && (forall i | 0 <= i < |flat| + 2 :: AppliedRow(plan.assignments, flat, i).Some?)
    && VictimShielded(Applied(plan, flat))
  }

  // The plan as it is applied.
  ghost function Applied(plan: Plan, flat: seq<FlatProcess>): Plan
    requires forall i | 0 <= i < |flat| + 2 :: AppliedRow(plan.assignments, flat, i).Some?
  {
    var rows := seq(|flat| + 2, i requires 0 <= i < |flat| + 2 => AppliedRow(plan.assignments, flat, i).value);
    plan.(assignments := rows, victimCPUs := rows[|flat| + 1].cpus)
  }

  lemma OwnRowApplied(p: PerformanceProfile, flat: seq<FlatProcess>, plan: Plan, i: nat)
    requires PlanOf(p, flat) == Ok(plan) && Numbered(flat) && Avoids(flat, {VICTIM, OBSERVER})
    requires |plan.assignments| == |flat| + 2 && i < |flat| + 2
    ensures AppliedRow(plan.assignments, flat, i) == Some(plan.assignments[i])
  {
    hide PlanOf, Numbered, FirstFor, RowFor;
    if i < |flat| {
      ProcessFindsItsRow(p, flat, plan, i);
      FirstRowFor(plan.assignments, flat[i].component, flat[i].replicaID, i);
    } else if i == |flat| {
      ObserverFindsItsRowIff(p, flat, plan);
      FirstRowFor(plan.assignments, OBSERVER, "", i);
    } else {
      VictimFindsItsRowIff(p, flat, plan);
      FirstRowFor(plan.assignments, VICTIM, "", i);
    }
  }

  // Without a process named like the observer or the victim, the plan is
  // applied as it was built.
  lemma AppliedAsPlanned(p: PerformanceProfile, flat: seq<FlatProcess>, plan: Plan)
    requires PlanOf(p, flat) == Ok(plan) && Numbered(flat) && Avoids(flat, {VICTIM, OBSERVER})
    ensures forall i | 0 <= i < |flat| + 2 :: AppliedRow(plan.assignments, flat, i).Some?
    ensures Applied(plan, flat) == plan
  {
    PlanRows(p, flat, plan);
    hide PlanOf, Numbered, AppliedRow, Carve, WorkerAssignment, ObserverAssignment, Avoids;
    forall i | 0 <= i < |flat| + 2
      ensures AppliedRow(plan.assignments, flat, i) == Some(plan.assignments[i])
    {
      OwnRowApplied(p, flat, plan, i);
    }
    assert Applied(plan, flat).assignments == plan.assignments;
  }

  // From the input to the launched processes: no process of the run other than
  // the victim can execute on the victim's CPUs exactly when the run isolates
  // the victim and leaves no process without CPUs.
  lemma LaunchShieldedIff(p: PerformanceProfile, flat: seq<FlatProcess>, plan: Plan)
    requires PlanOf(p, flat) == Ok(plan) && Numbered(flat) && Avoids(flat, {VICTIM, OBSERVER})
    ensures LaunchShielded(plan, flat) <==>
              RunIsolates(p, flat) && forall i | 0 <= i < |flat| :: !GetsNothing(p, flat[i])
  {
    hide PlanOf, Numbered, AppliedRow, VictimShielded, RunIsolates, GetsNothing, Applied, Avoids;
    AppliedAsPlanned(p, flat, plan);
    RunShieldedIff(p, flat, plan);
  }
}
