// Which row of the plan a process gets, and which process a row is verified
// against: FindAssignment, the launcher's process names and its pid map.
module Identity {
  import opened GoStrings
  import opened Topology
  import opened Profile
  import opened Planner
  import opened PlanFacts
  import opened Verify

  // ---------- FindAssignment ----------

  predicate IsFor(a: Assignment, component: string, replicaID: string) {
    a.component == component && (replicaID == "" || a.replicaID == replicaID)
  }

  // What FindAssignment returns.
  function RowFor(rows: seq<Assignment>, component: string, replicaID: string): Option<Assignment> {
    if rows == [] then None
    else if IsFor(rows[0], component, replicaID) then Some(rows[0])
    else RowFor(rows[1..], component, replicaID)
  }

  lemma {:induction false} FirstRowFor(rows: seq<Assignment>, component: string, replicaID: string, i: nat)
    requires FirstFor(rows, component, replicaID, i)
    ensures RowFor(rows, component, replicaID) == Some(rows[i])
  {
    if i > 0 {
      assert !IsFor(rows[0], component, replicaID);
      assert forall k | 0 <= k < i - 1 :: rows[1..][k] == rows[k + 1];
      FirstRowFor(rows[1..], component, replicaID, i - 1);
    }
  }

  lemma {:induction false} NoRowFor(rows: seq<Assignment>, component: string, replicaID: string)
    requires forall i | 0 <= i < |rows| :: !IsFor(rows[i], component, replicaID)
    ensures RowFor(rows, component, replicaID) == None
  {
    if rows != [] {
      NoRowFor(rows[1..], component, replicaID);
    }
  }

  method FindAssignment(rows: seq<Assignment>, component: string, replicaID: string) returns (found: Option<Assignment>)
    ensures found == RowFor(rows, component, replicaID)
    ensures found.None? ==>
              forall row <- rows :: row.component != component || (replicaID != "" && row.replicaID != replicaID)
    ensures found.Some? ==>
              found.value.component == component && (replicaID == "" || found.value.replicaID == replicaID)
    ensures found.Some? ==> exists i | 0 <= i < |rows| ::
        FirstFor(rows, component, replicaID, i) && found.value == rows[i]
  {
    for i := 0 to |rows|
      invariant forall k | 0 <= k < i :: !IsFor(rows[k], component, replicaID)
    {
      if rows[i].component != component {
        continue;
      }
      if replicaID != "" && rows[i].replicaID != replicaID {
        continue;
      }
      assert FirstFor(rows, component, replicaID, i);
      FirstRowFor(rows, component, replicaID, i);
      return Some(rows[i]);
    }
    NoRowFor(rows, component, replicaID);
    assert forall row <- rows :: !IsFor(row, component, replicaID);
    return None;
  }

  ghost predicate FirstFor(rows: seq<Assignment>, component: string, replicaID: string, i: nat) {
    i < |rows| && IsFor(rows[i], component, replicaID) && forall k | 0 <= k < i :: !IsFor(rows[k], component, replicaID)
  }

  // ---------- Identity of rows ----------

  lemma EndsInDigit(fp: FlatProcess, index: nat)
    requires fp.replicaID == ReplicaID(fp.component, index)
    ensures fp.replicaID != "" && IsDigit(fp.replicaID[|fp.replicaID| - 1])
  {
    var digits := Itoa(index);
    assert fp.replicaID[|fp.replicaID| - 1] == digits[|digits| - 1];
    assert digits[|digits| - 1] in digits;
  }

  lemma ReplicaIDsEndInDigits(flat: seq<FlatProcess>)
    requires Numbered(flat)
    ensures forall i | 0 <= i < |flat| ::
              flat[i].replicaID != "" && IsDigit(flat[i].replicaID[|flat[i].replicaID| - 1])
  {
    hide ReplicaID, CountOf, IsDigit;
    forall i | 0 <= i < |flat|
      ensures flat[i].replicaID != "" && IsDigit(flat[i].replicaID[|flat[i].replicaID| - 1])
    {
      EndsInDigit(flat[i], CountOf(flat[..i], flat[i].component));
    }
  }

  // Rows named as a plan's rows are: the processes', then the observer's and
  // the victim's.
  ghost predicate Named(flat: seq<FlatProcess>, rows: seq<Assignment>) {
    && |rows| == |flat| + 2
    && (forall i | 0 <= i < |flat| :: rows[i].component == flat[i].component && rows[i].replicaID == flat[i].replicaID)
    && rows[|flat|].component == OBSERVER && rows[|flat|].replicaID == ""
    && rows[|flat| + 1].component == VICTIM && rows[|flat| + 1].replicaID == ""
  }

  lemma RowNames(p: PerformanceProfile, flat: seq<FlatProcess>, plan: Plan)
    requires PlanOf(p, flat) == Ok(plan)
    ensures Named(flat, plan.assignments)
  {
    PlanRows(p, flat, plan);
    hide PlanOf, Carve, CPUsFor;
  }

  // In a plan for a flattened topology every process finds the row that was
  // built for it.
  lemma ProcessFindsItsRow(p: PerformanceProfile, flat: seq<FlatProcess>, plan: Plan, i: nat)
    requires PlanOf(p, flat) == Ok(plan) && Numbered(flat) && i < |flat|
    ensures FirstFor(plan.assignments, flat[i].component, flat[i].replicaID, i)
  {
    RowNames(p, flat, plan);
    ReplicaIDsDistinct(flat);
    ReplicaIDsEndInDigits(flat);
    hide PlanOf, Numbered;
  }

  // The row at k is the first of its component exactly when no process bears
  // the name.
  lemma FirstOfNameIff(flat: seq<FlatProcess>, rows: seq<Assignment>, name: string, k: nat)
    requires |flat| <= k < |rows| && rows[k].component == name
    requires forall i | 0 <= i < |flat| :: rows[i].component == flat[i].component
    requires forall i | |flat| <= i < k :: rows[i].component != name
    ensures FirstFor(rows, name, "", k) <==> forall i | 0 <= i < |flat| :: flat[i].component != name
  {
    if FirstFor(rows, name, "", k) {
      assert forall i | 0 <= i < |flat| :: !IsFor(rows[i], name, "");
    }
  }

  lemma NamedRowsIff(flat: seq<FlatProcess>, rows: seq<Assignment>)
    requires Named(flat, rows)
    ensures FirstFor(rows, OBSERVER, "", |flat|) <==> forall i | 0 <= i < |flat| :: flat[i].component != OBSERVER
    ensures FirstFor(rows, VICTIM, "", |flat| + 1) <==> forall i | 0 <= i < |flat| :: flat[i].component != VICTIM
  {
    hide FirstFor;
    assert |OBSERVER| != |VICTIM|;
    FirstOfNameIff(flat, rows, OBSERVER, |flat|);
    FirstOfNameIff(flat, rows, VICTIM, |flat| + 1);
  }

  // The observer and the victim find their own rows exactly when no process
  // of the topology bears their names.
  lemma ObserverFindsItsRowIff(p: PerformanceProfile, flat: seq<FlatProcess>, plan: Plan)
    requires PlanOf(p, flat) == Ok(plan)
    ensures FirstFor(plan.assignments, OBSERVER, "", |flat|) <==>
        forall i | 0 <= i < |flat| :: flat[i].component != OBSERVER
  {
    hide *;
    RowNames(p, flat, plan);
    NamedRowsIff(flat, plan.assignments);
  }

  lemma VictimFindsItsRowIff(p: PerformanceProfile, flat: seq<FlatProcess>, plan: Plan)
    requires PlanOf(p, flat) == Ok(plan)
    ensures FirstFor(plan.assignments, VICTIM, "", |flat| + 1) <==>
        forall i | 0 <= i < |flat| :: flat[i].component != VICTIM
  {
    hide *;
    RowNames(p, flat, plan);
    NamedRowsIff(flat, plan.assignments);
  }

  // The keys of verification are pairwise distinct.
  lemma KeysDistinct(p: PerformanceProfile, flat: seq<FlatProcess>, plan: Plan)
    requires PlanOf(p, flat) == Ok(plan) && Numbered(flat)
    ensures forall i, j | 0 <= i < j < |plan.assignments| :: Key(plan.assignments[i]) != Key(plan.assignments[j])
  {
    hide *;
    RowNames(p, flat, plan);
    NamedKeysDistinct(flat, plan.assignments);
  }

  lemma NamedKeysDistinct(flat: seq<FlatProcess>, rows: seq<Assignment>)
    requires Named(flat, rows) && Numbered(flat)
    ensures forall i, j | 0 <= i < j < |rows| :: Key(rows[i]) != Key(rows[j])
  {
    ReplicaIDsDistinct(flat);
    hide Numbered, Key, IsDigit;
    forall i, j | 0 <= i < j < |rows|
      ensures Key(rows[i]) != Key(rows[j])
    {
      NamedKey(flat, rows, i);
      NamedKey(flat, rows, j);
    }
  }

  // A process's key is its replica ID, which ends in a digit; the synthetic
  // keys do not, and differ in length.
  lemma NamedKey(flat: seq<FlatProcess>, rows: seq<Assignment>, i: nat)
    requires Named(flat, rows) && Numbered(flat) && i < |rows|
    ensures Key(rows[i]) != "" && (IsDigit(Key(rows[i])[|Key(rows[i])| - 1]) <==> i < |flat|)
    ensures i < |flat| ==> Key(rows[i]) == flat[i].replicaID
    ensures i >= |flat| ==> |Key(rows[i])| == if i == |flat| then 14 else 12
  {
    hide Numbered;
    if i < |flat| {
      ReplicaIDsEndInDigits(flat);
    } else {
      SyntheticLetters();
      assert i == |flat| || i == |flat| + 1;
    }
  }

  lemma SyntheticLetters()
    ensures |OBSERVER| == 14 && |VICTIM| == 12
    ensures !IsDigit(OBSERVER[13]) && !IsDigit(VICTIM[11])
  {
  }

  // ---------- The launcher's pid map ----------

  // A started process: its name slot and its pid, if the start succeeded.
  datatype Started = Started(name: string, pid: Option<int>)

  const WORKER_OPEN := "worker["
  const WORKER_CLOSE := "]"

  function WorkerName(replicaID: string): string {
    WORKER_OPEN + replicaID + WORKER_CLOSE
  }

  // The verification key of a name slot.
  function PidKey(name: string): Option<string> {
    if HasPrefix(name, WORKER_OPEN) && HasSuffix(name, WORKER_CLOSE) then
      Some(TrimSuffix(TrimPrefix(name, WORKER_OPEN), WORKER_CLOSE))
    else if name == "victim" then Some(VICTIM)
    else if name == "observer" then Some(OBSERVER)
    else None
  }

  lemma WorkerKey(replicaID: string)
    ensures WorkerName(replicaID) == "worker[" + replicaID + "]"
    ensures PidKey("worker[" + replicaID + "]") == Some(replicaID)
  {
    var name := WorkerName(replicaID);
    assert name[..|WORKER_OPEN|] == WORKER_OPEN;
    assert name[|name| - 1..] == WORKER_CLOSE;
    var inner := replicaID + WORKER_CLOSE;
    assert name[|WORKER_OPEN|..] == inner;
    assert inner[|inner| - 1..] == WORKER_CLOSE && inner[..|inner| - 1] == replicaID;
  }

  lemma SyntheticKeys()
    ensures PidKey("victim") == Some("chaos-victim") && PidKey("observer") == Some("chaos-observer")
  {
  }

  // A key comes from one of the three name slots and from nothing else.
  lemma KeyOnlyOfSlots(name: string, key: string)
    requires PidKey(name) == Some(key)
    ensures || name == "worker[" + key + "]"
            || (name == "victim" && key == "chaos-victim")
            || (name == "observer" && key == "chaos-observer")
  {
    if HasPrefix(name, WORKER_OPEN) && HasSuffix(name, WORKER_CLOSE) {
      var rest := name[|WORKER_OPEN|..];
      assert name == WORKER_OPEN + rest;
      assert |WORKER_OPEN| == 7 && name[6] == WORKER_OPEN[6] == '[';
      assert name[|name| - 1] == name[|name| - 1..][0] == ']';
      assert rest != [] && name[|name| - 1] == rest[|rest| - 1];
      assert WORKER_CLOSE == "]" && rest[|rest| - 1] == ']';
      assert rest == rest[..|rest| - 1] + "]";
    }
  }

  // The last started process with the key decides.
  function PidsOf(procs: seq<Started>): map<string, int> {
    if procs == [] then map[]
    else
      var front, last := PidsOf(procs[..|procs| - 1]), procs[|procs| - 1];
      if last.pid.Some? && PidKey(last.name).Some? then front[PidKey(last.name).value := last.pid.value] else front
  }

  method BuildPids(procs: seq<Started>) returns (pids: map<string, int>)
    ensures pids == PidsOf(procs)
  {
    pids := map[];
    for i := 0 to |procs|
      invariant pids == PidsOf(procs[..i])
    {
      assert procs[..i + 1][..i] == procs[..i];
      if procs[i].pid.None? {
        continue;
      }
      var name := procs[i].name;
      if HasPrefix(name, WORKER_OPEN) && HasSuffix(name, WORKER_CLOSE) {
        pids := pids[TrimSuffix(TrimPrefix(name, WORKER_OPEN), WORKER_CLOSE) := procs[i].pid.value];
      } else if name == "victim" {
        pids := pids[VICTIM := procs[i].pid.value];
      } else if name == "observer" {
        pids := pids[OBSERVER := procs[i].pid.value];
      }
    }
    assert procs[..|procs|] == procs;
  }

  // The launcher starts the observer, the victim and then the processes.
  ghost predicate Launched(flat: seq<FlatProcess>, procs: seq<Started>) {
    && |procs| == |flat| + 2
    && procs[0].name == "observer" && procs[1].name == "victim"
    && forall i | 0 <= i < |flat| :: procs[i + 2].name == WorkerName(flat[i].replicaID)
  }

  // The started process of the i-th row.
  function ProcOf(flat: seq<FlatProcess>, i: nat): nat {
    if i < |flat| then i + 2 else if i == |flat| then 0 else 1
  }

  lemma {:induction false} UniqueKeyDecides(procs: seq<Started>, i: nat, key: string)
    requires i < |procs| && PidKey(procs[i].name) == Some(key)
    requires forall j | 0 <= j < |procs| && j != i :: PidKey(procs[j].name) != Some(key)
    ensures key in PidsOf(procs) <==> procs[i].pid.Some?
    ensures procs[i].pid.Some? ==> PidsOf(procs)[key] == procs[i].pid.value
    decreases |procs|
  {
    hide PidKey;
    var n := |procs| - 1;
    if i < n {
      UniqueKeyDecides(procs[..n], i, key);
    } else {
      KeyAbsent(procs[..n], key);
    }
  }

  lemma {:induction false} KeyAbsent(procs: seq<Started>, key: string)
    requires forall j | 0 <= j < |procs| :: PidKey(procs[j].name) != Some(key)
    ensures key !in PidsOf(procs)
  {
    hide PidKey;
    if procs != [] {
      KeyAbsent(procs[..|procs| - 1], key);
    }
  }

  lemma LaunchedKey(p: PerformanceProfile, flat: seq<FlatProcess>, plan: Plan, procs: seq<Started>, i: nat)
    requires PlanOf(p, flat) == Ok(plan) && Numbered(flat) && Launched(flat, procs) && i < |plan.assignments|
    requires |plan.assignments| == |flat| + 2
    ensures PidKey(procs[ProcOf(flat, i)].name) == Some(Key(plan.assignments[i]))
  {
    RowNames(p, flat, plan);
    ReplicaIDsEndInDigits(flat);
    SyntheticKeys();
    hide PlanOf, Numbered, PidKey, WorkerName;
    if i < |flat| {
      WorkerKey(flat[i].replicaID);
    } else {
      assert i == |flat| || i == |flat| + 1;
    }
  }

  // Every row of the plan is verified against the process that was started
  // for it, and against no other.
  lemma RowMeetsItsProcess(p: PerformanceProfile, flat: seq<FlatProcess>, plan: Plan, procs: seq<Started>, i: nat)
    requires PlanOf(p, flat) == Ok(plan) && Numbered(flat) && Launched(flat, procs)
    requires |plan.assignments| == |flat| + 2 && i < |plan.assignments|
    ensures var proc := procs[ProcOf(flat, i)];
            && (Key(plan.assignments[i]) in PidsOf(procs) <==> proc.pid.Some?)
            && (proc.pid.Some? ==> PidsOf(procs)[Key(plan.assignments[i])] == proc.pid.value)
  {
    KeysDistinct(p, flat, plan);
    hide PlanOf, Numbered, PidKey, Launched, Key;
    LaunchedKey(p, flat, plan, procs, i);
    forall j | 0 <= j < |procs| && j != ProcOf(flat, i)
      ensures PidKey(procs[j].name) != Some(Key(plan.assignments[i]))
    {
      var row := if j >= 2 then j - 2 else if j == 0 then |flat| else |flat| + 1;
      LaunchedSize(flat, procs);
      LaunchedKey(p, flat, plan, procs, row);
      assert ProcOf(flat, row) == j && row != i;
      assert row < i || i < row;
    }
    LaunchedSize(flat, procs);
    UniqueKeyDecides(procs, ProcOf(flat, i), Key(plan.assignments[i]));
  }

  lemma LaunchedSize(flat: seq<FlatProcess>, procs: seq<Started>)
    requires Launched(flat, procs)
    ensures |procs| == |flat| + 2
  {
  }
}
