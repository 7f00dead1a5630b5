// The systemd scope and cgroup directory of each row of a plan.
module UnitNames {
  import opened GoStrings
  import opened Topology
  import opened Profile
  import opened Planner
  import opened Identity

  // ---------- sanitiseUnit ----------

  predicate IsClean(c: char) {
    'a' <= c <= 'z' || 'A' <= c <= 'Z' || '0' <= c <= '9' || c == '-' || c == '_'
  }

  predicate AllClean(s: string) {
    forall c <- s :: IsClean(c)
  }

  // The number of bytes of a character in a Go string.
  function Utf8Length(c: char): nat {
    if c < '\U{0080}' then 1 else if c < '\U{0800}' then 2 else if c < '\U{10000}' then 3 else 4
  }

  // The replacement is made byte by byte.
  function CleanChar(c: char): string {
    if IsClean(c) then [c] else seq(Utf8Length(c), _ => '_')
  }

  function Sanitise(s: string): string {
    if s == [] then [] else Sanitise(s[..|s| - 1]) + CleanChar(s[|s| - 1])
  }

  method SanitiseUnit(s: string) returns (out: string)
    ensures out == Sanitise(s)
  {
    out := [];
    for i := 0 to |s|
      invariant out == Sanitise(s[..i])
    {
      assert s[..i + 1][..i] == s[..i];
      if IsClean(s[i]) {
        out := out + [s[i]];
      } else {
        ghost var before := out;
        for k := 0 to Utf8Length(s[i])
          invariant out == before + seq(k, _ => '_')
        {
          out := out + ['_'];
        }
      }
    }
    assert s[..|s|] == s;
  }

  function ScopeUnitName(a: Assignment): string {
    if a.replicaID != "" then "chaos-" + Sanitise(a.component) + "-" + Sanitise(a.replicaID) + ".scope"
    else "chaos-" + Sanitise(a.component) + ".scope"
  }

  // The cgroup directory, a direct child of the slice's.
  function UnitDir(a: Assignment): string {
    "/sys/fs/cgroup/chaos.slice/" + ScopeUnitName(a)
  }

  // ---------- Names of flattened processes ----------

  lemma {:induction false} SanitiseConcat(s: string, t: string)
    ensures Sanitise(s + t) == Sanitise(s) + Sanitise(t)
    decreases |t|
  {
    if t == [] {
      assert s + t == s;
    } else {
      var n := |t| - 1;
      assert (s + t)[..|s + t| - 1] == s + t[..n];
      SanitiseConcat(s, t[..n]);
    }
  }

  lemma {:induction false} SanitiseClean(s: string)
    requires AllClean(s)
    ensures Sanitise(s) == s
  {
    if s != [] {
      var n := |s| - 1;
      assert Sanitise(s) == Sanitise(s[..n]) + CleanChar(s[n]);
      assert AllClean(s[..n]) && IsClean(s[n]) by {
        assert forall c <- s[..n] :: c in s;
        assert s[n] in s;
      }
      assert CleanChar(s[n]) == [s[n]];
      hide CleanChar, IsClean, AllClean, Sanitise;
      SanitiseClean(s[..n]);
      assert s == s[..n] + [s[n]];
    }
  }

  lemma DigitsClean(d: string)
    requires AllDigits(d)
    ensures AllClean("-" + d)
  {
    forall c | c in "-" + d ensures IsClean(c) {
      assert c == '-' || c in d;
    }
  }

  lemma Assoc(a: string, b: string, c: string)
    ensures a + b + c == a + (b + c)
  {
  }

  lemma SanitisedReplicaID(component: string, index: nat)
    ensures Sanitise(ReplicaID(component, index)) == Sanitise(component) + "-" + Itoa(index)
  {
    hide Sanitise, AllClean, AllDigits, IsDigit;
    var digits := Itoa(index);
    DigitsClean(digits);
    SanitiseClean("-" + digits);
    SanitiseConcat(component, "-" + digits);
    Assoc(component, "-", digits);
    Assoc(Sanitise(component), "-", digits);
  }

  // The part of a worker's unit name between "chaos-" and ".scope".
  function Core(s: string, index: nat): string {
    s + "-" + s + "-" + Itoa(index)
  }

  lemma CoreInjective(s: string, i: nat, t: string, j: nat)
    requires Core(s, i) == Core(t, j)
    ensures s == t && i == j
  {
    DashDigits(s + "-" + s, Itoa(i), t + "-" + t, Itoa(j));
    var a, b := s + "-" + s, t + "-" + t;
    assert |a| == 2 * |s| + 1 && |b| == 2 * |t| + 1;
    assert a[..|s|] == s && b[..|t|] == t;
    DigitsInjective(i, j);
  }

  lemma Unwrap(x: string, y: string)
    requires "chaos-" + x + ".scope" == "chaos-" + y + ".scope"
    ensures x == y
  {
    var a, b := "chaos-" + x + ".scope", "chaos-" + y + ".scope";
    assert a[6..|a| - 6] == x && b[6..|b| - 6] == y;
  }

  lemma WorkerUnit(a: Assignment, index: nat)
    requires a.replicaID == ReplicaID(a.component, index)
    ensures ScopeUnitName(a) == "chaos-" + Core(Sanitise(a.component), index) + ".scope"
  {
    hide Sanitise, Itoa;
    SanitisedReplicaID(a.component, index);
    assert |a.replicaID| > 0;
    WrapCore("chaos-", Sanitise(a.component), Itoa(index), ".scope");
  }

  lemma WrapCore(pre: string, s: string, digits: string, suf: string)
    ensures pre + s + "-" + (s + "-" + digits) + suf == pre + (s + "-" + s + "-" + digits) + suf
  {
  }

  // Two workers share a unit exactly when their components sanitise alike
  // and their indexes agree.
  lemma WorkerUnitsEqualIff(a: Assignment, i: nat, b: Assignment, j: nat)
    requires a.replicaID == ReplicaID(a.component, i) && b.replicaID == ReplicaID(b.component, j)
    ensures ScopeUnitName(a) == ScopeUnitName(b) <==> Sanitise(a.component) == Sanitise(b.component) && i == j
  {
    hide ScopeUnitName, Sanitise, Core;
    WorkerUnit(a, i);
    WorkerUnit(b, j);
    if ScopeUnitName(a) == ScopeUnitName(b) {
      Unwrap(Core(Sanitise(a.component), i), Core(Sanitise(b.component), j));
      CoreInjective(Sanitise(a.component), i, Sanitise(b.component), j);
    }
  }

  // A worker's unit is never the victim's or the observer's.
  lemma WorkerUnitNotSynthetic(a: Assignment, i: nat, b: Assignment)
    requires a.replicaID == ReplicaID(a.component, i) && b.replicaID == ""
    requires b.component == VICTIM || b.component == OBSERVER
    ensures ScopeUnitName(a) != ScopeUnitName(b)
  {
    WorkerUnit(a, i);
    SyntheticUnit(b);
    var core, digits := Core(Sanitise(a.component), i), Itoa(i);
    hide ScopeUnitName, Sanitise;
    assert core[|core| - 1] == digits[|digits| - 1] && digits[|digits| - 1] in digits;
    if ScopeUnitName(a) == ScopeUnitName(b) {
      Unwrap(core, b.component);
    }
  }

  lemma SyntheticUnit(b: Assignment)
    requires b.replicaID == "" && (b.component == VICTIM || b.component == OBSERVER)
    ensures ScopeUnitName(b) == "chaos-" + b.component + ".scope"
    ensures !IsDigit(b.component[|b.component| - 1])
  {
    hide Sanitise, AllClean;
    SyntheticClean(b.component);
    SanitiseClean(b.component);
  }

  lemma SyntheticClean(name: string)
    requires name == VICTIM || name == OBSERVER
    ensures AllClean(name)
  {
  }

  // ---------- All rows of a plan ----------

  ghost predicate UnitsDistinct(rows: seq<Assignment>) {
    forall i, j | 0 <= i < j < |rows| :: UnitDir(rows[i]) != UnitDir(rows[j])
  }

  // No two components of the topology sanitise to the same text.
  ghost predicate NamesApart(flat: seq<FlatProcess>) {
    forall i, j | 0 <= i < |flat| && 0 <= j < |flat| ::
      Sanitise(flat[i].component) == Sanitise(flat[j].component) ==> flat[i].component == flat[j].component
  }

  lemma DirsEqualIff(a: Assignment, b: Assignment)
    ensures UnitDir(a) == UnitDir(b) <==> ScopeUnitName(a) == ScopeUnitName(b)
  {
    hide ScopeUnitName;
    var n := |"/sys/fs/cgroup/chaos.slice/"|;
    assert UnitDir(a)[n..] == ScopeUnitName(a) && UnitDir(b)[n..] == ScopeUnitName(b);
  }

  // The index in the i-th process's replica ID.
  function IndexOf(flat: seq<FlatProcess>, i: nat): nat
    requires i < |flat|
  {
    CountOf(flat[..i], flat[i].component)
  }

  lemma IndexesDiffer(flat: seq<FlatProcess>, i: nat, j: nat)
    requires i < j < |flat| && flat[i].component == flat[j].component
    ensures IndexOf(flat, i) < IndexOf(flat, j)
  {
    var c := flat[i].component;
    CountMonotone(flat, i + 1, j, c);
    assert flat[..i + 1][..i] == flat[..i];
  }

  lemma WorkersShare(flat: seq<FlatProcess>, rows: seq<Assignment>, i: nat, j: nat)
    requires Numbered(flat) && |rows| >= |flat| && i < |flat| && j < |flat|
    requires rows[i].component == flat[i].component && rows[i].replicaID == flat[i].replicaID
    requires rows[j].component == flat[j].component && rows[j].replicaID == flat[j].replicaID
    ensures UnitDir(rows[i]) == UnitDir(rows[j]) <==>
              Sanitise(flat[i].component) == Sanitise(flat[j].component) && IndexOf(flat, i) == IndexOf(flat, j)
  {
    hide UnitDir, Sanitise, CountOf, ReplicaID, ScopeUnitName;
    WorkerUnitsEqualIff(rows[i], IndexOf(flat, i), rows[j], IndexOf(flat, j));
    DirsEqualIff(rows[i], rows[j]);
  }

  // The rows of a plan for a flattened topology have pairwise distinct scopes
  // and cgroup directories exactly when no two of its component names
  // sanitise to the same text.
  lemma UnitsDistinctIff(p: PerformanceProfile, flat: seq<FlatProcess>, plan: Plan)
    requires PlanOf(p, flat) == Ok(plan) && Numbered(flat)
    ensures UnitsDistinct(plan.assignments) <==> NamesApart(flat)
  {
    RowNames(p, flat, plan);
    hide PlanOf, Numbered, UnitDir, Sanitise;
    var rows := plan.assignments;
    if NamesApart(flat) {
      forall i, j | 0 <= i < j < |rows|
        ensures UnitDir(rows[i]) != UnitDir(rows[j])
      {
        RowsUnitsApart(flat, rows, i, j);
      }
    } else {
      var i, j :| 0 <= i < |flat| && 0 <= j < |flat| && Sanitise(flat[i].component) == Sanitise(flat[j].component)
                  && flat[i].component != flat[j].component;
      var k, l := ShareUnit(flat, rows, i, j);
      assert k < l || l < k;
    }
  }

  lemma RowsUnitsApart(flat: seq<FlatProcess>, rows: seq<Assignment>, i: nat, j: nat)
    requires Numbered(flat) && NamesApart(flat) && |rows| == |flat| + 2 && i < j < |rows|
    requires forall k | 0 <= k < |flat| ::
        rows[k].component == flat[k].component && rows[k].replicaID == flat[k].replicaID
    requires rows[|flat|].component == OBSERVER && rows[|flat|].replicaID == ""
    requires rows[|flat| + 1].component == VICTIM && rows[|flat| + 1].replicaID == ""
    ensures UnitDir(rows[i]) != UnitDir(rows[j])
  {
    hide UnitDir, Sanitise, CountOf, ReplicaID, ScopeUnitName;
    if j < |flat| {
      WorkersShare(flat, rows, i, j);
      if flat[i].component == flat[j].component {
        IndexesDiffer(flat, i, j);
      }
    } else if i < |flat| {
      assert j == |flat| || j == |flat| + 1;
      WorkerUnitNotSynthetic(rows[i], IndexOf(flat, i), rows[j]);
      DirsEqualIff(rows[i], rows[j]);
    } else {
      SyntheticUnit(rows[i]);
      SyntheticUnit(rows[j]);
      DirsEqualIff(rows[i], rows[j]);
      if ScopeUnitName(rows[i]) == ScopeUnitName(rows[j]) {
        Unwrap(OBSERVER, VICTIM);
      }
    }
  }

  // Two components that sanitise alike both have a process with index 0, and
  // these two share a unit.
  lemma ShareUnit(flat: seq<FlatProcess>, rows: seq<Assignment>, i: nat, j: nat) returns (k: nat, l: nat)
    requires Numbered(flat) && |rows| >= |flat| && i < |flat| && j < |flat|
    requires forall n | 0 <= n < |flat| ::
        rows[n].component == flat[n].component && rows[n].replicaID == flat[n].replicaID
    requires Sanitise(flat[i].component) == Sanitise(flat[j].component) && flat[i].component != flat[j].component
    ensures k < |flat| && l < |flat| && k != l && UnitDir(rows[k]) == UnitDir(rows[l])
  {
    hide UnitDir, Sanitise, ScopeUnitName, ReplicaID;
    k := FirstReplica(flat, i);
    l := FirstReplica(flat, j);
    WorkerUnitsEqualIff(rows[k], 0, rows[l], 0);
    DirsEqualIff(rows[k], rows[l]);
  }

  lemma FirstReplica(flat: seq<FlatProcess>, i: nat) returns (k: nat)
    requires Numbered(flat) && i < |flat|
    ensures k < |flat| && flat[k].component == flat[i].component && flat[k].replicaID == ReplicaID(flat[i].component, 0)
  {
    hide ReplicaID;
    var c := flat[i].component;
    CountMonotone(flat, i, |flat|, c);
    assert flat[..|flat|] == flat;
    IndexesAreInitial(flat, c, 0);
    k :| 0 <= k < |flat| && IsReplica(flat[k], c, 0);
  }

  // Clean component names never collide.
  lemma CleanNamesApart(flat: seq<FlatProcess>)
    requires forall i | 0 <= i < |flat| :: AllClean(flat[i].component)
    ensures NamesApart(flat)
  {
    hide Sanitise, AllClean;
    forall i, j | 0 <= i < |flat| && 0 <= j < |flat| && Sanitise(flat[i].component) == Sanitise(flat[j].component)
      ensures flat[i].component == flat[j].component
    {
      SanitiseClean(flat[i].component);
      SanitiseClean(flat[j].component);
    }
  }

  // ---------- The names as they are written ----------

  // The ASCII codes of [A-Za-z0-9_-].
  predicate CleanCode(c: char) {
    var n := c as int;
    65 <= n <= 90 || 97 <= n <= 122 || 48 <= n <= 57 || n == 95 || n == 45
  }

  lemma {:induction false} SanitiseGrows(s: string)
    ensures |Sanitise(s)| >= |s|
  {
    if s != [] {
      SanitiseGrows(s[..|s| - 1]);
    }
  }

  lemma CharUnchangedIff(c: char)
    ensures |CleanChar(c)| >= 1
    ensures CleanChar(c) == [c] <==> CleanCode(c)
  {
    assert !IsClean(c) ==> CleanChar(c)[0] == '_';
  }

  lemma LastClean(s: string)
    requires s != []
    ensures (forall c <- s :: CleanCode(c)) <==>
              (forall c <- s[..|s| - 1] :: CleanCode(c)) && CleanCode(s[|s| - 1])
  {
    hide CleanCode;
    var n := |s| - 1;
    assert s[n] in s && forall c <- s[..n] :: c in s;
    assert forall c <- s :: c in s[..n] || c == s[n];
  }

  // A name is left as it is exactly when it is over [A-Za-z0-9_-].
  lemma {:induction false} UnchangedIff(s: string)
    ensures Sanitise(s) == s <==> forall c <- s :: CleanCode(c)
  {
    if s != [] {
      var n := |s| - 1;
      assert Sanitise(s) == Sanitise(s[..n]) + CleanChar(s[n]);
      hide CleanCode, CleanChar, Sanitise;
      UnchangedIff(s[..n]);
      SanitiseGrows(s[..n]);
      CharUnchangedIff(s[n]);
      LastClean(s);
      assert s == s[..n] + [s[n]];
    } else {
      assert Sanitise(s) == s;
    }
  }

  // Other characters give one underscore for each byte of their encoding.
  lemma ReplacedBytes()
    ensures Sanitise(".") == "_" && Sanitise("\U{00E9}") == "__"
    ensures Sanitise("\U{20AC}") == "___" && Sanitise("\U{1F600}") == "____"
  {
    OneCharacter('.');
    OneCharacter('\U{00E9}');
    OneCharacter('\U{20AC}');
    OneCharacter('\U{1F600}');
    assert CleanChar('.') == "_" && CleanChar('\U{00E9}') == "__";
    assert CleanChar('\U{20AC}') == "___" && CleanChar('\U{1F600}') == "____";
  }

  lemma OneCharacter(c: char)
    ensures Sanitise([c]) == CleanChar(c)
  {
    assert [c][..0] == [];
  }

  // The scopes and cgroup directories of a clean component's replicas, and of
  // the observer and the victim.
  lemma CleanUnits(a: Assignment, index: nat)
    requires a.replicaID == a.component + "-" + Itoa(index) && AllClean(a.component)
    ensures ScopeUnitName(a) == "chaos-" + (a.component + "-" + a.component + "-" + Itoa(index)) + ".scope"
    ensures UnitDir(a) == "/sys/fs/cgroup/chaos.slice/" + ScopeUnitName(a)
  {
    hide Sanitise, Itoa;
    WorkerUnit(a, index);
    SanitiseClean(a.component);
  }

  lemma ObserverUnit(a: Assignment)
    requires a.replicaID == "" && a.component == "chaos-observer"
    ensures ScopeUnitName(a) == "chaos-chaos-observer.scope"
  {
    SyntheticUnit(a);
    hide ScopeUnitName;
  }

  lemma VictimUnit(a: Assignment)
    requires a.replicaID == "" && a.component == "chaos-victim"
    ensures ScopeUnitName(a) == "chaos-chaos-victim.scope"
  {
    SyntheticUnit(a);
    hide ScopeUnitName;
  }
}
