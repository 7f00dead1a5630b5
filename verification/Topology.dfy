// The host topology and its expansion into one entry per process.
module Topology {
  import opened GoStrings

  datatype ProcessSpec = ProcessSpec(profile: string, replicas: int, gomaxprocs: int, idealThreads: int)

  datatype Component = Component(name: string, processes: seq<ProcessSpec>)

  datatype FlatProcess = FlatProcess(
    component: string,
    profile: string,
    gomaxprocs: int,
    idealThreads: int,
    replicaID: string)

  function ReplicaID(component: string, index: nat): string {
    component + "-" + Itoa(index)
  }

  function Replicas(spec: ProcessSpec): nat {
    if spec.replicas <= 0 then 1 else spec.replicas
  }

  // ---------- What Flatten yields ----------

  // How many of the processes belong to the component.
  function CountOf(flat: seq<FlatProcess>, component: string): nat {
    if flat == [] then 0
    else CountOf(flat[..|flat| - 1], component) + if flat[|flat| - 1].component == component then 1 else 0
  }

  // The i-th process carries the number of earlier processes of its
  // component as its index.
  ghost predicate Numbered(flat: seq<FlatProcess>) {
    forall i | 0 <= i < |flat| ::
      flat[i].replicaID == ReplicaID(flat[i].component, CountOf(flat[..i], flat[i].component))
  }

  // One process of a spec without its replica ID.
  function Unnumbered(component: string, spec: ProcessSpec, override: int): FlatProcess {
    FlatProcess(component, spec.profile, if override > 0 then override else spec.gomaxprocs, spec.idealThreads, "")
  }

  function Repeat<T>(x: T, n: nat): seq<T> {
    if n == 0 then [] else Repeat(x, n - 1) + [x]
  }

  function ExpandSpecs(component: string, specs: seq<ProcessSpec>, override: int): seq<FlatProcess> {
    if specs == [] then []
    else
      var last := specs[|specs| - 1];
      ExpandSpecs(component, specs[..|specs| - 1], override)
        + Repeat(Unnumbered(component, last, override), Replicas(last))
  }

  function Expand(components: seq<Component>, override: int): seq<FlatProcess> {
    if components == [] then []
    else
      var last := components[|components| - 1];
      Expand(components[..|components| - 1], override) + ExpandSpecs(last.name, last.processes, override)
  }

  // A process list without its replica IDs.
  function Erase(flat: seq<FlatProcess>): seq<FlatProcess> {
    seq(|flat|, i requires 0 <= i < |flat| => flat[i].(replicaID := ""))
  }

  // ---------- Flatten ----------

  function Lookup(indexes: map<string, nat>, name: string): nat {
    if name in indexes then indexes[name] else 0
  }

  // The indexes map counts what has been appended.
  ghost predicate Counted(indexes: map<string, nat>, out: seq<FlatProcess>) {
    && Numbered(out)
    && forall name: string :: Lookup(indexes, name) == CountOf(out, name)
  }

  lemma AppendNumbered(indexes: map<string, nat>, out: seq<FlatProcess>, p: FlatProcess)
    requires Counted(indexes, out)
    requires p.replicaID == ReplicaID(p.component, Lookup(indexes, p.component))
    ensures Counted(indexes[p.component := Lookup(indexes, p.component) + 1], out + [p])
    ensures Erase(out + [p]) == Erase(out) + [p.(replicaID := "")]
  {
    var all := out + [p];
    assert all[..|out|] == out;
    forall name: string
      ensures Lookup(indexes[p.component := Lookup(indexes, p.component) + 1], name) == CountOf(all, name)
    {
      assert CountOf(all, name) == CountOf(out, name) + if p.component == name then 1 else 0;
    }
    forall i | 0 <= i < |all|
      ensures all[i].replicaID == ReplicaID(all[i].component, CountOf(all[..i], all[i].component))
    {
      if i < |out| {
        assert all[..i] == out[..i];
      }
    }
  }

  method FlattenSpec(component: string, spec: ProcessSpec, override: int, out: seq<FlatProcess>,
                     indexes: map<string, nat>)
    returns (out': seq<FlatProcess>, indexes': map<string, nat>)
    requires Counted(indexes, out)
    ensures Counted(indexes', out')
    ensures Erase(out') == Erase(out) + Repeat(Unnumbered(component, spec, override), Replicas(spec))
  {
    hide Counted, Numbered, CountOf, ReplicaID, Erase;
    var replicas := spec.replicas;
    if replicas <= 0 {
      replicas := 1;
    }
    var gmp := spec.gomaxprocs;
    if override > 0 {
      gmp := override;
    }
    out', indexes' := out, indexes;
    ghost var one := Unnumbered(component, spec, override);
    for i := 0 to replicas
      invariant Counted(indexes', out')
      invariant Erase(out') == Erase(out) + Repeat(one, i)
    {
      var idx := Lookup(indexes', component);
      var p := FlatProcess(component, spec.profile, gmp, spec.idealThreads, ReplicaID(component, idx));
      AppendNumbered(indexes', out', p);
      assert p.(replicaID := "") == one;
      assert Repeat(one, i + 1) == Repeat(one, i) + [one];
      indexes' := indexes'[component := idx + 1];
      out' := out' + [p];
    }
  }

  method FlattenComponent(c: Component, override: int, out: seq<FlatProcess>, indexes: map<string, nat>)
    returns (out': seq<FlatProcess>, indexes': map<string, nat>)
    requires Counted(indexes, out)
    ensures Counted(indexes', out')
    ensures Erase(out') == Erase(out) + ExpandSpecs(c.name, c.processes, override)
  {
    hide Counted;
    out', indexes' := out, indexes;
    for j := 0 to |c.processes|
      invariant Counted(indexes', out')
      invariant Erase(out') == Erase(out) + ExpandSpecs(c.name, c.processes[..j], override)
    {
      assert c.processes[..j + 1][..j] == c.processes[..j];
      out', indexes' := FlattenSpec(c.name, c.processes[j], override, out', indexes');
    }
    assert c.processes[..|c.processes|] == c.processes;
  }

  method Flatten(components: seq<Component>, override: int) returns (out: seq<FlatProcess>)
    ensures Erase(out) == Expand(components, override)
    ensures Numbered(out)
  {
    var indexes: map<string, nat> := map[];
    out := [];
    for k := 0 to |components|
      invariant Counted(indexes, out)
      invariant Erase(out) == Expand(components[..k], override)
    {
      assert components[..k + 1][..k] == components[..k];
      out, indexes := FlattenComponent(components[k], override, out, indexes);
    }
    assert components[..|components|] == components;
  }

  // ---------- The process count in Summary ----------

  function SpecTotal(specs: seq<ProcessSpec>): nat {
    if specs == [] then 0 else SpecTotal(specs[..|specs| - 1]) + Replicas(specs[|specs| - 1])
  }

  function ProcessTotal(components: seq<Component>): nat {
    if components == [] then 0
    else ProcessTotal(components[..|components| - 1]) + SpecTotal(components[|components| - 1].processes)
  }

  method CountProcesses(components: seq<Component>) returns (total: nat)
    ensures total == ProcessTotal(components)
  {
    total := 0;
    for k := 0 to |components|
      invariant total == ProcessTotal(components[..k])
    {
      assert components[..k + 1][..k] == components[..k];
      var specs := components[k].processes;
      ghost var before := total;
      for j := 0 to |specs|
        invariant total == before + SpecTotal(specs[..j])
      {
        assert specs[..j + 1][..j] == specs[..j];
        var r := specs[j].replicas;
        if r <= 0 {
          r := 1;
        }
        total := total + r;
      }
      assert specs[..|specs|] == specs;
    }
    assert components[..|components|] == components;
  }

  // ---------- Laws ----------

  lemma {:induction false} RepeatLength<T>(x: T, n: nat)
    ensures |Repeat(x, n)| == n
  {
    if n > 0 {
      RepeatLength(x, n - 1);
    }
  }

  lemma {:induction false} SpecsLength(component: string, specs: seq<ProcessSpec>, override: int)
    ensures |ExpandSpecs(component, specs, override)| == SpecTotal(specs)
  {
    if specs != [] {
      var n := |specs| - 1;
      SpecsLength(component, specs[..n], override);
      RepeatLength(Unnumbered(component, specs[n], override), Replicas(specs[n]));
    }
  }

  // Flatten yields as many processes as Summary counts.
  lemma {:induction false} FlattenCount(components: seq<Component>, override: int)
    ensures |Expand(components, override)| == ProcessTotal(components)
  {
    if components != [] {
      var n := |components| - 1;
      FlattenCount(components[..n], override);
      SpecsLength(components[n].name, components[n].processes, override);
    }
  }

  // The last dash of a replica ID separates the component from its index.
  lemma ReplicaIDInjective(a: string, i: nat, b: string, j: nat)
    requires ReplicaID(a, i) == ReplicaID(b, j)
    ensures a == b && i == j
  {
    DashDigits(a, Itoa(i), b, Itoa(j));
    DigitsInjective(i, j);
  }

  lemma DashDigits(a: string, d: string, b: string, e: string)
    requires AllDigits(d) && AllDigits(e)
    requires a + "-" + d == b + "-" + e
    ensures a == b && d == e
  {
    var s := a + "-" + d;
    LastDash(a, d);
    LastDash(b, e);
    assert s[..|a|] == a && s[..|b|] == b;
    assert s[|a| + 1..] == d && s[|b| + 1..] == e;
  }

  lemma LastDash(a: string, d: string)
    requires AllDigits(d)
    ensures var s := a + "-" + d;
            s[|a|] == '-' && forall k | |a| < k < |s| :: s[k] != '-'
  {
    assert forall k | 0 <= k < |d| :: d[k] in d;
  }

  lemma {:induction false} CountMonotone(flat: seq<FlatProcess>, i: nat, j: nat, component: string)
    requires i <= j <= |flat|
    ensures CountOf(flat[..i], component) <= CountOf(flat[..j], component)
    ensures i < j && flat[i].component == component ==> CountOf(flat[..i], component) < CountOf(flat[..j], component)
    decreases j
  {
    if i < j {
      assert flat[..j][..j - 1] == flat[..j - 1];
      CountMonotone(flat, i, j - 1, component);
    }
  }

  // Replica IDs are pairwise distinct, also when component names repeat or
  // end in digits themselves.
  lemma ReplicaIDsDistinct(flat: seq<FlatProcess>)
    requires Numbered(flat)
    ensures forall i, j | 0 <= i < j < |flat| :: flat[i].replicaID != flat[j].replicaID
  {
    forall i, j | 0 <= i < j < |flat|
      ensures flat[i].replicaID != flat[j].replicaID
    {
      var a, b := flat[i].component, flat[j].component;
      CountMonotone(flat, i, j, a);
      if flat[i].replicaID == flat[j].replicaID {
        ReplicaIDInjective(a, CountOf(flat[..i], a), b, CountOf(flat[..j], b));
      }
    }
  }

  // Some process of the list is the k-th of the component.
  ghost predicate HasReplica(flat: seq<FlatProcess>, component: string, k: nat) {
    exists i | 0 <= i < |flat| :: IsReplica(flat[i], component, k)
  }

  ghost predicate IsReplica(p: FlatProcess, component: string, k: nat) {
    p.component == component && p.replicaID == ReplicaID(component, k)
  }

  // The indexes of a component run through 0..n-1.
  lemma {:induction false} IndexesAreInitial(flat: seq<FlatProcess>, component: string, k: nat)
    requires Numbered(flat) && k < CountOf(flat, component)
    ensures HasReplica(flat, component, k)
  {
    hide ReplicaID;
    var n := |flat| - 1;
    var front := flat[..n];
    if k < CountOf(front, component) {
      assert forall i | 0 <= i < n :: front[..i] == flat[..i];
      IndexesAreInitial(front, component, k);
      var i :| 0 <= i < n && IsReplica(front[i], component, k);
      assert flat[i] == front[i];
    } else {
      assert IsReplica(flat[n], component, k);
    }
  }

  // ---------- The processes of a spec ----------

  lemma {:induction false} RepeatMembers<T>(x: T, n: nat)
    ensures |Repeat(x, n)| == n && forall i | 0 <= i < n :: Repeat(x, n)[i] == x
  {
    if n > 0 {
      RepeatMembers(x, n - 1);
    }
  }

  // One spec yields as many processes as it has replicas, none or fewer
  // counting as one, each with the spec's profile and ideal threads and with
  // its GOMAXPROCS unless a positive override replaces it.
  lemma SpecProcesses(component: string, spec: ProcessSpec, override: int)
    ensures var out := ExpandSpecs(component, [spec], override);
            && |out| == (if spec.replicas <= 0 then 1 else spec.replicas)
            && forall i | 0 <= i < |out| ::
                 && out[i].component == component && out[i].profile == spec.profile
                 && out[i].idealThreads == spec.idealThreads
                 && out[i].gomaxprocs == if override > 0 then override else spec.gomaxprocs
  {
    var one := Unnumbered(component, spec, override);
    assert [spec][..0] == [];
    RepeatMembers(one, Replicas(spec));
    assert [] + Repeat(one, Replicas(spec)) == Repeat(one, Replicas(spec));
  }

  // The specs of a component, and the components of a topology, follow one
  // another.
  lemma SpecsFollow(component: string, specs: seq<ProcessSpec>, spec: ProcessSpec, override: int)
    ensures ExpandSpecs(component, specs + [spec], override)
            == ExpandSpecs(component, specs, override) + ExpandSpecs(component, [spec], override)
  {
    assert (specs + [spec])[..|specs|] == specs && [spec][..0] == [];
    var last := Repeat(Unnumbered(component, spec, override), Replicas(spec));
    assert [] + last == last;
  }

  lemma ComponentsFollow(components: seq<Component>, c: Component, override: int)
    ensures Expand(components + [c], override)
            == Expand(components, override) + ExpandSpecs(c.name, c.processes, override)
  {
    assert (components + [c])[..|components|] == components;
  }

  // The process comes from this spec.
  ghost predicate ComesFrom(p: FlatProcess, c: Component, spec: ProcessSpec, override: int) {
    && spec in c.processes && p.component == c.name && p.profile == spec.profile
    && p.idealThreads == spec.idealThreads
    && p.gomaxprocs == if override > 0 then override else spec.gomaxprocs
  }

  ghost predicate HasSource(p: FlatProcess, components: seq<Component>, override: int) {
    exists c <- components, spec :: ComesFrom(p, c, spec, override)
  }

  lemma {:induction false} SpecsSource(c: Component, n: nat, override: int, i: nat)
    requires n <= |c.processes| && i < |ExpandSpecs(c.name, c.processes[..n], override)|
    ensures exists spec :: ComesFrom(ExpandSpecs(c.name, c.processes[..n], override)[i], c, spec, override)
    decreases n
  {
    var front, last := c.processes[..n][..n - 1], c.processes[n - 1];
    assert front == c.processes[..n - 1];
    var before := ExpandSpecs(c.name, front, override);
    if i < |before| {
      SpecsSource(c, n - 1, override, i);
      var spec :| ComesFrom(before[i], c, spec, override);
      assert ExpandSpecs(c.name, c.processes[..n], override)[i] == before[i];
    } else {
      var one := Unnumbered(c.name, last, override);
      RepeatMembers(one, Replicas(last));
      assert last in c.processes && ComesFrom(one, c, last, override);
      var all := ExpandSpecs(c.name, c.processes[..n], override);
      assert c.processes[..n][n - 1] == last && all == before + Repeat(one, Replicas(last));
      assert all[i] == Repeat(one, Replicas(last))[i - |before|];
    }
  }

  lemma {:induction false} ExpandSource(components: seq<Component>, override: int, i: nat)
    requires i < |Expand(components, override)|
    ensures HasSource(Expand(components, override)[i], components, override)
  {
    var n := |components| - 1;
    var front, last := components[..n], components[n];
    var before := Expand(front, override);
    var p := Expand(components, override)[i];
    if i < |before| {
      ExpandSource(front, override, i);
      var c, spec :| c in front && ComesFrom(p, c, spec, override);
      assert c in components;
    } else {
      assert last.processes[..|last.processes|] == last.processes;
      SpecsSource(last, |last.processes|, override, i - |before|);
      var spec :| ComesFrom(p, last, spec, override);
      assert last in components;
    }
  }

  // Every flattened process comes from a spec of its component, and its
  // replica ID is the component, a dash and its number.
  lemma FlattenedFrom(components: seq<Component>, override: int, out: seq<FlatProcess>, i: nat)
    requires Erase(out) == Expand(components, override) && Numbered(out) && i < |out|
    ensures HasSource(out[i], components, override)
    ensures out[i].replicaID == out[i].component + "-" + Itoa(CountOf(out[..i], out[i].component))
  {
    hide Expand, CountOf, Numbered;
    assert Erase(out)[i] == out[i].(replicaID := "");
    ExpandSource(components, override, i);
    var c, spec :| c in components && ComesFrom(Erase(out)[i], c, spec, override);
    assert ComesFrom(out[i], c, spec, override);
    NumberOf(out, i);
  }

  lemma NumberOf(out: seq<FlatProcess>, i: nat)
    requires Numbered(out) && i < |out|
    ensures out[i].replicaID == out[i].component + "-" + Itoa(CountOf(out[..i], out[i].component))
  {
    hide CountOf, Itoa;
  }
}
