// The post-spawn verification: each running process's affinity, read from its
// status file, against the plan. Status files are values here.
module Verify {
  import opened GoStrings
  import opened IntLists
  import opened CPULists
  import opened CPUListLaws
  import opened Planner

  const LIST_PREFIX := "Cpus_allowed_list:"

  datatype Detail = Skipped | BadList | Exceeds | Confined | NoLine

  datatype VerifyResult = VerifyResult(
    component: string,
    replicaID: string,
    pid: int,
    want: seq<int>,
    wantMaxProc: int,
    got: seq<int>,
    ok: bool,
    detail: Detail)

  // ---------- One process ----------

  // The list text of the first line that carries one.
  function AllowedText(lines: seq<string>): Option<string> {
    if lines == [] then None
    else if HasPrefix(lines[0], LIST_PREFIX) then Some(TrimSpace(TrimPrefix(lines[0], LIST_PREFIX)))
    else AllowedText(lines[1..])
  }

  // The affinity that a status file reports.
  ghost function Observed(status: string): Option<seq<int>> {
    match AllowedText(Split(status, '\n'))
    case None => None
    case Some(text) =>
      match Parsed(text)
      case Ok(cpus) => Some(cpus)
      case Err(_) => None
  }

  ghost function Judge(pid: int, a: Assignment, status: Option<string>): VerifyResult {
    var r := VerifyResult(a.component, a.replicaID, pid, a.cpus, a.gomaxprocs, [], true, Skipped);
    if status.None? then r
    else
      match AllowedText(Split(status.value, '\n'))
      case None => r.(ok := false, detail := NoLine)
      case Some(text) =>
        match Parsed(text)
        case Err(_) => r.(ok := false, detail := BadList)
        case Ok(got) =>
          r.(got := got, ok := Inside(got, a.cpus), detail := if Inside(got, a.cpus) then Confined else Exceeds)
  }

  method VerifyPID(pid: int, a: Assignment, status: Option<string>) returns (r: VerifyResult)
    ensures r == Judge(pid, a, status)
  {
    hide Parsed;
    r := VerifyResult(a.component, a.replicaID, pid, a.cpus, a.gomaxprocs, [], true, Skipped);
    if status.None? {
      return;
    }
    var lines := Split(status.value, '\n');
    for i := 0 to |lines|
      invariant AllowedText(lines) == AllowedText(lines[i..])
    {
      assert lines[i..][1..] == lines[i + 1..];
      if HasPrefix(lines[i], LIST_PREFIX) {
        var text := TrimSpace(TrimPrefix(lines[i], LIST_PREFIX));
        var got := ParseCPUList(text);
        if got.Err? {
          return r.(ok := false, detail := BadList);
        }
        var outside := Difference(got.value, a.cpus);
        EmptyDifference(got.value, a.cpus, outside);
        r := r.(got := got.value);
        if |outside| > 0 {
          return r.(ok := false, detail := Exceeds);
        }
        return r.(detail := Confined);
      }
    }
    return r.(ok := false, detail := NoLine);
  }

  // The status file cannot be read, or reports an affinity inside the planned
  // CPUs.
  ghost predicate Passes(a: Assignment, status: Option<string>) {
    status.None? || (Observed(status.value).Some? && Inside(Observed(status.value).value, a.cpus))
  }

  lemma PassesIff(pid: int, a: Assignment, status: Option<string>)
    ensures Judge(pid, a, status).ok <==> Passes(a, status)
  {
    hide Parsed, AllowedText;
  }

  lemma {:induction false} ListLineFound(before: seq<string>, line: string, after: seq<string>)
    requires forall l <- before :: !("Cpus_allowed_list:" <= l)
    requires "Cpus_allowed_list:" <= line
    ensures AllowedText(before + [line] + after) == Some(TrimSpace(line[18..]))
  {
    if before == [] {
      assert before + [line] + after == [line] + after;
    } else {
      assert before[0] in before && forall l <- before[1..] :: l in before;
      assert (before + [line] + after)[1..] == before[1..] + [line] + after;
      ListLineFound(before[1..], line, after);
    }
  }

  lemma ListLineText(l: seq<int>)
    requires Canonical(l) && Naturals(l)
    ensures Parsed(TrimSpace("\t" + Text(l))) == Ok(l)
  {
    RoundTrip(l);
    hide CPUSetOf, Text;
    assert "\t" + Text(l) + "" == "\t" + Text(l);
    SpaceTolerated("\t", Text(l), "");
    TrimIrrelevant("\t" + Text(l));
  }

  // The kernel's status file: the verifier reads the CPUs of the first
  // "Cpus_allowed_list:" line, whatever lines stand around it, such as the
  // "Cpus_allowed:" mask, and compares them with the plan.
  lemma StatusJudged(pid: int, a: Assignment, status: string, before: seq<string>, l: seq<int>, after: seq<string>)
    requires Canonical(l) && Naturals(l)
    requires Split(status, '\n') == before + ["Cpus_allowed_list:\t" + Text(l)] + after
    requires forall line <- before :: !("Cpus_allowed_list:" <= line)
    ensures Observed(status) == Some(l)
    ensures var r := Judge(pid, a, Some(status));
            && r.component == a.component && r.replicaID == a.replicaID && r.pid == pid && r.want == a.cpus
            && r.got == l && (r.ok <==> forall c <- l :: c in a.cpus)
  {
    hide *;
    ListLineRead(status, before, l, after);
    JudgedAs(pid, a, status, TrimSpace("\t" + Text(l)), l);
  }

  lemma JudgedAs(pid: int, a: Assignment, status: string, text: string, l: seq<int>)
    requires AllowedText(Split(status, '\n')) == Some(text) && Parsed(text) == Ok(l)
    ensures Observed(status) == Some(l)
    ensures var r := Judge(pid, a, Some(status));
            && r.component == a.component && r.replicaID == a.replicaID && r.pid == pid && r.want == a.cpus
            && r.got == l && (r.ok <==> forall c <- l :: c in a.cpus)
  {
    hide Parsed, AllowedText, Split;
    InsideMembers(l, a.cpus);
  }

  lemma InsideMembers(a: seq<int>, b: seq<int>)
    ensures Inside(a, b) <==> forall c <- a :: c in b
  {
    if Inside(a, b) {
      forall c | c in a
        ensures c in b
      {
        assert c in Elems(a);
      }
    }
  }

  lemma ListLineRead(status: string, before: seq<string>, l: seq<int>, after: seq<string>)
    requires Canonical(l) && Naturals(l)
    requires Split(status, '\n') == before + ["Cpus_allowed_list:\t" + Text(l)] + after
    requires forall line <- before :: !("Cpus_allowed_list:" <= line)
    ensures AllowedText(Split(status, '\n')) == Some(TrimSpace("\t" + Text(l)))
    ensures Parsed(TrimSpace("\t" + Text(l))) == Ok(l)
  {
    hide Parsed, Text, TrimSpace, AllowedText, Split, Canonical, Naturals;
    var head := "Cpus_allowed_list:";
    var line := "Cpus_allowed_list:\t" + Text(l);
    assert line == head + ("\t" + Text(l)) && |head| == 18;
    assert line[18..] == "\t" + Text(l);
    ListLineFound(before, line, after);
    ListLineText(l);
  }

  // ---------- All processes ----------

  function Key(a: Assignment): string {
    if a.replicaID != "" then a.replicaID else a.component
  }

  function StatusOf(statuses: map<int, string>, pid: int): Option<string> {
    if pid in statuses then Some(statuses[pid]) else None
  }

  ghost function Judgements(rows: seq<Assignment>, pids: map<string, int>, statuses: map<int, string>)
    : seq<VerifyResult>
  {
    if rows == [] then []
    else
      var front, a := rows[..|rows| - 1], rows[|rows| - 1];
      Judgements(front, pids, statuses)
      + if Key(a) in pids then [Judge(pids[Key(a)], a, StatusOf(statuses, pids[Key(a)]))] else []
  }

  method VerifyAll(rows: seq<Assignment>, pids: map<string, int>, statuses: map<int, string>)
    returns (out: seq<VerifyResult>)
    ensures out == Judgements(rows, pids, statuses)
  {
    hide Judge;
    out := [];
    for i := 0 to |rows|
      invariant out == Judgements(rows[..i], pids, statuses)
    {
      assert rows[..i + 1][..i] == rows[..i];
      var a := rows[i];
      var key := a.component;
      if a.replicaID != "" {
        key := a.replicaID;
      }
      if key !in pids {
        assert Judgements(rows[..i], pids, statuses) + [] == Judgements(rows[..i], pids, statuses);
        continue;
      }
      var r := VerifyPID(pids[key], a, StatusOf(statuses, pids[key]));
      out := out + [r];
    }
    assert rows[..|rows|] == rows;
  }

  method AnyFailed(results: seq<VerifyResult>) returns (failed: bool)
    ensures failed <==> exists r <- results :: !r.ok
  {
    for i := 0 to |results|
      invariant forall k | 0 <= k < i :: results[k].ok
    {
      if !results[i].ok {
        return true;
      }
    }
    return false;
  }

  // The run goes on exactly when every row with a pid passes.
  lemma {:induction false} NoneFailedIff(rows: seq<Assignment>, pids: map<string, int>, statuses: map<int, string>)
    ensures (forall r <- Judgements(rows, pids, statuses) :: r.ok) <==>
              forall i | 0 <= i < |rows| && Key(rows[i]) in pids ::
                Passes(rows[i], StatusOf(statuses, pids[Key(rows[i])]))
  {
    hide Judge, Passes;
    if rows != [] {
      var n := |rows| - 1;
      NoneFailedIff(rows[..n], pids, statuses);
      assert forall i | 0 <= i < n :: rows[..n][i] == rows[i];
      if Key(rows[n]) in pids {
        PassesIff(pids[Key(rows[n])], rows[n], StatusOf(statuses, pids[Key(rows[n])]));
      }
    }
  }
}
