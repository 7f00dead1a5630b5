// findInnerChaosPID: the breadth-first search of the process table for the
// program a wrapper has started.
module ProcessTree {
  import opened GoStrings
  import opened IntLists

  datatype Info = Info(ppid: int, comm: string)

  type Table = map<int, Info>

  // The processes exactly d parent links below the given one.
  ghost function Level(procs: Table, parent: int, d: nat): set<int> {
    if d == 0 then {parent}
    else set pid | pid in procs.Keys && procs[pid].ppid in Level(procs, parent, d - 1)
  }

  ghost predicate Matches(procs: Table, pid: int) {
    pid in procs && HasPrefix(procs[pid].comm, "chaos-")
  }

  ghost predicate MatchAt(procs: Table, parent: int, d: nat) {
    d > 0 && exists pid <- Level(procs, parent, d) :: Matches(procs, pid)
  }

  // The process is one of its own proper descendants.
  ghost predicate Cyclic(procs: Table, parent: int) {
    exists d: nat :: d > 0 && parent in Level(procs, parent, d)
  }

  // No process is at this depth.
  ghost predicate Vacant(procs: Table, parent: int, d: nat) {
    forall pid :: pid !in Level(procs, parent, d)
  }

  // ---------- Levels ----------

  // In a table without a cycle through the parent, no process is at two
  // depths.
  lemma {:induction false} LevelsApart(procs: Table, parent: int, i: nat, j: nat, pid: int)
    requires i < j && pid in Level(procs, parent, i) && pid in Level(procs, parent, j)
    ensures Cyclic(procs, parent)
  {
    if i > 0 {
      LevelsApart(procs, parent, i - 1, j - 1, procs[pid].ppid);
    }
  }

  lemma {:induction false} EmptyStays(procs: Table, parent: int, i: nat, j: nat)
    requires i <= j && Vacant(procs, parent, i)
    ensures Vacant(procs, parent, j)
    decreases j
  {
    if i < j {
      EmptyStays(procs, parent, i, j - 1);
    }
  }

  // The proper descendants down to depth d.
  ghost function Descendants(procs: Table, parent: int, d: nat): set<int> {
    if d == 0 then {} else Descendants(procs, parent, d - 1) + Level(procs, parent, d)
  }

  lemma {:induction false} DescendantDepth(procs: Table, parent: int, d: nat, pid: int)
    requires pid in Descendants(procs, parent, d)
    ensures pid in procs.Keys && exists i: nat :: 0 < i <= d && pid in Level(procs, parent, i)
  {
    if pid !in Level(procs, parent, d) {
      DescendantDepth(procs, parent, d - 1, pid);
    }
  }

  // Without a cycle, d occupied levels hold at least d processes.
  lemma {:induction false} LevelsGrow(procs: Table, parent: int, d: nat)
    requires !Cyclic(procs, parent)
    requires forall i: nat | 0 < i <= d :: Level(procs, parent, i) != {}
    ensures |Descendants(procs, parent, d)| >= d
  {
    if d > 0 {
      LevelsGrow(procs, parent, d - 1);
      var above, here := Descendants(procs, parent, d - 1), Level(procs, parent, d);
      forall pid | pid in here
        ensures pid !in above
      {
        if pid in above {
          DescendantDepth(procs, parent, d - 1, pid);
          var i: nat :| 0 < i <= d - 1 && pid in Level(procs, parent, i);
          LevelsApart(procs, parent, i, d, pid);
        }
      }
      OneMore(above, here);
    }
  }

  lemma OneMore(a: set<int>, b: set<int>)
    requires b != {} && forall x <- b :: x !in a
    ensures |a + b| >= |a| + 1
  {
    var x := AnyOf(b);
    var rest := b - {x};
    assert a + b == a + {x} + rest;
    MembersSubset(a + {x}, a + b);
  }

  // So without a cycle the levels run out.
  lemma LevelsEnd(procs: Table, parent: int)
    requires !Cyclic(procs, parent)
    ensures Vacant(procs, parent, |procs.Keys| + 1)
  {
    var d := |procs.Keys| + 1;
    if i: nat :| 0 < i <= d && Level(procs, parent, i) == {} {
      EmptyStays(procs, parent, i, d);
    } else {
      LevelsGrow(procs, parent, d);
      forall pid | pid in Descendants(procs, parent, d)
        ensures pid in procs.Keys
      {
        DescendantDepth(procs, parent, d, pid);
      }
      MembersSubset(Descendants(procs, parent, d), procs.Keys);
    }
  }

  // ---------- When the search ends ----------

  // At this depth the search stops at the latest.
  ghost predicate StopsAt(procs: Table, parent: int, n: nat) {
    Vacant(procs, parent, n) || MatchAt(procs, parent, n)
  }

  ghost predicate HasMatch(procs: Table, parent: int) {
    exists d: nat :: MatchAt(procs, parent, d)
  }

  lemma {:induction false} CycleReturns(procs: Table, parent: int, k: nat, d: nat)
    requires parent in Level(procs, parent, k)
    ensures forall pid | pid in Level(procs, parent, d) :: pid in Level(procs, parent, k + d)
  {
    if d > 0 {
      CycleReturns(procs, parent, k, d - 1);
    }
  }

  lemma {:induction false} CycleFeedsLevels(procs: Table, parent: int, k: nat, d: nat)
    requires k > 0 && parent in Level(procs, parent, k)
    ensures Level(procs, parent, d) != {}
    decreases d
  {
    if d >= k {
      CycleFeedsLevels(procs, parent, k, d - k);
      var pid := AnyOf(Level(procs, parent, d - k));
      CycleReturns(procs, parent, k, d - k);
      assert pid in Level(procs, parent, d);
    } else {
      LevelAbove(procs, parent, d, k, parent);
    }
  }

  // Above an occupied level every level is occupied.
  lemma {:induction false} LevelAbove(procs: Table, parent: int, d: nat, k: nat, pid: int)
    requires d <= k && pid in Level(procs, parent, k)
    ensures Level(procs, parent, d) != {}
    decreases k
  {
    if d < k {
      LevelAbove(procs, parent, d, k - 1, procs[pid].ppid);
    }
  }

  // The search ends exactly when some descendant matches or the parent is not
  // its own descendant.
  lemma SearchEndsIff(procs: Table, parent: int)
    ensures (exists n: nat :: StopsAt(procs, parent, n)) <==> HasMatch(procs, parent) || !Cyclic(procs, parent)
  {
    if !Cyclic(procs, parent) {
      LevelsEnd(procs, parent);
      assert StopsAt(procs, parent, |procs.Keys| + 1);
    } else if HasMatch(procs, parent) {
      var d: nat :| MatchAt(procs, parent, d);
      assert StopsAt(procs, parent, d);
    } else {
      var k: nat :| k > 0 && parent in Level(procs, parent, k);
      forall n: nat
        ensures !StopsAt(procs, parent, n)
      {
        CycleFeedsLevels(procs, parent, k, n);
        var pid := AnyOf(Level(procs, parent, n));
        assert pid in Level(procs, parent, n);
      }
    }
  }

  // ---------- The search ----------

  // One pass over the table: the children of p join next, in any order,
  // unless one of them matches.
  method Children(procs: Table, p: int, next: seq<int>) returns (found: Option<int>, next': seq<int>)
    ensures found.Some? ==> found.value in procs && procs[found.value].ppid == p && Matches(procs, found.value)
    ensures found.None? ==> forall pid :: pid in next' <==> pid in next || (pid in procs && procs[pid].ppid == p)
    ensures found.None? ==> forall pid | pid in procs && procs[pid].ppid == p :: !Matches(procs, pid)
  {
    next' := next;
    var rest := procs.Keys;
    while rest != {}
      invariant rest <= procs.Keys
      invariant forall pid :: pid in next' <==> pid in next || (pid in procs && pid !in rest && procs[pid].ppid == p)
      invariant forall pid | pid in procs && pid !in rest && procs[pid].ppid == p :: !Matches(procs, pid)
      decreases rest
    {
      ghost var some := AnyOf(rest);
      var pid :| pid in rest;
      rest := rest - {pid};
      var inf := procs[pid];
      if inf.ppid != p {
        continue;
      }
      if HasPrefix(inf.comm, "chaos-") {
        return Some(pid), next';
      }
      next' := next' + [pid];
    }
    return None, next';
  }

  ghost predicate IsLevel(procs: Table, parent: int, d: nat, l: seq<int>) {
    forall pid :: pid in l <==> pid in Level(procs, parent, d)
  }

  // One level: either a match one deeper, or the whole next level.
  method NextLevel(procs: Table, ghost parent: int, ghost d: nat, visit: seq<int>)
    returns (found: Option<int>, next: seq<int>)
    requires IsLevel(procs, parent, d, visit)
    ensures found.Some? ==> found.value in Level(procs, parent, d + 1) && Matches(procs, found.value)
    ensures found.None? ==> IsLevel(procs, parent, d + 1, next) && !MatchAt(procs, parent, d + 1)
  {
    hide Matches;
    next := [];
    for k := 0 to |visit|
      invariant forall pid :: pid in next <==> pid in procs && procs[pid].ppid in visit[..k]
      invariant forall pid | pid in procs && procs[pid].ppid in visit[..k] :: !Matches(procs, pid)
    {
      found, next := Children(procs, visit[k], next);
      if found.Some? {
        assert visit[k] in visit;
        return;
      }
    }
    assert visit[..|visit|] == visit;
    return None, next;
  }

  // The process is a match at this depth.
  ghost predicate FoundAt(procs: Table, parent: int, pid: int, d: nat) {
    d > 0 && pid in Level(procs, parent, d) && Matches(procs, pid)
  }

  ghost predicate Shallowest(procs: Table, parent: int, pid: int) {
    exists d: nat :: FoundAt(procs, parent, pid, d) && forall k: nat | k < d :: !MatchAt(procs, parent, k)
  }

  ghost predicate Deepest(procs: Table, parent: int, pid: int) {
    exists d: nat :: FoundAt(procs, parent, pid, d) && forall k: nat | k > d :: !MatchAt(procs, parent, k)
  }

  // The search returns a match of minimal depth, or the parent when no proper
  // descendant matches.
  method FindInnerChaosPID(procs: Table, parent: int) returns (pid: int)
    requires HasMatch(procs, parent) || !Cyclic(procs, parent)
    ensures !HasMatch(procs, parent) ==> pid == parent
    ensures HasMatch(procs, parent) ==> Shallowest(procs, parent, pid)
  {
    hide Matches;
    SearchEndsIff(procs, parent);
    ghost var n: nat :| StopsAt(procs, parent, n);
    ghost var d := 0;
    var visit := [parent];
    while |visit| > 0
      invariant d <= n && IsLevel(procs, parent, d, visit)
      invariant forall k: nat | k <= d :: !MatchAt(procs, parent, k)
      decreases n - d
    {
      StopsLater(procs, parent, n, d, visit);
      var found, next := NextLevel(procs, parent, d, visit);
      if found.Some? {
        assert MatchAt(procs, parent, d + 1) && FoundAt(procs, parent, found.value, d + 1);
        return found.value;
      }
      visit := next;
      d := d + 1;
    }
    NoMatchBelow(procs, parent, d);
    return parent;
  }

  lemma StopsLater(procs: Table, parent: int, n: nat, d: nat, visit: seq<int>)
    requires StopsAt(procs, parent, n) && d <= n && !MatchAt(procs, parent, d)
    requires IsLevel(procs, parent, d, visit) && |visit| > 0
    ensures d < n
  {
    hide Matches;
    var pid := visit[0];
    assert pid in visit && pid in Level(procs, parent, d);
  }

  lemma NoMatchBelow(procs: Table, parent: int, d: nat)
    requires Vacant(procs, parent, d)
    requires forall k: nat | k <= d :: !MatchAt(procs, parent, k)
    ensures !HasMatch(procs, parent)
  {
    hide Matches;
    forall k: nat
      ensures !MatchAt(procs, parent, k)
    {
      if k > d {
        EmptyStays(procs, parent, d, k);
      }
    }
  }

  // ---------- The depth of the result ----------

  ghost predicate OneDepth(procs: Table, parent: int) {
    forall j: nat, k: nat :: MatchAt(procs, parent, j) && MatchAt(procs, parent, k) ==> j == k
  }

  // What the search returns is the deepest match as well exactly when all
  // matching descendants are at one depth.
  lemma DeepestIff(procs: Table, parent: int, pid: int)
    requires Shallowest(procs, parent, pid)
    ensures Deepest(procs, parent, pid) <==> OneDepth(procs, parent)
  {
    hide Matches;
    var d: nat :| FoundAt(procs, parent, pid, d) && forall k: nat | k < d :: !MatchAt(procs, parent, k);
    assert MatchAt(procs, parent, d);
    if Deepest(procs, parent, pid) {
      var e: nat :| FoundAt(procs, parent, pid, e) && forall k: nat | k > e :: !MatchAt(procs, parent, k);
      if Cyclic(procs, parent) {
        Recurs(procs, parent, pid, e);
      } else if d < e {
        LevelsApart(procs, parent, d, e, pid);
      } else if e < d {
        LevelsApart(procs, parent, e, d, pid);
      }
    }
  }

  // Below a cycle through the parent every match recurs.
  lemma Recurs(procs: Table, parent: int, pid: int, e: nat)
    requires FoundAt(procs, parent, pid, e) && Cyclic(procs, parent)
    ensures exists k: nat :: k > e && MatchAt(procs, parent, k)
  {
    hide Matches;
    var k: nat :| k > 0 && parent in Level(procs, parent, k);
    CycleReturns(procs, parent, k, e);
    assert MatchAt(procs, parent, k + e);
  }

  // A launched program with a matching child of its own, and a sibling that
  // does not match: the search can return only the program, and the deepest
  // match is the child.
  lemma ShallowNotDeep()
    ensures var procs: Table := map[2 := Info(1, "chaos-worker"), 3 := Info(2, "chaos-victim"), 4 := Info(1, "chaosd")];
            && !Cyclic(procs, 1)
            && (forall pid :: Shallowest(procs, 1, pid) <==> pid == 2)
            && !Deepest(procs, 1, 2) && Deepest(procs, 1, 3)
  {
    var procs: Table := map[2 := Info(1, "chaos-worker"), 3 := Info(2, "chaos-victim"), 4 := Info(1, "chaosd")];
    var none: set<int> := {};
    assert Matches(procs, 2) && Matches(procs, 3);
    assert !Matches(procs, 4) by {
      assert "chaosd"[5] != '-';
    }
    assert Level(procs, 1, 0) == {1};
    assert Level(procs, 1, 1) == {2, 4};
    assert Level(procs, 1, 2) == {3};
    assert Level(procs, 1, 3) == none;
    hide Matches;
    forall d: nat | d > 2
      ensures !MatchAt(procs, 1, d)
    {
      EmptyStays(procs, 1, 3, d);
    }
    assert FoundAt(procs, 1, 2, 1) && FoundAt(procs, 1, 3, 2);
    assert MatchAt(procs, 1, 1) && MatchAt(procs, 1, 2);
    assert Deepest(procs, 1, 3);
    assert Shallowest(procs, 1, 2);
    DeepestIff(procs, 1, 2);
  }
}
