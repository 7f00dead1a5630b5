// CPU lists in the Linux list format ("List format" under FORMATS in
// cpuset(7)): the planner's parser and printer, and its set operations.
//
// A CPU list is a seq<int>. What a text denotes is a set of CPU numbers,
// CPUSetOf(text); what the parser returns is the strictly increasing list of
// that set.
module CPULists {
  import opened GoStrings
  import opened IntLists

  datatype ParseError =
    | BadRange(part: string)
    | ReverseRange(part: string)
    | NegativeRange(part: string)
    | BadCPU(part: string)
    | NegativeCPU(cpu: int)

  type CPUResult = Result<set<int>, ParseError>

  // ---------- What a text denotes ----------

  function Interval(lo: int, hi: int): (cpus: set<int>)
    ensures forall c :: c in cpus <==> lo <= c <= hi
    decreases hi - lo
  {
    if lo > hi then {} else Interval(lo, hi - 1) + {hi}
  }

  // The CPUs of one comma-separated part.
  function PartCPUs(part: string): CPUResult {
    var p := TrimSpace(part);
    if p == "" then
      Ok({})
    else
      var i := Index(p, '-');
      if i > 0 then RangeCPUs(p, Atoi(TrimSpace(p[..i])), Atoi(TrimSpace(p[i + 1..]))) else SingleCPU(p, Atoi(p))
  }

  function RangeCPUs(p: string, lo: Option<int>, hi: Option<int>): CPUResult {
    if lo.None? || hi.None? then Err(BadRange(p))
    else if lo.value > hi.value then Err(ReverseRange(p))
    else if lo.value < 0 then Err(NegativeRange(p))
    else Ok(Interval(lo.value, hi.value))
  }

  function SingleCPU(p: string, c: Option<int>): CPUResult {
    if c.None? then Err(BadCPU(p))
    else if c.value < 0 then Err(NegativeCPU(c.value))
    else Ok({c.value})
  }

  // The first error wins; without an error the sets are united.
  function Combine(a: CPUResult, b: CPUResult): CPUResult {
    if a.Err? then a else if b.Err? then b else Ok(a.value + b.value)
  }

  function PartsCPUs(parts: seq<string>): CPUResult {
    if parts == [] then
      Ok({})
    else
      Combine(PartsCPUs(parts[..|parts| - 1]), PartCPUs(parts[|parts| - 1]))
  }

  function CPUSetOf(s: string): CPUResult {
    PartsCPUs(Split(s, ','))
  }

  // What ParseCPUList returns.
  ghost function Parsed(s: string): Result<seq<int>, ParseError> {
    match CPUSetOf(s)
    case Ok(cpus) => Ok(SortedList(cpus))
    case Err(e) => Err(e)
  }

  // ---------- White space around the whole text ----------

  lemma {:induction false} PartsUpToSpace(a: seq<string>, b: seq<string>)
    requires |a| == |b|
    requires forall i | 0 <= i < |a| :: TrimSpace(a[i]) == TrimSpace(b[i])
    ensures PartsCPUs(a) == PartsCPUs(b)
  {
    if a != [] {
      PartsUpToSpace(a[..|a| - 1], b[..|b| - 1]);
    }
  }

  lemma {:induction false} TrimLeftIrrelevant(s: string)
    ensures CPUSetOf(TrimLeft(s)) == CPUSetOf(s)
  {
    if s != [] && IsSpace(s[0]) {
      TrimLeftIrrelevant(s[1..]);
      var rest := Split(s[1..], ',');
      TrimSpaceFront(s[0], rest[0]);
      PartsUpToSpace(Split(s, ','), rest);
    }
  }

  lemma {:induction false} TrimRightIrrelevant(s: string)
    ensures CPUSetOf(TrimRight(s)) == CPUSetOf(s)
  {
    hide CPUSetOf;
    var n := |s| - 1;
    if s != [] && IsSpace(s[n]) {
      TrimRightIrrelevant(s[..n]);
      assert s == s[..n] + [s[n]];
      SpaceBack(s[..n], s[n]);
    }
  }

  lemma SpaceBack(s: string, c: char)
    requires IsSpace(c)
    ensures CPUSetOf(s + [c]) == CPUSetOf(s)
  {
    SplitBack(s, c, ',');
    var parts := Split(s, ',');
    TrimSpaceBack(parts[|parts| - 1], c);
    PartsUpToSpace(Split(s + [c], ','), parts);
  }

  lemma TrimIrrelevant(s: string)
    ensures CPUSetOf(TrimSpace(s)) == CPUSetOf(s)
  {
    TrimLeftIrrelevant(s);
    TrimRightIrrelevant(TrimLeft(s));
  }

  lemma BlankIsEmpty()
    ensures CPUSetOf("") == Ok({})
  {
    assert Split("", ',') == [""];
    assert [""][..0] == [];
    assert PartsCPUs([""]) == Combine(Ok({}), PartCPUs(""));
    var none: set<int> := {};
    assert none + none == none;
  }

  // ---------- The parser ----------

  method ParsePart(part: string, seen: set<int>) returns (r: CPUResult)
    ensures r == Combine(Ok(seen), PartCPUs(part))
  {
    var p := TrimSpace(part);
    if p == "" {
      assert seen + {} == seen;
      return Ok(seen);
    }
    var i := Index(p, '-');
    if i > 0 {
      var lo, hi := Atoi(TrimSpace(p[..i])), Atoi(TrimSpace(p[i + 1..]));
      if lo.None? || hi.None? {
        return Err(BadRange(p));
      }
      if lo.value > hi.value {
        return Err(ReverseRange(p));
      }
      if lo.value < 0 {
        return Err(NegativeRange(p));
      }
      var all := seen;
      for c := lo.value to hi.value + 1
        invariant all == seen + Interval(lo.value, c - 1)
      {
        all := all + {c};
      }
      return Ok(all);
    }
    var c := Atoi(p);
    if c.None? {
      return Err(BadCPU(p));
    }
    if c.value < 0 {
      return Err(NegativeCPU(c.value));
    }
    return Ok(seen + {c.value});
  }

  // The members of a set, in whatever order the map iteration yields them.
  method Enumerate(s: set<int>) returns (l: seq<int>)
    ensures NoDuplicates(l) && Elems(l) == s
  {
    l := [];
    var rest := s;
    while rest != {}
      invariant NoDuplicates(l)
      invariant Elems(l) + rest == s && Elems(l) !! rest
      decreases rest
    {
      ghost var some := AnyOf(rest);
      var c :| c in rest;
      assert c !in Elems(l);
      ElemsConcat(l, [c]);
      l := l + [c];
      rest := rest - {c};
    }
  }

  // The loop over the parts.
  method ParseParts(parts: seq<string>) returns (r: CPUResult)
    ensures r == PartsCPUs(parts)
  {
    hide PartCPUs;
    var seen: set<int> := {};
    for i := 0 to |parts|
      invariant PartsCPUs(parts[..i]) == Ok(seen)
    {
      assert parts[..i + 1][..i] == parts[..i];
      var part := ParsePart(parts[i], seen);
      if part.Err? {
        FirstErrorWins(parts, i + 1);
        return Err(part.error);
      }
      seen := part.value;
    }
    assert parts[..|parts|] == parts;
    return Ok(seen);
  }

  method ParseCPUList(s: string) returns (r: Result<seq<int>, ParseError>)
    ensures r == Parsed(s)
  {
    TrimIrrelevant(s);
    BlankIsEmpty();
    hide TrimSpace, PartsCPUs, SortInts;
    var text := TrimSpace(s);
    if text == "" {
      NoCPUs();
      return Ok([]);
    }
    var seen := ParseParts(Split(text, ','));
    if seen.Err? {
      return Err(seen.error);
    }
    var out := Enumerate(seen.value);
    SortEnumeration(out);
    return Ok(SortInts(out));
  }

  lemma NoCPUs()
    ensures SortedList({}) == []
  {
    assert |SortedList({})| == 0;
  }

  lemma {:induction false} FirstErrorWins(parts: seq<string>, i: nat)
    requires i <= |parts| && PartsCPUs(parts[..i]).Err?
    ensures PartsCPUs(parts) == PartsCPUs(parts[..i])
    decreases |parts| - i
  {
    if i < |parts| {
      assert parts[..i + 1][..i] == parts[..i];
      FirstErrorWins(parts, i + 1);
    } else {
      assert parts[..i] == parts;
    }
  }

  // ---------- The printer ----------

  // A maximal run of consecutive CPU numbers.
  datatype Run = Run(lo: int, hi: int)

  function RunsOf(l: seq<int>): (rs: seq<Run>)
    ensures l == [] <==> rs == []
    ensures l != [] ==> rs[|rs| - 1].hi == l[|l| - 1]
  {
    if l == [] then [] else Extend(RunsOf(l[..|l| - 1]), l[|l| - 1])
  }

  // c continues the last run, or starts a new one.
  function Extend(rs: seq<Run>, c: int): (r: seq<Run>)
    ensures r != [] && r[|r| - 1].hi == c
  {
    if rs != [] && c == rs[|rs| - 1].hi + 1 then
      rs[..|rs| - 1] + [Run(rs[|rs| - 1].lo, c)]
    else
      rs + [Run(c, c)]
  }

  function RunText(r: Run): string {
    if r.lo == r.hi then Itoa(r.lo) else Itoa(r.lo) + "-" + Itoa(r.hi)
  }

  function Render(rs: seq<Run>): string {
    if rs == [] then ""
    else if |rs| == 1 then RunText(rs[0])
    else Render(rs[..|rs| - 1]) + "," + RunText(rs[|rs| - 1])
  }

  // What CPUList.String returns.
  function Text(l: seq<int>): string {
    Render(RunsOf(SortInts(l)))
  }

  // The flush closure shared by the two printers.
  method Flush(sb: string, start: int, prev: int, ghost done: seq<Run>) returns (out: string)
    requires sb == Render(done)
    ensures out == Render(done + [Run(start, prev)])
  {
    RenderEmpty(done);
    assert (done + [Run(start, prev)])[..|done|] == done;
    out := sb;
    if |sb| > 0 {
      out := out + ",";
    }
    if start == prev {
      out := out + Itoa(start);
    } else {
      out := out + (Itoa(start) + "-" + Itoa(prev));
    }
  }

  lemma RenderEmpty(rs: seq<Run>)
    ensures Render(rs) == "" <==> rs == []
  {
  }

  // The runs of one more CPU.
  lemma RunsGrow(cpus: seq<int>, i: nat, done: seq<Run>, last: Run)
    requires i < |cpus| && RunsOf(cpus[..i]) == done + [last]
    ensures RunsOf(cpus[..i + 1]) ==
              if cpus[i] == last.hi + 1 then done + [Run(last.lo, cpus[i])]
              else done + [last] + [Run(cpus[i], cpus[i])]
  {
    assert cpus[..i + 1][..i] == cpus[..i];
    assert (done + [last])[..|done|] == done;
  }

  // The loop shared by CPUList.String and FormatCPUSet.
  method PrintRuns(cpus: seq<int>) returns (text: string)
    requires cpus != []
    ensures text == Render(RunsOf(cpus))
  {
    var sb, start, prev := "", cpus[0], cpus[0];
    ghost var done: seq<Run> := [];
    assert RunsOf(cpus[..0]) == [];
    assert cpus[..1][..0] == cpus[..0];
    assert RunsOf(cpus[..1]) == done + [Run(start, prev)];
    assert sb == Render(done);
    hide RunsOf, Render;
    for i := 1 to |cpus|
      invariant sb == Render(done)
      invariant RunsOf(cpus[..i]) == done + [Run(start, prev)]
    {
      RunsGrow(cpus, i, done, Run(start, prev));
      var c := cpus[i];
      if c == prev + 1 {
        prev := c;
      } else {
        sb := Flush(sb, start, prev, done);
        done := done + [Run(start, prev)];
        start, prev := c, c;
      }
    }
    assert cpus[..|cpus|] == cpus;
    text := Flush(sb, start, prev, done);
  }

  method String(l: seq<int>) returns (text: string)
    ensures text == Text(l)
  {
    SortIntsElems(l);
    if |l| == 0 {
      return "";
    }
    text := PrintRuns(SortInts(l));
  }

  // ---------- Set operations ----------

  method Contains(l: seq<int>, cpu: int) returns (found: bool)
    ensures found <==> cpu in Elems(l)
  {
    for i := 0 to |l|
      invariant cpu !in l[..i]
    {
      if l[i] == cpu {
        return true;
      }
    }
    return false;
  }

  method Filter(l: seq<int>, other: seq<int>, keep: bool) returns (out: seq<int>)
    ensures IsSorted(out)
    ensures Elems(out) == set c | c in Elems(l) && (c in Elems(other) <==> keep)
    ensures Canonical(l) ==> out == SortedList(Elems(out))
  {
    out := [];
    for i := 0 to |l|
      invariant forall c :: c in out <==> c in l[..i] && (c in other <==> keep)
      invariant Canonical(l) ==> Canonical(out)
    {
      if (l[i] in Elems(other)) == keep {
        if Canonical(l) {
          AppendNext(l, i, out);
        }
        out := out + [l[i]];
      }
    }
    assert forall c :: c in Elems(out) <==> c in Elems(l) && (c in other <==> keep);
    SortIntsElems(out);
    if Canonical(l) {
      SortIntsSorted(out);
      SortedListOfElems(out);
    }
    out := SortInts(out);
  }

  lemma AppendNext(l: seq<int>, i: nat, out: seq<int>)
    requires i < |l| && Canonical(l) && Canonical(out)
    requires forall c <- out :: c in l[..i]
    ensures Canonical(out + [l[i]])
  {
    forall k | 0 <= k < |out|
      ensures out[k] < l[i]
    {
      assert out[k] in out;
    }
  }

  method Intersect(l: seq<int>, other: seq<int>) returns (out: seq<int>)
    ensures IsSorted(out) && Elems(out) == Elems(l) * Elems(other)
    ensures Canonical(l) ==> out == SortedList(Elems(l) * Elems(other))
  {
    out := Filter(l, other, true);
  }

  method Difference(l: seq<int>, other: seq<int>) returns (out: seq<int>)
    ensures IsSorted(out) && Elems(out) == Elems(l) - Elems(other)
    ensures Canonical(l) ==> out == SortedList(Elems(l) - Elems(other))
  {
    out := Filter(l, other, false);
  }

  method Union(l: seq<int>, other: seq<int>) returns (out: seq<int>)
    ensures out == SortedList(Elems(l) + Elems(other))
  {
    var all := Enumerate(Elems(l) + Elems(other));
    SortEnumeration(all);
    out := SortInts(all);
  }

  method AreDisjoint(l: seq<int>, other: seq<int>) returns (r: bool)
    ensures r <==> Disjoint(l, other)
  {
    var common := Intersect(l, other);
    assert |common| > 0 ==> common[0] in Elems(l) * Elems(other);
    assert forall c :: c in Elems(l) && c in Elems(other) ==> c in Elems(common);
    r := |common| == 0;
  }

  method Take(l: seq<int>, n: int) returns (taken: seq<int>, remaining: seq<int>)
    ensures n <= 0 ==> taken == [] && remaining == l
    ensures n > 0 ==> taken + remaining == SortInts(l) && |taken| == if n < |l| then n else |l|
  {
    if n <= 0 {
      return [], l;
    }
    var cpus := SortInts(l);
    SortIntsElems(l);
    if n >= |cpus| {
      return cpus, [];
    }
    return cpus[..n], cpus[n..];
  }
}
