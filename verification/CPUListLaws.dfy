// What the CPU-list parser and printer promise together: the parser is a
// homomorphism from comma to union, the printer writes maximal runs, and
// parsing undoes printing.
module CPUListLaws {
  import opened GoStrings
  import opened IntLists
  import opened CPULists

  // ---------- The parser as a homomorphism ----------

  lemma {:induction false} PartsConcat(a: seq<string>, b: seq<string>)
    ensures PartsCPUs(a + b) == Combine(PartsCPUs(a), PartsCPUs(b))
  {
    if b == [] {
      assert a + b == a;
      var cpus := PartsCPUs(a);
      assert cpus.Ok? ==> cpus.value + {} == cpus.value;
    } else {
      var n := |b| - 1;
      assert (a + b)[..|a + b| - 1] == a + b[..n];
      PartsConcat(a, b[..n]);
      CombineAssociative(PartsCPUs(a), PartsCPUs(b[..n]), PartCPUs(b[n]));
    }
  }

  lemma CombineAssociative(a: CPUResult, b: CPUResult, c: CPUResult)
    ensures Combine(Combine(a, b), c) == Combine(a, Combine(b, c))
  {
    if a.Ok? && b.Ok? && c.Ok? {
      assert a.value + b.value + c.value == a.value + (b.value + c.value);
    }
  }

  // Two texts joined by a comma are accepted exactly when both are, and then
  // denote the union.
  lemma Homomorphism(s: string, t: string)
    ensures CPUSetOf(s + "," + t) == Combine(CPUSetOf(s), CPUSetOf(t))
    ensures Parsed(s + "," + t).Ok? <==> Parsed(s).Ok? && Parsed(t).Ok?
    ensures Parsed(s).Ok? && Parsed(t).Ok? ==>
              Parsed(s + "," + t).value == SortedList(Elems(Parsed(s).value) + Elems(Parsed(t).value))
  {
    SplitConcat(s, t, ',');
    PartsConcat(Split(s, ','), Split(t, ','));
  }

  // c is in the interval, or is the single CPU, of one of the parts.
  ghost predicate InSomePart(parts: seq<string>, c: int) {
    exists i | 0 <= i < |parts| :: InPart(parts[i], c)
  }

  ghost predicate InPart(part: string, c: int) {
    PartCPUs(part).Ok? && c in PartCPUs(part).value
  }

  function CombineAll(rs: seq<CPUResult>): CPUResult {
    if rs == [] then Ok({}) else Combine(CombineAll(rs[..|rs| - 1]), rs[|rs| - 1])
  }

  lemma {:induction false} PartsAsResults(parts: seq<string>, rs: seq<CPUResult>)
    requires |rs| == |parts| && forall i | 0 <= i < |rs| :: rs[i] == PartCPUs(parts[i])
    ensures PartsCPUs(parts) == CombineAll(rs)
  {
    if parts != [] {
      PartsAsResults(parts[..|parts| - 1], rs[..|rs| - 1]);
    }
  }

  lemma {:induction false} AllMembers(rs: seq<CPUResult>, c: int)
    requires CombineAll(rs).Ok?
    ensures c in CombineAll(rs).value <==> exists i | 0 <= i < |rs| :: rs[i].Ok? && c in rs[i].value
  {
    if rs != [] {
      AllMembers(rs[..|rs| - 1], c);
    }
  }

  // An accepted text denotes exactly the intervals of its parts.
  lemma PartsMembers(parts: seq<string>, c: int)
    requires PartsCPUs(parts).Ok?
    ensures c in PartsCPUs(parts).value <==> InSomePart(parts, c)
  {
    var rs := seq(|parts|, i requires 0 <= i < |parts| => PartCPUs(parts[i]));
    PartsAsResults(parts, rs);
    AllMembers(rs, c);
    assert forall i | 0 <= i < |rs| :: InPart(parts[i], c) <==> rs[i].Ok? && c in rs[i].value;
  }

  lemma PartNonNegative(part: string)
    ensures PartCPUs(part).Ok? ==> forall c <- PartCPUs(part).value :: 0 <= c <= MAX_INT
  {
    hide TrimSpace, Atoi, Index;
    var p := TrimSpace(part);
    var i := Index(p, '-');
    if p != "" && i > 0 {
      AtoiBounded(TrimSpace(p[i + 1..]));
    } else {
      AtoiBounded(p);
    }
  }

  lemma AtoiBounded(s: string)
    ensures Atoi(s).Some? ==> MIN_INT <= Atoi(s).value <= MAX_INT
  {
  }

  // The parser's guarantee for every accepted text.
  lemma ParsedIsCanonical(s: string)
    requires Parsed(s).Ok?
    ensures Canonical(Parsed(s).value) && Naturals(Parsed(s).value)
    ensures forall c :: c in Parsed(s).value <==> InSomePart(Split(s, ','), c)
  {
    var parts, l := Split(s, ','), Parsed(s).value;
    forall c
      ensures c in l <==> InSomePart(parts, c)
      ensures c in l ==> 0 <= c <= MAX_INT
    {
      PartsMembers(parts, c);
      assert c in l <==> c in Elems(l);
      if InSomePart(parts, c) {
        var i :| 0 <= i < |parts| && InPart(parts[i], c);
        PartNonNegative(parts[i]);
      }
    }
  }

  // ---------- The printer ----------

  function RunSet(rs: seq<Run>): set<int> {
    if rs == [] then {} else RunSet(rs[..|rs| - 1]) + Interval(rs[|rs| - 1].lo, rs[|rs| - 1].hi)
  }

  // CPU numbers that fit Go's int.
  predicate Naturals(l: seq<int>) {
    forall c <- l :: 0 <= c <= MAX_INT
  }

  predicate GoodRuns(rs: seq<Run>) {
    forall i | 0 <= i < |rs| :: 0 <= rs[i].lo <= rs[i].hi <= MAX_INT
  }

  predicate OrderedRuns(rs: seq<Run>) {
    forall i | 0 <= i < |rs| :: rs[i].lo <= rs[i].hi
  }

  lemma ExtendCovers(rs: seq<Run>, c: int)
    requires OrderedRuns(rs)
    ensures OrderedRuns(Extend(rs, c))
    ensures RunSet(Extend(rs, c)) == RunSet(rs) + {c}
  {
    var m, out := |rs| - 1, Extend(rs, c);
    if rs != [] && c == rs[m].hi + 1 {
      assert out[..m] == rs[..m];
      assert Interval(rs[m].lo, c) == Interval(rs[m].lo, rs[m].hi) + {c};
    } else {
      assert out[..|rs|] == rs;
      assert Interval(c, c) == {c};
    }
  }

  lemma ElemsLast(l: seq<int>)
    requires l != []
    ensures Elems(l) == Elems(l[..|l| - 1]) + {l[|l| - 1]}
  {
    assert l == l[..|l| - 1] + [l[|l| - 1]];
  }

  lemma {:induction false} RunsCover(l: seq<int>)
    ensures OrderedRuns(RunsOf(l))
    ensures RunSet(RunsOf(l)) == Elems(l)
  {
    if l != [] {
      var n := |l| - 1;
      RunsCover(l[..n]);
      var rs := RunsOf(l[..n]);
      hide Extend, RunSet, OrderedRuns, Elems, Interval;
      ExtendCovers(rs, l[n]);
      assert RunsOf(l) == Extend(rs, l[n]);
      ElemsLast(l);
    } else {
      assert Elems(l) == {};
    }
  }

  lemma ExtendGood(rs: seq<Run>, c: int)
    requires GoodRuns(rs) && 0 <= c <= MAX_INT
    ensures GoodRuns(Extend(rs, c))
  {
  }

  lemma {:induction false} RunsGood(l: seq<int>)
    requires Naturals(l)
    ensures GoodRuns(RunsOf(l))
  {
    if l != [] {
      var n := |l| - 1;
      assert l[n] in l && forall x <- l[..n] :: x in l;
      RunsGood(l[..n]);
      ExtendGood(RunsOf(l[..n]), l[n]);
    }
  }

  // The runs of a canonical list are maximal: between two of them at least
  // one CPU number is missing.
  lemma {:induction false} RunsMaximal(l: seq<int>)
    requires Canonical(l)
    ensures var rs := RunsOf(l);
            forall i | 0 <= i < |rs| - 1 :: rs[i].hi + 2 <= rs[i + 1].lo
  {
    if l != [] {
      var n := |l| - 1;
      RunsMaximal(l[..n]);
      RunsCover(l[..n]);
    }
  }

  // A run prints as one part, with its dash right after the first number.
  lemma RunTextShape(r: Run)
    requires 0 <= r.lo <= r.hi <= MAX_INT
    ensures var text, lo := RunText(r), Itoa(r.lo);
            && text != "" && lo != "" && TrimSpace(text) == text && Split(text, ',') == [text]
            && NoSpace(lo) && NoSpace(Itoa(r.hi))
            && (r.lo == r.hi ==> text == lo && Index(text, '-') == -1)
            && (r.lo < r.hi ==> Index(text, '-') == |lo| && text[..|lo|] == lo && text[|lo| + 1..] == Itoa(r.hi))
  {
    var text, lo, hi := RunText(r), Itoa(r.lo), Itoa(r.hi);
    AllDigitsPlain(lo);
    AllDigitsPlain(hi);
    SplitNoSep(text, ',');
    TrimSpaceNoSpace(text);
    if r.lo < r.hi {
      assert text[..|lo|] == lo;
      IndexIs(text, '-', |lo|);
    }
  }

  lemma RunTextParses(r: Run)
    requires 0 <= r.lo <= r.hi <= MAX_INT
    ensures CPUSetOf(RunText(r)) == Ok(Interval(r.lo, r.hi))
  {
    hide TrimSpace, Atoi, Itoa, Split, Index;
    RunTextShape(r);
    TrimSpaceNoSpace(Itoa(r.lo));
    TrimSpaceNoSpace(Itoa(r.hi));
    AtoiItoa(r.lo);
    AtoiItoa(r.hi);
    assert r.lo == r.hi ==> Interval(r.lo, r.hi) == {r.lo};
    SinglePart(RunText(r));
  }

  lemma SinglePart(text: string)
    requires Split(text, ',') == [text]
    ensures CPUSetOf(text) == PartCPUs(text)
  {
    hide PartCPUs, Split;
    var parts := [text];
    assert parts[..|parts| - 1] == [];
    assert PartsCPUs(parts) == Combine(PartsCPUs([]), PartCPUs(text));
    var r := PartCPUs(text);
    assert r.Ok? ==> {} + r.value == r.value;
  }

  // Parsing undoes rendering, for every list of well-formed runs.
  lemma {:induction false} RenderParses(rs: seq<Run>)
    requires GoodRuns(rs)
    ensures CPUSetOf(Render(rs)) == Ok(RunSet(rs))
  {
    if rs == [] {
      BlankIsEmpty();
    } else {
      var n := |rs| - 1;
      RunTextParses(rs[n]);
      RenderParses(rs[..n]);
      if n == 0 {
        assert rs[..0] == [];
        assert RunSet(rs) == {} + Interval(rs[0].lo, rs[0].hi);
      } else {
        Homomorphism(Render(rs[..n]), RunText(rs[n]));
      }
    }
  }

  // Parsing a printed list gives its sorted, deduplicated form.
  lemma RoundTrip(l: seq<int>)
    requires Naturals(l)
    ensures Parsed(Text(l)) == Ok(SortedList(Elems(l)))
    ensures Canonical(l) ==> Parsed(Text(l)) == Ok(l)
  {
    var sorted := SortInts(l);
    SortIntsElems(l);
    assert forall c <- sorted :: c in Elems(sorted);
    RunsCover(sorted);
    RunsGood(sorted);
    RenderParses(RunsOf(sorted));
    if Canonical(l) {
      SortedListOfElems(l);
    }
  }

  // Canonical lists print the same text only when they are equal.
  lemma TextInjective(a: seq<int>, b: seq<int>)
    requires Canonical(a) && Canonical(b) && Naturals(a) && Naturals(b)
    requires Text(a) == Text(b)
    ensures a == b
  {
    RoundTrip(a);
    RoundTrip(b);
  }

  // Printing what was parsed and parsing it again changes nothing, so the
  // printed form is a normal form of every accepted text.
  lemma ParsePrintStable(s: string)
    requires Parsed(s).Ok?
    ensures Parsed(Text(Parsed(s).value)) == Parsed(s)
    ensures forall t :: Parsed(t).Ok? ==>
        (CPUSetOf(t) == CPUSetOf(s) <==> Text(Parsed(t).value) == Text(Parsed(s).value))
  {
    ParsedIsCanonical(s);
    RoundTrip(Parsed(s).value);
    forall t | Parsed(t).Ok? && Text(Parsed(t).value) == Text(Parsed(s).value)
      ensures CPUSetOf(t) == CPUSetOf(s)
    {
      ParsedIsCanonical(t);
      TextInjective(Parsed(t).value, Parsed(s).value);
    }
  }

  // ---------- Ranges and white space as users write them ----------

  // A range of numbers denotes exactly the CPUs between them, or is refused
  // when it is reversed.
  lemma RangeText(lo: nat, hi: nat)
    requires lo <= MAX_INT && hi <= MAX_INT
    ensures var text := Itoa(lo) + "-" + Itoa(hi);
            if lo <= hi then CPUSetOf(text).Ok? && forall c :: c in CPUSetOf(text).value <==> lo <= c <= hi
            else CPUSetOf(text) == Err(ReverseRange(text))
  {
    var text := Itoa(lo) + "-" + Itoa(hi);
    RangeShape(Itoa(lo), Itoa(hi));
    AtoiItoa(lo);
    AtoiItoa(hi);
    hide TrimSpace, Atoi, Itoa, Split, Index;
    SinglePart(text);
  }

  lemma RangeShape(low: string, high: string)
    requires low != "" && AllDigits(low) && AllDigits(high)
    ensures var text := low + "-" + high;
            && Split(text, ',') == [text] && TrimSpace(text) == text && Index(text, '-') == |low|
            && text[..|low|] == low && text[|low| + 1..] == high
            && TrimSpace(low) == low && TrimSpace(high) == high
  {
    var text := low + "-" + high;
    AllDigitsPlain(low);
    AllDigitsPlain(high);
    hide AllDigits;
    SplitNoSep(text, ',');
    TrimSpaceNoSpace(text);
    TrimSpaceNoSpace(low);
    TrimSpaceNoSpace(high);
    assert text[..|low|] == low;
    IndexIs(text, '-', |low|);
  }

  // The parser's check for a negative range never strikes: a dash in front
  // makes the part a single number.
  lemma NegativeRangeUnreachable(part: string, p: string)
    ensures PartCPUs(part) != Err(NegativeRange(p))
  {
    hide TrimSpace, Index;
    var text := TrimSpace(part);
    var i := Index(text, '-');
    if text != "" && i > 0 {
      NoDashNotNegative(text[..i]);
    }
  }

  lemma NoDashNotNegative(s: string)
    requires '-' !in s
    ensures Atoi(TrimSpace(s)).Some? ==> Atoi(TrimSpace(s)).value >= 0
  {
    TrimmedMembers(s);
    var t := TrimSpace(s);
    assert t != [] ==> t[0] in t;
  }

  lemma {:induction false} TrimLeftMembers(s: string)
    ensures forall c <- TrimLeft(s) :: c in s
  {
    if s != [] && IsSpace(s[0]) {
      TrimLeftMembers(s[1..]);
      assert forall c <- s[1..] :: c in s;
    }
  }

  lemma {:induction false} TrimRightMembers(s: string)
    ensures forall c <- TrimRight(s) :: c in s
  {
    if s != [] && IsSpace(s[|s| - 1]) {
      TrimRightMembers(s[..|s| - 1]);
      assert forall c <- s[..|s| - 1] :: c in s;
    }
  }

  lemma TrimmedMembers(s: string)
    ensures forall c <- TrimSpace(s) :: c in s
  {
    TrimLeftMembers(s);
    TrimRightMembers(TrimLeft(s));
  }

  // Blanks, tabs and line ends around a text do not change what it denotes.
  lemma {:induction false} SpaceTolerated(front: string, text: string, back: string)
    requires forall c <- front + back ::
               c == ' ' || c == '\t' || c == '\n' || c == '\r' || c as int == 11 || c as int == 12
    ensures CPUSetOf(front + text + back) == CPUSetOf(text)
    decreases |front| + |back|
  {
    hide CPUSetOf, TrimSpace;
    assert forall c <- front :: c in front + back;
    assert forall c <- back :: c in front + back;
    if front != [] {
      var whole, rest := front + text + back, front[1..] + text + back;
      assert whole == [front[0]] + rest;
      assert front[0] in front && forall c <- front[1..] :: c in front;
      assert forall c <- front[1..] + back :: c in front + back;
      TrimSpaceFront(front[0], rest);
      TrimIrrelevant(whole);
      TrimIrrelevant(rest);
      SpaceTolerated(front[1..], text, back);
    } else if back != [] {
      var n := |back| - 1;
      var whole, rest := front + text + back, front + text + back[..n];
      assert whole == rest + [back[n]];
      assert back[n] in back && forall c <- back[..n] :: c in back;
      assert forall c <- front + back[..n] :: c in front + back;
      TrimSpaceBack(rest, back[n]);
      TrimIrrelevant(whole);
      TrimIrrelevant(rest);
      SpaceTolerated(front, text, back[..n]);
    } else {
      assert front + text + back == text;
    }
  }
}
