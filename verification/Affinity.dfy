// The far ends of the CPU-list text: the victim's parser of --pinning-cpus,
// the worker's printer of its affinity, and the kernel bit mask it prints.
module Affinity {
  import opened GoStrings
  import opened IntLists
  import opened CPULists
  import opened CPUListLaws

  // ---------- The victim's parser ----------

  datatype VictimError = BadCPURange(part: string) | BadCPUId(part: string)

  type ListResult = Result<seq<int>, VictimError>

  function RangeList(lo: int, hi: int): (l: seq<int>)
    ensures forall c :: c in l <==> lo <= c <= hi
    decreases hi - lo
  {
    if lo > hi then [] else RangeList(lo, hi - 1) + [hi]
  }

  function VictimPart(part: string): ListResult {
    var p := TrimSpace(part);
    if p == "" then
      Ok([])
    else
      var i := Index(p, '-');
      if i > 0 then VictimRange(p, Atoi(p[..i]), Atoi(p[i + 1..])) else VictimSingle(p, Atoi(p))
  }

  function VictimRange(p: string, lo: Option<int>, hi: Option<int>): ListResult {
    if lo.None? || hi.None? || lo.value > hi.value then Err(BadCPURange(p)) else Ok(RangeList(lo.value, hi.value))
  }

  function VictimSingle(p: string, c: Option<int>): ListResult {
    if c.None? then Err(BadCPUId(p)) else Ok([c.value])
  }

  function Append(a: ListResult, b: ListResult): ListResult {
    if a.Err? then a else if b.Err? then b else Ok(a.value + b.value)
  }

  function VictimParts(parts: seq<string>): ListResult {
    if parts == [] then Ok([]) else Append(VictimParts(parts[..|parts| - 1]), VictimPart(parts[|parts| - 1]))
  }

  // What parseCPUSet returns: the CPUs in the order written, duplicates kept.
  function VictimParsed(s: string): ListResult {
    VictimParts(Split(s, ','))
  }

  method ParseCPUSetPart(part: string, out: seq<int>) returns (r: ListResult)
    ensures r == Append(Ok(out), VictimPart(part))
  {
    var p := TrimSpace(part);
    if p == "" {
      assert out + [] == out;
      return Ok(out);
    }
    var i := Index(p, '-');
    if i > 0 {
      var lo, hi := Atoi(p[..i]), Atoi(p[i + 1..]);
      if lo.None? || hi.None? || lo.value > hi.value {
        return Err(BadCPURange(p));
      }
      var all := out;
      for c := lo.value to hi.value + 1
        invariant all == out + RangeList(lo.value, c - 1)
      {
        assert RangeList(lo.value, c) == RangeList(lo.value, c - 1) + [c];
        all := all + [c];
      }
      return Ok(all);
    }
    var c := Atoi(p);
    if c.None? {
      return Err(BadCPUId(p));
    }
    return Ok(out + [c.value]);
  }

  method ParseCPUSet(s: string) returns (r: ListResult)
    ensures r == VictimParsed(s)
  {
    var out: seq<int> := [];
    var parts := Split(s, ',');
    for i := 0 to |parts|
      invariant VictimParts(parts[..i]) == Ok(out)
    {
      assert parts[..i + 1][..i] == parts[..i];
      var part := ParseCPUSetPart(parts[i], out);
      if part.Err? {
        VictimErrorStays(parts, i + 1);
        return Err(part.error);
      }
      out := part.value;
    }
    assert parts[..|parts|] == parts;
    return Ok(out);
  }

  lemma {:induction false} VictimErrorStays(parts: seq<string>, i: nat)
    requires i <= |parts| && VictimParts(parts[..i]).Err?
    ensures VictimParts(parts) == VictimParts(parts[..i])
    decreases |parts| - i
  {
    if i < |parts| {
      assert parts[..i + 1][..i] == parts[..i];
      VictimErrorStays(parts, i + 1);
    } else {
      assert parts[..i] == parts;
    }
  }

  // ---------- The victim reads what the planner prints ----------

  function RunList(rs: seq<Run>): seq<int> {
    if rs == [] then [] else RunList(rs[..|rs| - 1]) + RangeList(rs[|rs| - 1].lo, rs[|rs| - 1].hi)
  }

  lemma ExtendLists(rs: seq<Run>, c: int)
    requires OrderedRuns(rs)
    ensures RunList(Extend(rs, c)) == RunList(rs) + [c]
  {
    var m, out := |rs| - 1, Extend(rs, c);
    if rs != [] && c == rs[m].hi + 1 {
      assert out[..m] == rs[..m];
      assert RunList(out) == RunList(rs[..m]) + (RangeList(rs[m].lo, rs[m].hi) + [c]);
    } else {
      assert out[..|rs|] == rs;
      assert RangeList(c, c) == RangeList(c, c - 1) + [c];
    }
  }

  // The runs of a list spell out the list itself.
  lemma {:induction false} RunsSpell(l: seq<int>)
    ensures RunList(RunsOf(l)) == l
  {
    if l != [] {
      var n := |l| - 1;
      RunsSpell(l[..n]);
      RunsCover(l[..n]);
      hide Extend, RunList, OrderedRuns, RunSet;
      ExtendLists(RunsOf(l[..n]), l[n]);
      assert RunsOf(l) == Extend(RunsOf(l[..n]), l[n]);
      assert l == l[..n] + [l[n]];
    }
  }

  lemma RunTextForVictim(r: Run)
    requires 0 <= r.lo <= r.hi <= MAX_INT
    ensures Split(RunText(r), ',') == [RunText(r)]
    ensures VictimPart(RunText(r)) == Ok(RangeList(r.lo, r.hi))
  {
    hide TrimSpace, Atoi, Itoa, Split, Index;
    RunTextShape(r);
    AtoiItoa(r.lo);
    AtoiItoa(r.hi);
    assert RangeList(r.lo, r.lo - 1) == [];
    assert RangeList(r.lo, r.lo) == [r.lo];
  }

  lemma {:induction false} RenderForVictim(rs: seq<Run>)
    requires GoodRuns(rs)
    ensures VictimParsed(Render(rs)) == Ok(RunList(rs))
  {
    if rs == [] {
      assert Split("", ',') == [""] && [""][..0] == [];
      assert VictimPart("") == Ok([]);
      var none: seq<int> := [];
      assert none + none == none;
      assert VictimParts([""]) == Append(Ok([]), Ok([]));
    } else {
      var n := |rs| - 1;
      var last := RunText(rs[n]);
      RunTextForVictim(rs[n]);
      RenderForVictim(rs[..n]);
      if n == 0 {
        assert [last][..0] == [] && rs[..0] == [];
        assert VictimParts([last]) == Append(Ok([]), VictimPart(last));
      } else {
        var front := Split(Render(rs[..n]), ',');
        SplitConcat(Render(rs[..n]), last, ',');
        assert (front + [last])[..|front|] == front;
      }
    }
  }

  // The victim's list of a printed CPU list is the list, sorted; of a
  // canonical list it is the list itself.
  lemma VictimReadsPlanner(l: seq<int>)
    requires Naturals(l)
    ensures VictimParsed(Text(l)) == Ok(SortInts(l))
    ensures Canonical(l) ==> VictimParsed(Text(l)) == Ok(l)
  {
    var sorted := SortInts(l);
    SortIntsElems(l);
    assert forall c <- sorted :: c in Elems(sorted);
    RunsSpell(sorted);
    RunsGood(sorted);
    RenderForVictim(RunsOf(sorted));
    if Canonical(l) {
      SortIntsSorted(l);
    }
  }

  // ---------- Where the two parsers agree ----------

  lemma AtoiHasNoSpace(s: string)
    requires Atoi(s).Some?
    ensures TrimSpace(s) == s
  {
    AtoiNoSpace(s);
    TrimSpaceNoSpace(s);
  }

  ghost predicate NonNegative(l: seq<int>) {
    forall c <- Elems(l) :: 0 <= c
  }

  // What the planner makes of a list the victim read.
  ghost predicate Agrees(planner: CPUResult, l: seq<int>) {
    if NonNegative(l) then planner == Ok(Elems(l)) else planner.Err?
  }

  lemma PartsAgree(part: string)
    requires VictimPart(part).Ok?
    ensures Agrees(PartCPUs(part), VictimPart(part).value)
  {
    var p := TrimSpace(part);
    if p == "" {
      assert Elems<int>([]) == {};
    } else {
      var i := Index(p, '-');
      if i > 0 {
        AtoiHasNoSpace(p[..i]);
        AtoiHasNoSpace(p[i + 1..]);
        RangeAgrees(p, Atoi(p[..i]), Atoi(p[i + 1..]));
      } else {
        assert Elems([Atoi(p).value]) == {Atoi(p).value};
      }
    }
  }

  lemma RangeAgrees(p: string, lo: Option<int>, hi: Option<int>)
    requires VictimRange(p, lo, hi).Ok?
    ensures Agrees(RangeCPUs(p, lo, hi), VictimRange(p, lo, hi).value)
  {
    assert Elems(RangeList(lo.value, hi.value)) == Interval(lo.value, hi.value);
    assert lo.value in Elems(RangeList(lo.value, hi.value));
  }

  lemma CombineAgrees(a: CPUResult, b: CPUResult, k: seq<int>, l: seq<int>)
    requires Agrees(a, k) && Agrees(b, l)
    ensures Agrees(Combine(a, b), k + l)
  {
    ElemsConcat(k, l);
    assert NonNegative(k + l) <==> NonNegative(k) && NonNegative(l);
  }

  lemma {:induction false} AllPartsAgree(parts: seq<string>)
    requires VictimParts(parts).Ok?
    ensures Agrees(PartsCPUs(parts), VictimParts(parts).value)
  {
    if parts == [] {
      assert Elems<int>([]) == {};
    } else {
      var n := |parts| - 1;
      AllPartsAgree(parts[..n]);
      PartsAgree(parts[n]);
      CombineAgrees(PartsCPUs(parts[..n]), PartCPUs(parts[n]), VictimParts(parts[..n]).value,
        VictimPart(parts[n]).value);
    }
  }

  // Of a text the victim accepts, the planner accepts it exactly when no CPU
  // number is negative, and then means the same set.
  lemma VictimAgreesWithPlanner(s: string)
    requires VictimParsed(s).Ok?
    ensures Parsed(s).Ok? <==> NonNegative(VictimParsed(s).value)
    ensures Parsed(s).Ok? ==> Parsed(s).value == SortedList(Elems(VictimParsed(s).value))
  {
    AllPartsAgree(Split(s, ','));
  }

  lemma PartAcceptedByVictim(part: string)
    requires PartCPUs(part).Ok?
    ensures VictimPart(part).Ok? <==> NoSpace(TrimSpace(part))
  {
    var p := TrimSpace(part);
    if p != "" {
      var i := Index(p, '-');
      if i > 0 {
        var lo, hi := p[..i], p[i + 1..];
        assert p == lo + ['-'] + hi;
        if NoSpace(p) {
          TrimSpaceNoSpace(lo);
          TrimSpaceNoSpace(hi);
        } else if Atoi(lo).Some? && Atoi(hi).Some? {
          AtoiNoSpace(lo);
          AtoiNoSpace(hi);
        }
      } else {
        AtoiNoSpace(p);
      }
    }
  }

  lemma AtoiNoSpace(s: string)
    requires Atoi(s).Some?
    ensures NoSpace(s)
  {
    var digits := if s[0] == '-' || s[0] == '+' then s[1..] else s;
    assert NoSpace(digits);
    assert s == digits || s == [s[0]] + digits;
  }

  // Of a text the planner accepts, the victim accepts it exactly when no part
  // has white space inside it, as "0 - 3" has.
  lemma {:induction false} PartsAcceptedByVictim(parts: seq<string>)
    requires PartsCPUs(parts).Ok?
    ensures VictimParts(parts).Ok? <==> forall i | 0 <= i < |parts| :: NoSpace(TrimSpace(parts[i]))
  {
    hide TrimSpace, NoSpace, PartCPUs, VictimPart;
    if parts != [] {
      var n := |parts| - 1;
      PartsAcceptedByVictim(parts[..n]);
      PartAcceptedByVictim(parts[n]);
    }
  }

  lemma SpacedParts()
    ensures var p := "0 - 3";
            && Split(p, ',') == [p] && TrimSpace(p) == p && Index(p, '-') == 2
            && p[..2] == "0 " && p[3..] == " 3" && TrimSpace("0 ") == "0" && TrimSpace(" 3") == "3"
  {
    var p := "0 - 3";
    SplitNoSep(p, ',');
    assert TrimLeft(p) == p && TrimRight(p) == p;
    assert p[..2] == "0 " && '-' !in p[..2];
    IndexIs(p, '-', 2);
    assert "0" + [' '] == "0 " && [' '] + "3" == " 3";
    TrimSpaceBack("0", ' ');
    TrimSpaceFront(' ', "3");
    TrimSpaceNoSpace("0");
    TrimSpaceNoSpace("3");
  }

  // "0 - 3" is CPUs 0 to 3 for the planner and an error for the victim.
  lemma SpacedRangeRefused()
    ensures CPUSetOf("0 - 3") == Ok(Interval(0, 3)) && VictimParsed("0 - 3") == Err(BadCPURange("0 - 3"))
  {
    var p := "0 - 3";
    SpacedParts();
    assert Itoa(0) == "0" && Itoa(3) == "3";
    AtoiItoa(0);
    AtoiItoa(3);
    SinglePart(p);
    assert Atoi("0 ").None? by {
      assert "0 "[1] in "0 " && !IsDigit("0 "[1]);
    }
    hide TrimSpace, Atoi, Split, Index, Interval;
    assert [p][..0] == [];
  }

  // "-1" is CPU -1 for the victim and an error for the planner.
  lemma NegativeCPUAccepted()
    ensures VictimParsed("-1") == Ok([-1]) && CPUSetOf("-1") == Err(NegativeCPU(-1))
  {
    var p := "-1";
    SplitNoSep(p, ',');
    TrimSpaceNoSpace(p);
    IndexIs(p, '-', 0);
    assert DigitsOf(1) == "1" && Itoa(-1) == p;
    AtoiItoa(-1);
    SinglePart(p);
    hide TrimSpace, Atoi, Split, Index;
    assert [p][..0] == [] && [] + [-1] == [-1];
  }

  // ---------- The second printer ----------

  method FormatCPUSet(cpus: seq<int>) returns (text: string)
    ensures text == Render(RunsOf(cpus))
  {
    if |cpus| == 0 {
      return "";
    }
    text := PrintRuns(cpus);
  }

  // FormatCPUSet and CPUList.String print the same text exactly of the lists
  // that are already sorted.
  lemma PrintersAgree(l: seq<int>)
    requires Naturals(l)
    ensures Render(RunsOf(l)) == Text(l) <==> IsSorted(l)
  {
    if IsSorted(l) {
      SortIntsSorted(l);
    } else {
      RunsSpell(l);
      RunsGood(l);
      RenderForVictim(RunsOf(l));
      VictimReadsPlanner(l);
    }
  }

  // ---------- The kernel bit mask ----------

  predicate BitSet(b: bv8, bit: nat)
    requires bit < 8
  {
    b & (1 << bit) != 0
  }

  predicate OneBit(mask: seq<bv8>, c: int) {
    0 <= c < 8 * |mask| && BitSet(mask[c / 8], c % 8)
  }

  // One byte of the mask: l lists the one-bits below position n.
  ghost predicate ListsOneBits(mask: seq<bv8>, l: seq<int>, n: nat) {
    && Canonical(l)
    && forall c :: c in l <==> c < n && OneBit(mask, c)
  }

  function Pow2(n: nat): (r: nat)
    ensures r > 0
  {
    if n == 0 then 1 else 2 * Pow2(n - 1)
  }

  lemma HalfByte(b: bv8)
    ensures (b >> 1) as int == b as int / 2
  {
  }

  lemma LowestBit(b: bv8)
    ensures BitSet(b, 0) <==> b as int % 2 == 1
  {
  }

  lemma NextBitDown(b: bv8, bit: nat)
    requires 0 < bit < 8
    ensures BitSet(b, bit) <==> BitSet(b >> 1, bit - 1)
  {
  }

  // The binary digit of weight Pow2(bit) is a one.
  predicate IsOne(n: nat, bit: nat) {
    n / Pow2(bit) % 2 == 1
  }

  lemma LowestDigit(n: nat)
    ensures IsOne(n, 0) <==> n % 2 == 1
  {
    assert Pow2(0) == 1;
  }

  lemma DigitDown(n: nat, bit: nat)
    requires bit > 0
    ensures IsOne(n, bit) <==> IsOne(n / 2, bit - 1)
  {
    DivideTwice(n, Pow2(bit - 1));
  }

  // The bits of a byte are its binary digits, the lowest first.
  lemma {:induction false} BitIsDigit(b: bv8, bit: nat)
    requires bit < 8
    ensures BitSet(b, bit) <==> IsOne(b as int, bit)
    decreases bit
  {
    hide BitSet, IsOne, Pow2;
    if bit == 0 {
      LowestBit(b);
      LowestDigit(b as int);
    } else {
      NextBitDown(b, bit);
      HalfByte(b);
      BitIsDigit(b >> 1, bit - 1);
      DigitDown(b as int, bit);
    }
  }

  lemma DivideTwice(n: nat, k: nat)
    requires k > 0
    ensures n / 2 / k == n / (2 * k)
  {
    var q, r := n / (2 * k), n % (2 * k);
    var whole := k * q;
    assert n == 2 * whole + r && r / 2 < k by {
      assert (2 * k) * q == 2 * whole;
    }
    QuotientIs(n / 2, k, q, r / 2);
  }

  lemma QuotientIs(n: nat, k: nat, q: nat, r: nat)
    requires n == k * q + r && r < k
    ensures n / k == q
  {
    var d := n / k - q;
    assert k * d == r - n % k;
    assert d >= 1 ==> k * d >= k;
    assert d <= -1 ==> k * d + k <= 0;
  }

  // The CPUs of a mask in arithmetic: CPU c is the binary digit c % 8 of byte
  // c / 8.
  lemma OneBitIsDigit(mask: seq<bv8>, c: int)
    ensures OneBit(mask, c) <==> 0 <= c < 8 * |mask| && mask[c / 8] as int / Pow2(c % 8) % 2 == 1
  {
    hide BitSet, Pow2;
    if 0 <= c < 8 * |mask| {
      BitIsDigit(mask[c / 8], c % 8);
    }
  }

  lemma NextBit(mask: seq<bv8>, l: seq<int>, n: nat)
    requires ListsOneBits(mask, l, n) && n < 8 * |mask|
    ensures ListsOneBits(mask, if OneBit(mask, n) then l + [n] else l, n + 1)
  {
    forall k | 0 <= k < |l|
      ensures l[k] < n
    {
      assert l[k] in l;
    }
  }

  lemma ZeroByte(mask: seq<bv8>, l: seq<int>, i: nat)
    requires i < |mask| && mask[i] == 0 && ListsOneBits(mask, l, 8 * i)
    ensures ListsOneBits(mask, l, 8 * (i + 1))
  {
    forall c | 8 * i <= c < 8 * (i + 1)
      ensures !OneBit(mask, c)
    {
      assert c / 8 == i;
    }
  }

  method DecodeMask(mask: seq<bv8>) returns (cpus: seq<int>)
    ensures Canonical(cpus)
    ensures forall c :: c in cpus <==> OneBit(mask, c)
    ensures forall c :: c in cpus <==> 0 <= c < 8 * |mask| && mask[c / 8] as int / Pow2(c % 8) % 2 == 1
  {
    forall c
      ensures OneBit(mask, c) <==> 0 <= c < 8 * |mask| && mask[c / 8] as int / Pow2(c % 8) % 2 == 1
    {
      OneBitIsDigit(mask, c);
    }
    hide OneBit, Pow2;
    cpus := [];
    for byteIdx := 0 to |mask|
      invariant ListsOneBits(mask, cpus, 8 * byteIdx)
    {
      var b := mask[byteIdx];
      if b == 0 {
        ZeroByte(mask, cpus, byteIdx);
        continue;
      }
      cpus := DecodeByte(mask, byteIdx, b, cpus);
    }
  }

  method DecodeByte(mask: seq<bv8>, byteIdx: nat, b: bv8, cpus: seq<int>) returns (out: seq<int>)
    requires byteIdx < |mask| && b == mask[byteIdx] && ListsOneBits(mask, cpus, 8 * byteIdx)
    ensures ListsOneBits(mask, out, 8 * (byteIdx + 1))
  {
    hide ListsOneBits, BitSet;
    out := cpus;
    for bit := 0 to 8
      invariant ListsOneBits(mask, out, 8 * byteIdx + bit)
    {
      NextBit(mask, out, 8 * byteIdx + bit);
      assert (8 * byteIdx + bit) / 8 == byteIdx && (8 * byteIdx + bit) % 8 == bit;
      if BitSet(b, bit) {
        out := out + [byteIdx * 8 + bit];
      }
    }
  }

  lemma MaskText(mask: seq<bv8>, cpus: seq<int>)
    requires 8 * |mask| - 1 <= MAX_INT
    requires Canonical(cpus) && forall c :: c in cpus <==> OneBit(mask, c)
    ensures Parsed(Render(RunsOf(cpus))) == Ok(cpus)
    ensures Render(RunsOf(cpus)) == "" <==> cpus == []
    ensures cpus == [] <==> forall c :: !OneBit(mask, c)
  {
    RoundTrip(cpus);
    PrintersAgree(cpus);
    RenderEmpty(RunsOf(cpus));
    if cpus != [] {
      assert cpus[0] in cpus;
    }
  }

  // readAffinity after the system call: the text of the one-bits.
  method AffinityText(mask: seq<bv8>) returns (text: string)
    requires 8 * |mask| - 1 <= MAX_INT
    ensures Parsed(text).Ok?
    ensures forall c :: c in Parsed(text).value <==> 0 <= c < 8 * |mask| && mask[c / 8] as int / Pow2(c % 8) % 2 == 1
    ensures text == "" <==> forall c :: !OneBit(mask, c)
  {
    var cpus := DecodeMask(mask);
    MaskText(mask, cpus);
    if |cpus| == 0 {
      return "";
    }
    text := FormatCPUSet(cpus);
  }
}
