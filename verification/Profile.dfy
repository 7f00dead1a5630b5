// The performance profile: the pools, the component map and their validation.
module Profile {
  import opened GoStrings
  import opened IntLists
  import opened CPULists

  // The five tuning classes; Unset is the empty string and Other any other
  // text.
  datatype TuningClass =
    | Unset
    | Reserved
    | IsolatedExclusive
    | IsolatedShared
    | Burstable
    | BestEffort
    | Other(name: string)
  {
    predicate Known() {
      !Unset? && !Other?
    }
  }

  datatype ComponentTuning = ComponentTuning(
    cls: TuningClass,
    cpus: string,
    gomaxprocsOverride: int,
    memoryMaxBytes: int,
    rtPriority: int)

  datatype HugepagePage = HugepagePage(size: string, count: int)

  datatype PerformanceProfile = PerformanceProfile(
    apiVersion: string,
    kind: string,
    reserved: string,
    isolated: string,
    shared: string,
    offlined: string,
    hugepages: seq<HugepagePage>,
    topologyPolicy: string,
    rtEnabled: bool,
    irqBalancingDisabled: bool,
    highPower: bool,
    componentMap: map<string, ComponentTuning>,
    defaultClass: TuningClass)

  // ---------- Pools ----------

  // A text's CPU list, or no CPUs when the text is rejected.
  ghost function PoolOf(text: string): (l: seq<int>)
    ensures Canonical(l)
  {
    match Parsed(text)
    case Ok(l) => l
    case Err(_) => []
  }

  ghost function ReservedPool(p: PerformanceProfile): seq<int> {
    PoolOf(p.reserved)
  }

  ghost function IsolatedPool(p: PerformanceProfile): seq<int> {
    PoolOf(p.isolated)
  }

  method ParsePool(text: string) returns (cpus: seq<int>)
    ensures cpus == PoolOf(text)
  {
    var r := ParseCPUList(text);
    return if r.Ok? then r.value else [];
  }

  function EffectiveDefaultClass(p: PerformanceProfile): TuningClass {
    if p.defaultClass.Unset? then Burstable else p.defaultClass
  }

  // ---------- What Validate refuses ----------

  datatype Fault =
    | BadAPIVersion
    | BadKind
    | BadReserved
    | BadIsolated
    | NoReserved
    | NoIsolated
    | PoolsOverlap
    | BadShared
    | SharedOutside
    | BadOfflined
    | OfflinedOverlaps
    | BadHugepages
    | BadTopologyPolicy
    | BadEntryClass(name: string)
    | BadEntryCPUs(name: string)
    | EntryOutside(name: string)
    | PriorityWithoutRT(name: string)
    | PriorityOutOfRange(name: string)
    | BadDefaultClass

  const POLICIES: set<string> := {"none", "best-effort", "restricted", "single-numa-node"}

  // The profile has this fault.
  ghost predicate HasFault(p: PerformanceProfile, f: Fault) {
    match f
    case BadAPIVersion => p.apiVersion != "" && !HasPrefix(p.apiVersion, "performance.openshift.io/")
    case BadKind => p.kind != "" && p.kind != "PerformanceProfile"
    case BadReserved => Parsed(p.reserved).Err?
    case BadIsolated => Parsed(p.isolated).Err?
    case NoReserved => |ReservedPool(p)| == 0
    case NoIsolated => |IsolatedPool(p)| == 0
    case PoolsOverlap => !Disjoint(ReservedPool(p), IsolatedPool(p))
    case BadShared => p.shared != "" && Parsed(p.shared).Err?
    case SharedOutside => p.shared != "" && !InPools(p, p.shared)
    case BadOfflined => p.offlined != "" && Parsed(p.offlined).Err?
    case OfflinedOverlaps => p.offlined != "" && exists c <- Elems(PoolOf(p.offlined)) :: InPool(p, c)
    case BadHugepages => exists page <- p.hugepages :: !PageValid(page)
    case BadTopologyPolicy => p.topologyPolicy != "" && p.topologyPolicy !in POLICIES
    case BadEntryClass(n) => n in p.componentMap && !p.componentMap[n].cls.Known()
    case BadEntryCPUs(n) => n in p.componentMap && p.componentMap[n].cpus != "" && Parsed(p.componentMap[n].cpus).Err?
    case EntryOutside(n) => n in p.componentMap && p.componentMap[n].cpus != "" && !InPools(p, p.componentMap[n].cpus)
    case PriorityWithoutRT(n) => n in p.componentMap && p.componentMap[n].rtPriority != 0 && !p.rtEnabled
    case PriorityOutOfRange(n) => n in p.componentMap && !(0 <= p.componentMap[n].rtPriority <= 99)
    case BadDefaultClass => !p.defaultClass.Unset? && !p.defaultClass.Known()
  }

  ghost predicate InPool(p: PerformanceProfile, c: int) {
    c in Elems(ReservedPool(p)) || c in Elems(IsolatedPool(p))
  }

  ghost predicate InPools(p: PerformanceProfile, text: string) {
    forall c <- Elems(PoolOf(text)) :: InPool(p, c)
  }

  predicate PageValid(page: HugepagePage) {
    (page.size == "1G" || page.size == "2M") && page.count > 0
  }

  ghost predicate Valid(p: PerformanceProfile) {
    forall f: Fault :: !HasFault(p, f)
  }

  // ---------- The order of the checks ----------

  const ENTRY_STAGE := 13

  // When a fault is looked for; the entries are walked at one stage.
  function Stage(f: Fault): nat {
    match f
    case BadAPIVersion => 0
    case BadKind => 1
    case BadReserved => 2
    case BadIsolated => 3
    case NoReserved => 4
    case NoIsolated => 5
    case PoolsOverlap => 6
    case BadShared => 7
    case SharedOutside => 8
    case BadOfflined => 9
    case OfflinedOverlaps => 10
    case BadHugepages => 11
    case BadTopologyPolicy => 12
    case BadDefaultClass => 14
    case _ => ENTRY_STAGE
  }

  // When a fault of an entry is looked for within the entry.
  function EntryStage(f: Fault): nat {
    match f
    case BadEntryClass(_) => 0
    case BadEntryCPUs(_) => 1
    case EntryOutside(_) => 2
    case PriorityWithoutRT(_) => 3
    case _ => 4
  }

  // No fault of the stages lo to hi - 1.
  ghost predicate Clear(p: PerformanceProfile, lo: nat, hi: nat) {
    forall f: Fault :: lo <= Stage(f) < hi ==> !HasFault(p, f)
  }

  // The profile has the fault and none that is looked for before it, from
  // stage lo on.
  ghost predicate First(p: PerformanceProfile, lo: nat, f: Fault) {
    && HasFault(p, f) && lo <= Stage(f) && Clear(p, lo, Stage(f))
    && (Stage(f) == ENTRY_STAGE ==> FirstOfEntry(p, f))
  }

  ghost predicate FirstOfEntry(p: PerformanceProfile, f: Fault)
    requires Stage(f) == ENTRY_STAGE
  {
    forall g: Fault :: Stage(g) == ENTRY_STAGE && g.name == f.name && EntryStage(g) < EntryStage(f) ==> !HasFault(p, g)
  }

  lemma ClearStep(p: PerformanceProfile, lo: nat, f: Fault)
    requires Stage(f) != ENTRY_STAGE && Clear(p, lo, Stage(f)) && !HasFault(p, f)
    ensures Clear(p, lo, Stage(f) + 1)
  {
    hide HasFault;
    forall g: Fault | Stage(g) == Stage(f)
      ensures g == f
    {
    }
  }

  lemma ClearJoin(p: PerformanceProfile, lo: nat, mid: nat, f: Fault)
    requires lo <= mid && Clear(p, lo, mid) && First(p, mid, f)
    ensures First(p, lo, f)
  {
    hide HasFault, Stage;
  }

  lemma ClearTogether(p: PerformanceProfile, lo: nat, mid: nat, hi: nat)
    requires Clear(p, lo, mid) && Clear(p, mid, hi)
    ensures Clear(p, lo, hi)
  {
    hide HasFault, Stage;
  }

  // ---------- Validate ----------

  method InsidePools(cpus: seq<int>, reserved: seq<int>, isolated: seq<int>) returns (inside: bool)
    ensures inside <==> forall c <- Elems(cpus) :: c in Elems(reserved) || c in Elems(isolated)
  {
    var all := Union(reserved, isolated);
    var outside := Difference(cpus, all);
    assert |outside| > 0 ==> outside[0] in Elems(outside);
    assert forall c :: c in Elems(cpus) && c !in Elems(all) ==> c in Elems(outside);
    inside := |outside| == 0;
  }

  method ValidateEntry(p: PerformanceProfile, name: string, reserved: seq<int>, isolated: seq<int>)
    returns (r: Option<Fault>)
    requires name in p.componentMap
    requires reserved == ReservedPool(p) && isolated == IsolatedPool(p)
    ensures r.Some? ==> HasFault(p, r.value) && Stage(r.value) == ENTRY_STAGE && FirstOfEntry(p, r.value)
    ensures r.None? ==> EntryValid(p, name)
  {
    hide Parsed, SortedList;
    var ct := p.componentMap[name];
    if ct.cls.Unset? || ct.cls.Other? {
      return Some(BadEntryClass(name));
    }
    if ct.cpus != "" {
      var cpus := ParseCPUList(ct.cpus);
      if cpus.Err? {
        return Some(BadEntryCPUs(name));
      }
      var inside := InsidePools(cpus.value, reserved, isolated);
      assert inside <==> forall c <- Elems(cpus.value) :: InPool(p, c);
      if !inside {
        return Some(EntryOutside(name));
      }
    }
    if ct.rtPriority != 0 && !p.rtEnabled {
      return Some(PriorityWithoutRT(name));
    }
    if ct.rtPriority < 0 || ct.rtPriority > 99 {
      return Some(PriorityOutOfRange(name));
    }
    return None;
  }

  ghost predicate EntryValid(p: PerformanceProfile, name: string) {
    && !HasFault(p, BadEntryClass(name))
    && !HasFault(p, BadEntryCPUs(name))
    && !HasFault(p, EntryOutside(name))
    && !HasFault(p, PriorityWithoutRT(name))
    && !HasFault(p, PriorityOutOfRange(name))
  }

  method ValidatePools(p: PerformanceProfile) returns (r: Option<Fault>)
    ensures r.Some? ==> First(p, 2, r.value)
    ensures r.None? ==> Clear(p, 2, 11)
  {
    hide Parsed, SortedList, Clear, Disjoint, InPool, InPools;
    Nothing(p, 2);
    var rp := ParseCPUList(p.reserved);
    if rp.Err? {
      return Some(BadReserved);
    }
    ClearStep(p, 2, BadReserved);
    var ip := ParseCPUList(p.isolated);
    if ip.Err? {
      return Some(BadIsolated);
    }
    ClearStep(p, 2, BadIsolated);
    var reserved, isolated := rp.value, ip.value;
    if |reserved| == 0 {
      return Some(NoReserved);
    }
    ClearStep(p, 2, NoReserved);
    if |isolated| == 0 {
      return Some(NoIsolated);
    }
    ClearStep(p, 2, NoIsolated);
    var apart := AreDisjoint(reserved, isolated);
    if !apart {
      return Some(PoolsOverlap);
    }
    ClearStep(p, 2, PoolsOverlap);
    r := ValidateExtraPools(p, reserved, isolated);
    if r.Some? {
      ClearJoin(p, 2, 7, r.value);
    } else {
      ClearTogether(p, 2, 7, 11);
    }
  }

  lemma Nothing(p: PerformanceProfile, lo: nat)
    ensures Clear(p, lo, lo)
  {
  }

  method ValidateExtraPools(p: PerformanceProfile, reserved: seq<int>, isolated: seq<int>) returns (r: Option<Fault>)
    requires reserved == ReservedPool(p) && isolated == IsolatedPool(p)
    ensures r.Some? ==> First(p, 7, r.value)
    ensures r.None? ==> Clear(p, 7, 11)
  {
    hide HasFault, Clear, Stage, FirstOfEntry, ReservedPool, IsolatedPool;
    if p.shared != "" {
      r := ValidateShared(p, reserved, isolated);
      if r.Some? {
        return;
      }
    } else {
      SharedBlank(p);
    }
    if p.offlined != "" {
      r := ValidateOfflined(p, reserved, isolated);
      if r.Some? {
        ClearJoin(p, 7, 9, r.value);
        return;
      }
    } else {
      OfflinedBlank(p);
    }
    ClearTogether(p, 7, 9, 11);
    return None;
  }

  lemma SharedBlank(p: PerformanceProfile)
    requires p.shared == ""
    ensures Clear(p, 7, 9)
  {
  }

  lemma OfflinedBlank(p: PerformanceProfile)
    requires p.offlined == ""
    ensures Clear(p, 9, 11)
  {
  }

  method ValidateShared(p: PerformanceProfile, reserved: seq<int>, isolated: seq<int>) returns (r: Option<Fault>)
    requires reserved == ReservedPool(p) && isolated == IsolatedPool(p) && p.shared != ""
    ensures r.Some? ==> First(p, 7, r.value)
    ensures r.None? ==> Clear(p, 7, 9)
  {
    hide Parsed, SortedList, Clear;
    Nothing(p, 7);
    var sp := ParseCPUList(p.shared);
    if sp.Err? {
      return Some(BadShared);
    }
    ClearStep(p, 7, BadShared);
    var inside := InsidePools(sp.value, reserved, isolated);
    assert inside <==> forall c <- Elems(sp.value) :: InPool(p, c);
    if !inside {
      return Some(SharedOutside);
    }
    ClearStep(p, 7, SharedOutside);
    return None;
  }

  method ValidateOfflined(p: PerformanceProfile, reserved: seq<int>, isolated: seq<int>) returns (r: Option<Fault>)
    requires reserved == ReservedPool(p) && isolated == IsolatedPool(p) && p.offlined != ""
    ensures r.Some? ==> First(p, 9, r.value)
    ensures r.None? ==> Clear(p, 9, 11)
  {
    hide Parsed, SortedList, Clear;
    Nothing(p, 9);
    var off := ParseCPUList(p.offlined);
    if off.Err? {
      return Some(BadOfflined);
    }
    ClearStep(p, 9, BadOfflined);
    var all := Union(reserved, isolated);
    var gone := AreDisjoint(off.value, all);
    assert gone <==> forall c <- Elems(off.value) :: !InPool(p, c);
    if !gone {
      return Some(OfflinedOverlaps);
    }
    ClearStep(p, 9, OfflinedOverlaps);
    return None;
  }

  method ValidatePages(pages: seq<HugepagePage>) returns (ok: bool)
    ensures ok <==> forall page <- pages :: PageValid(page)
  {
    for i := 0 to |pages|
      invariant forall k | 0 <= k < i :: PageValid(pages[k])
    {
      if !PageValid(pages[i]) {
        return false;
      }
    }
    return true;
  }

  // The component map is walked in any order.
  method ValidateMap(p: PerformanceProfile) returns (r: Option<Fault>)
    ensures r.Some? ==> HasFault(p, r.value) && Stage(r.value) == ENTRY_STAGE && FirstOfEntry(p, r.value)
    ensures r.None? ==> forall n <- p.componentMap.Keys :: EntryValid(p, n)
  {
    hide HasFault, FirstOfEntry, Stage;
    var reserved := ParsePool(p.reserved);
    var isolated := ParsePool(p.isolated);
    var rest := p.componentMap.Keys;
    while rest != {}
      invariant rest <= p.componentMap.Keys
      invariant forall n <- p.componentMap.Keys :: n !in rest ==> EntryValid(p, n)
      decreases rest
    {
      ghost var some := AnyOf(rest);
      var name :| name in rest;
      r := ValidateEntry(p, name, reserved, isolated);
      if r.Some? {
        return;
      }
      rest := rest - {name};
    }
    return None;
  }

  // Validate: an accepted profile has no fault; a reported fault is there, and
  // nothing that the code looks for before it. Only among the entries of the
  // component map is there no order.
  method Validate(p: PerformanceProfile) returns (r: Option<Fault>)
    ensures r.None? ==> Valid(p)
    ensures r.Some? ==> First(p, 0, r.value)
  {
    hide Parsed, PoolOf, ReservedPool, IsolatedPool, InPool, InPools, Disjoint, EntryValid, Valid, Clear, FirstOfEntry;
    Nothing(p, 0);
    if p.apiVersion != "" && !HasPrefix(p.apiVersion, "performance.openshift.io/") {
      return Some(BadAPIVersion);
    }
    ClearStep(p, 0, BadAPIVersion);
    if p.kind != "" && p.kind != "PerformanceProfile" {
      return Some(BadKind);
    }
    ClearStep(p, 0, BadKind);
    r := ValidatePools(p);
    if r.Some? {
      ClearJoin(p, 0, 2, r.value);
      return;
    }
    ClearTogether(p, 0, 2, 11);
    var pages := ValidatePages(p.hugepages);
    if !pages {
      return Some(BadHugepages);
    }
    ClearStep(p, 0, BadHugepages);
    if p.topologyPolicy != "" && p.topologyPolicy !in POLICIES {
      return Some(BadTopologyPolicy);
    }
    ClearStep(p, 0, BadTopologyPolicy);
    r := ValidateMap(p);
    if r.Some? {
      return;
    }
    EntriesClear(p);
    if !p.defaultClass.Unset? && !p.defaultClass.Known() {
      return Some(BadDefaultClass);
    }
    ClearStep(p, 0, BadDefaultClass);
    AllClear(p);
  }

  lemma EntriesClear(p: PerformanceProfile)
    requires Clear(p, 0, ENTRY_STAGE) && forall n <- p.componentMap.Keys :: EntryValid(p, n)
    ensures Clear(p, 0, ENTRY_STAGE + 1)
  {
    hide Parsed, InPools;
    forall f: Fault | Stage(f) == ENTRY_STAGE
      ensures !HasFault(p, f)
    {
      if f.name in p.componentMap.Keys {
        assert EntryValid(p, f.name);
      }
    }
  }

  lemma AllClear(p: PerformanceProfile)
    requires Clear(p, 0, 15)
    ensures Valid(p)
  {
    hide HasFault;
    forall f: Fault
      ensures !HasFault(p, f)
    {
      assert Stage(f) < 15;
    }
  }

  // ---------- What a valid profile is ----------

  ghost predicate TextInside(text: string, p: PerformanceProfile) {
    Parsed(text).Ok? && forall c <- Elems(Parsed(text).value) :: InPool(p, c)
  }

  // The head of the profile and its pools.
  ghost predicate GoodHead(p: PerformanceProfile) {
    && (p.apiVersion == "" || "performance.openshift.io/" <= p.apiVersion)
    && (p.kind == "" || p.kind == "PerformanceProfile")
    && Parsed(p.reserved).Ok? && Parsed(p.reserved).value != []
    && Parsed(p.isolated).Ok? && Parsed(p.isolated).value != []
    && Disjoint(Parsed(p.reserved).value, Parsed(p.isolated).value)
    && (p.shared == "" || TextInside(p.shared, p))
    && (p.offlined == "" || (Parsed(p.offlined).Ok? && forall c <- Elems(Parsed(p.offlined).value) :: !InPool(p, c)))
  }

  ghost predicate GoodBody(p: PerformanceProfile) {
    && (forall page <- p.hugepages :: (page.size == "1G" || page.size == "2M") && page.count > 0)
    && (p.topologyPolicy == "" || p.topologyPolicy == "none" || p.topologyPolicy == "best-effort"
        || p.topologyPolicy == "restricted" || p.topologyPolicy == "single-numa-node")
    && (forall n <- p.componentMap.Keys :: GoodEntry(p, p.componentMap[n]))
    && !p.defaultClass.Other?
  }

  ghost predicate GoodEntry(p: PerformanceProfile, ct: ComponentTuning) {
    && !ct.cls.Unset? && !ct.cls.Other?
    && (ct.cpus == "" || TextInside(ct.cpus, p))
    && 0 <= ct.rtPriority <= 99 && (ct.rtPriority != 0 ==> p.rtEnabled)
  }

  lemma HeadIff(p: PerformanceProfile)
    ensures GoodHead(p) <==> Clear(p, 0, 11)
  {
    hide Clear, GoodHead;
    if Clear(p, 0, 11) {
      ClearHead(p);
    }
    if GoodHead(p) {
      GoodHeadClear(p);
    }
  }

  lemma GoodHeadClear(p: PerformanceProfile)
    requires GoodHead(p)
    ensures Clear(p, 0, 11)
  {
    hide Parsed, Disjoint, InPool;
  }

  lemma NoFault(p: PerformanceProfile, f: Fault)
    requires Clear(p, 0, 11) && Stage(f) < 11
    ensures !HasFault(p, f)
  {
    hide HasFault, Stage;
  }

  lemma ClearHead(p: PerformanceProfile)
    requires Clear(p, 0, 11)
    ensures GoodHead(p)
  {
    hide Clear, HasFault, Parsed, Disjoint, InPool, InPools, PoolOf;
    NoFault(p, BadAPIVersion);
    NoFault(p, BadKind);
    NoFault(p, BadReserved);
    NoFault(p, BadIsolated);
    NoFault(p, NoReserved);
    NoFault(p, NoIsolated);
    NoFault(p, PoolsOverlap);
    NoFault(p, BadShared);
    NoFault(p, SharedOutside);
    NoFault(p, BadOfflined);
    NoFault(p, OfflinedOverlaps);
    NoHeadFault(p);
  }

  lemma NoHeadFault(p: PerformanceProfile)
    requires !HasFault(p, BadAPIVersion) && !HasFault(p, BadKind)
    requires !HasFault(p, BadReserved) && !HasFault(p, BadIsolated)
    requires !HasFault(p, NoReserved) && !HasFault(p, NoIsolated) && !HasFault(p, PoolsOverlap)
    requires !HasFault(p, BadShared) && !HasFault(p, SharedOutside)
    requires !HasFault(p, BadOfflined) && !HasFault(p, OfflinedOverlaps)
    ensures GoodHead(p)
  {
    hide Parsed, Disjoint, InPool, Clear;
  }

  lemma EntryIff(p: PerformanceProfile, n: string)
    requires n in p.componentMap
    ensures GoodEntry(p, p.componentMap[n]) <==> EntryValid(p, n)
  {
    hide Parsed, InPool;
  }

  lemma BodyIff(p: PerformanceProfile)
    ensures GoodBody(p) <==>
              && !HasFault(p, BadHugepages) && !HasFault(p, BadTopologyPolicy) && !HasFault(p, BadDefaultClass)
              && forall n <- p.componentMap.Keys :: EntryValid(p, n)
  {
    hide GoodEntry, EntryValid;
    forall n <- p.componentMap.Keys
      ensures GoodEntry(p, p.componentMap[n]) <==> EntryValid(p, n)
    {
      EntryIff(p, n);
    }
  }

  lemma ValidParts(p: PerformanceProfile)
    ensures Valid(p) <==>
              && Clear(p, 0, 11)
              && !HasFault(p, BadHugepages) && !HasFault(p, BadTopologyPolicy) && !HasFault(p, BadDefaultClass)
              && forall n <- p.componentMap.Keys :: EntryValid(p, n)
  {
    hide Parsed, InPools, PageValid, InPool, Disjoint;
    if Clear(p, 0, 11) && !HasFault(p, BadHugepages) && !HasFault(p, BadTopologyPolicy)
       && !HasFault(p, BadDefaultClass) && forall n <- p.componentMap.Keys :: EntryValid(p, n) {
      ClearStep(p, 0, BadHugepages);
      ClearStep(p, 0, BadTopologyPolicy);
      EntriesClear(p);
      ClearStep(p, 0, BadDefaultClass);
      AllClear(p);
    }
  }

  // The profiles that are accepted, in the terms of the profile's format.
  lemma ValidIff(p: PerformanceProfile)
    ensures Valid(p) <==> GoodHead(p) && GoodBody(p)
  {
    hide Valid, GoodHead, GoodBody, HasFault, Clear, EntryValid;
    ValidParts(p);
    HeadIff(p);
    BodyIff(p);
  }
}
