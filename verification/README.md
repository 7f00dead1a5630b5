# chaos-harness: a verified model of CPU planning and its surroundings

chaos-harness runs a crowd of worker processes beside one latency-sensitive
victim and measures what the crowd does to it. The measurement means something
only if no other process of the run can execute on the victim's CPUs. This
project models, in Dafny, the code that has to make that true and the code that
carries its result from process to process, and proves exactly when that code
does, for all inputs and all interleavings.

| files | what they model |
|---|---|
| `GoStrings`, `IntLists` | the Go library functions the rest is built on: trimming, splitting, decimal numbers (with Atoi's sign and 64-bit range error), sorting |
| `CPULists`, `CPUListLaws` | the planner's CPU-list parser, printer and set operations; the parser as a homomorphism, the printer as maximal runs, the round trips |
| `Affinity` | the far ends of the same text: the victim's parser, the worker's printer, the kernel's affinity bit mask |
| `Profile`, `Topology` | validation of a performance profile; expansion of a topology into processes |
| `Planner` | `BuildPlan`: a specification without pools and loops, and the imperative planner proved to return exactly it |
| `PlanFacts`, `PlanLaws` | the shape of a plan: conservation of the workload pool, what success rules out, the order of carved CPUs, no overcommit, empty cpusets |
| `RowLaws` | every row, pool and hint of a plan, in the terms of the profile and the topology |
| `Isolation`, `Confinement` | when the victim's CPUs are in no other cpuset, and when no other process can execute on them, empty cpusets being unconfined |
| `Success`, `Completeness` | exactly which runs the planner accepts, and that no run that fits is refused |
| `Victim` | what the input of one run says about its victim, before anything is planned |
| `Witnesses` | small profiles on which the code keeps less than its comments say |
| `Verify`, `Identity`, `UnitNames`, `ProcessTree` | the post-spawn check, which process is checked against which row, collision-freedom of scope and cgroup names, the search for the program behind a wrapper |
| `ShellQuote` | the `sh -c` script of the cgroup backend against the token recognition of sections 2.2.1, 2.2.2 and 2.3 of the POSIX.1-2017 Shell Command Language |
| `JsonlWriter` | the lossy event writer: as a class, and as atomic steps under every interleaving |
| `Sync`, `SyncServer` | the sync-mode reconcile protocol as one step relation, and the launcher's server as a class whose methods are runs of those steps |
| `EndToEnd` | the planner's cpusets survive their texts, the rows that processes are wrapped with are their own, and a run that passes verification has observed affinities disjoint from the victim's |

The planner is specified by demands. Every process makes one (`DemandOf`): the
reserved pool, its own CPUs, a slice from the end or the front of the free
window, or the whole workload pool. The processes before it leave a window
`workload[lo..hi)` free, and demand and window give its cpuset. The method
`BuildPlan` keeps the mutable pools instead and visits the component map in an
arbitrary order; that it returns `PlanOf(p, flat)` says that neither the
iteration order of Go's maps nor the bookkeeping of the pools can influence the
plan.

Where the code keeps less than its comments say, the code is modelled, and the
exact condition is proved:

- The plan's workload pool is said to leave out the victim's CPUs
  (`pkg/tuning/plan.go:51`). `Victim.VictimOutsideWorkloadIff` states when it
  does: for a victim with CPUs of its own, when these are reserved or in
  exclusive regions; for a defaulted one, when the last four unclaimed CPUs
  happen to lie in such regions. `Witnesses.DefaultedVictimInWorkload` is a plan for
  which it does not.
- A victim with a non-exclusive class and CPUs of its own is not protected by
  the exclusivity check. `Victim.RunIsolatedIff` states for one run, from its
  input, when the victim is isolated nonetheless; `Isolation.IsolationIff`
  states it for all runs of a profile that avoid any chosen set of names, such
  as the victim's own, since a worker that is its namesake shares its entry of
  the component map. `Witnesses.BurstableVictimHit` is a run in which such a
  victim shares a CPU, `Witnesses.BurstableVictimSpared` a profile whose runs
  without a namesake never do.
- Every backend leaves a process with an empty cpuset unconfined
  (`pkg/tuning/applier_cgroup.go:116`, `pkg/tuning/applier_systemd.go:71`,
  `pkg/tuning/applier_taskset.go:54`), and a plan can contain one
  (`PlanLaws.EmptyCpusetIff`). `Victim.RunShieldedIff` and
  `Confinement.ShieldIff` state when a run, and when every run of a profile,
  keeps all other processes off the victim's CPUs;
  `Witnesses.IsolatedNotShielded` is a plan that only seems to.
- The launcher speaks of the deepest matching descendant
  (`cmd/chaos-launcher/main.go:205-206`); the search returns a shallowest one
  (`ProcessTree.FindInnerChaosPID`), which is the deepest exactly when all
  matches are at one depth (`ProcessTree.DeepestIff`, with
  `ProcessTree.ShallowNotDeep` for a table where it is not).
- `Trigger` is said to drop stalled clients (`pkg/sync/sync.go:112-113`); it
  leaves the client map as it is (`SyncServer.Server.Trigger`), from which a
  client disappears exactly when its own connection drops or with `Close`
  (`Sync.ClientStaysIff`).
- A worker that registers after `Close` makes the server write to a nil map
  (`Sync.CrashIff`, `Sync.LateRegisterCrashes`); an `Emit` that overlaps `Close`
  can send on a closed channel (`JsonlWriter.PanicIff`,
  `JsonlWriter.LateSendPanics`).
- Two component names that differ only in characters outside
  `[A-Za-z0-9_-]` share a scope name (`UnitNames.UnitsDistinctIff`,
  `Witnesses.DottedNameShares`).
- The victim's parser refuses texts that the planner's accepts, and accepts
  negative CPU numbers (`Affinity.PartsAcceptedByVictim` with
  `Affinity.SpacedRangeRefused`, `Affinity.VictimAgreesWithPlanner` with
  `Affinity.NegativeCPUAccepted`); texts printed by the planner are read
  alike by both.

## Model

| member | source | states |
|---|---|---|
| CPULists.ParseCPUList | pkg/tuning/cpulist.go:26-69 | the result is the strictly increasing list of the set the text denotes, or the error of the first bad part, whatever order the map is iterated in |
| CPULists.ParsePart | pkg/tuning/cpulist.go:32-62 | one part adds exactly its interval or single CPU to what was seen, or is refused as a bad, reverse or negative range or CPU |
| CPULists.TrimIrrelevant | pkg/tuning/cpulist.go:27 | white space around the whole text never changes what it denotes |
| CPULists.PrintRuns | pkg/tuning/cpulist.go:88-111 | the loop writes the list's runs of consecutive numbers, comma-separated |
| CPULists.String | pkg/tuning/cpulist.go:82-112 | any list, sorted or not, prints as the runs of its sorted form; the empty list as the empty text |
| CPULists.Contains | pkg/tuning/cpulist.go:115-122 | true exactly for the members |
| CPULists.Intersect | pkg/tuning/cpulist.go:125-138 | sorted, with exactly the common members; canonical when the receiver is |
| CPULists.Difference | pkg/tuning/cpulist.go:141-154 | sorted, with exactly the members that the other list lacks; canonical when the receiver is |
| CPULists.Union | pkg/tuning/cpulist.go:157-171 | the strictly increasing list of both lists' members, whatever order the map is iterated in |
| CPULists.AreDisjoint | pkg/tuning/cpulist.go:174-176 | true exactly when no CPU is in both |
| CPULists.Take | pkg/tuning/cpulist.go:181-191 | splits the sorted list after n CPUs or at its end; n of zero or less takes nothing |
| CPUListLaws.Homomorphism | pkg/tuning/cpulist.go:26-69 | two texts joined by a comma are accepted exactly when both are, and then parse to the union |
| CPUListLaws.PartsMembers | pkg/tuning/cpulist.go:32-62 | an accepted text denotes exactly the intervals and CPUs of its parts |
| CPUListLaws.ParsedIsCanonical | pkg/tuning/cpulist.go:26-69 | every accepted text yields a strictly increasing list of non-negative CPUs, a CPU being in it exactly when some part names it |
| CPUListLaws.RunsCover | pkg/tuning/cpulist.go:88-110 | the printed runs cover exactly the members of the list |
| CPUListLaws.RunsMaximal | pkg/tuning/cpulist.go:88-110 | the runs of a canonical list are maximal: between neighbours at least one CPU is missing |
| CPUListLaws.RenderParses | pkg/tuning/cpulist.go:26-112 | parsing undoes printing for every list of runs, overlapping ones included |
| CPUListLaws.RoundTrip | pkg/tuning/cpulist.go:22-112 | parsing a printed list gives its sorted, deduplicated form; a canonical list comes back itself |
| CPUListLaws.TextInjective | pkg/tuning/cpulist.go:82-112 | canonical lists print the same text only when they are equal |
| CPUListLaws.ParsePrintStable | pkg/tuning/cpulist.go:26-112 | printing what was parsed is a normal form: reparsing changes nothing, and two accepted texts have the same form exactly when they denote the same set |
| CPUListLaws.RangeText | pkg/tuning/cpulist.go:37-53 | a range of two numbers denotes exactly the CPUs between them, and a reversed one is refused |
| CPUListLaws.NegativeRangeUnreachable | pkg/tuning/cpulist.go:46-48 | the check for a negative range never strikes |
| CPUListLaws.SpaceTolerated | pkg/tuning/cpulist.go:23-27 | blanks, tabs and line ends around any text do not change what it denotes |
| GoStrings.AtoiItoaIff | pkg/tuning/cpulist.go:54-57 | a printed number parses to itself exactly when it fits 64 bits, and is refused otherwise |
| GoStrings.DecimalShift | pkg/tuning/cpulist.go:95-99 | numbers print in base ten: appending a digit multiplies by ten and adds it |
| Affinity.ParseCPUSet | cmd/chaos-victim/main.go:316-341 | returns the CPUs in written order with duplicates, or the error of the first bad part |
| Affinity.VictimReadsPlanner | cmd/chaos-victim/main.go:316-341 | of a printed CPU list the victim reads the sorted list, of a canonical one the list itself |
| Affinity.VictimAgreesWithPlanner | cmd/chaos-victim/main.go:316-341 | of a text the victim accepts, the planner accepts it exactly when no CPU is negative, and then means the same set |
| Affinity.PartsAcceptedByVictim | cmd/chaos-victim/main.go:318-337 | of a text the planner accepts, the victim accepts it exactly when no part has white space inside |
| Affinity.SpacedRangeRefused | cmd/chaos-victim/main.go:323-328 | "0 - 3" is CPUs 0 to 3 for the planner and a bad range for the victim |
| Affinity.NegativeCPUAccepted | cmd/chaos-victim/main.go:334-338 | "-1" is a CPU for the victim and a negative CPU for the planner |
| Affinity.FormatCPUSet | pkg/runtimeinfo/info.go:71-99 | prints the runs of the list as given |
| Affinity.PrintersAgree | pkg/runtimeinfo/info.go:71-99 | FormatCPUSet and String print the same text of exactly the lists that are already sorted |
| Affinity.DecodeMask | pkg/runtimeinfo/affinity_linux.go:24-35 | a mask of any length yields the strictly increasing list of exactly the CPUs c whose binary digit of weight 2 to the c mod 8 is a one in byte c / 8 |
| Affinity.BitIsDigit | pkg/runtimeinfo/affinity_linux.go:31 | testing a bit of a byte reads its binary digit of that weight, the lowest first |
| Affinity.AffinityText | pkg/runtimeinfo/affinity_linux.go:18-40 | the text written for a mask parses to exactly those CPUs, and is empty exactly when no bit is set |
| Profile.Validate | pkg/tuning/profile.go:185-289 | a profile is accepted exactly when it has none of the nineteen faults; a reported fault is present and none that is checked before it, only the entries of the component map being visited in any order |
| Profile.ValidIff | pkg/tuning/profile.go:185-289 | the accepted profiles in the terms of the format: the pool texts, the 1G and 2M pages, the four policies, the classes, the override CPUs and the priorities that are allowed |
| Profile.ValidatePools | pkg/tuning/profile.go:195-233 | the pool texts parse, are non-empty and apart, and the shared and offlined texts respect them, or the reported fault is the first in the order of the checks |
| Profile.ValidateMap | pkg/tuning/profile.go:252-278 | every entry is checked, in any order of iteration, and the fault reported is the first of its entry |
| Profile.ValidateEntry | pkg/tuning/profile.go:254-277 | class known, CPUs parse inside the pools, priority in range and only with the real-time kernel, or the first of these faults |
| Profile.ParsePool | pkg/tuning/profile.go:292-301 | the pool's CPUs, or none when the text is refused |
| Topology.Flatten | pkg/topology/topology.go:71-100 | the processes of the topology in order, each numbered by how many of its component came before it |
| Topology.CountProcesses | pkg/topology/topology.go:158-170 | the sum of the replicas, none or negative counting as one |
| Topology.SpecProcesses | pkg/topology/topology.go:77-96 | a spec yields one process per replica, none or fewer counting as one, with its profile and ideal threads, and its GOMAXPROCS unless a positive override replaces it |
| Topology.FlattenedFrom | pkg/topology/topology.go:71-100 | every flattened process comes from a spec of its component, and its replica ID is the component, a dash and its number |
| Topology.FlattenCount | pkg/topology/topology.go:71-173 | Flatten yields as many processes as Summary counts |
| Topology.ReplicaIDInjective | pkg/topology/topology.go:94 | a replica ID determines component and index, also for names with dashes and digits |
| Topology.ReplicaIDsDistinct | pkg/topology/topology.go:65-100 | replica IDs are pairwise distinct, also when a component name is repeated |
| Topology.IndexesAreInitial | pkg/topology/topology.go:73-98 | the indexes of a component run through 0..n-1 without a gap |
| Planner.BuildPlan | pkg/tuning/plan.go:78-320 | with mutable pools and arbitrary map order, returns exactly the plan, hints included, or the refusal of the order-free specification PlanOf |
| Planner.ResolveExclusives | pkg/tuning/plan.go:102-132 | succeeds exactly when the fixed regions lie in the isolated pool and are pairwise disjoint; whatever the order of the names, the workload pool left is isolated minus the union of the exclusive overrides |
| Planner.MeetsTaken | pkg/tuning/plan.go:123-127 | true exactly when some region already taken shares a CPU |
| Planner.ChooseCPUs | pkg/tuning/plan.go:168-231 | the switch on the class gives the cpuset and the remaining window that demand and window determine, or the refusal |
| Planner.CarveWorkers | pkg/tuning/plan.go:145-240 | after every pass the free list is the contiguous window of the workload pool; the rows are those of the specification, or the first refusal |
| Planner.PlaceVictim | pkg/tuning/plan.go:254-299 | the victim has its own CPUs, or the last four isolated CPUs that no row uses, or no room |
| Planner.UsedCPUs | pkg/tuning/plan.go:281-284 | the CPUs of at least one row |
| Planner.CheckExclusive | pkg/tuning/plan.go:304-317 | true exactly when no exclusive row shares a CPU with any other row |
| RowLaws.ProcessRow | pkg/tuning/plan.go:148-166 | a process's row has its component, replica ID and, from its entry in the component map or from the default, its class, memory limit, priority and GOMAXPROCS; it is exclusive exactly for the exclusive class |
| RowLaws.ProcessCPUs | pkg/tuning/plan.go:168-231 | class, override text and ideal threads decide the cpuset: the reserved pool, the parsed override, a slice of as many workload CPUs as threads are asked for, or the whole workload pool |
| RowLaws.SyntheticRows | pkg/tuning/plan.go:245-300 | the observer's row, and the victim's, whose class and priority come from its entry |
| RowLaws.PlanHead | pkg/tuning/plan.go:82-97 | the plan's pools are the parsed texts, its hints those of the profile, and interrupts are banned from the isolated pool exactly when balancing is disabled |
| RowLaws.RegionsFitIff | pkg/tuning/plan.go:107-131 | the planner's first step accepts exactly the component maps whose exclusive overrides are isolated and pairwise disjoint |
| RowLaws.WorkloadIs | pkg/tuning/plan.go:109-132 | a plan's workload pool is its isolated pool without the exclusive overrides of the component map |
| PlanFacts.PlanRows | pkg/tuning/plan.go:148-300 | the rows of a plan are the processes in order, each carved from the window its predecessors left, then the observer, then the victim |
| PlanFacts.WindowsNest | pkg/tuning/plan.go:145-222 | the free window only shrinks |
| PlanFacts.CarvedCPUs | pkg/tuning/plan.go:166-222 | a carved process that did not fall back runs on exactly what its window lost, with its ideal threads, at least one, as width, unless the front ran out |
| PlanFacts.SlicesOfProcesses | pkg/tuning/plan.go:148-240 | no CPU is carved twice |
| PlanFacts.Conservation | pkg/tuning/plan.go:145-222 | before every process, the front slices, the free window and the tail slices, concatenated, are the workload pool |
| Isolation.ProtectedVictimIsolated | pkg/tuning/plan.go:254-317 | in every successful plan with a victim that is exclusive or has no CPUs of its own, the victim has CPUs, all isolated, none reserved, none in another row's cpuset |
| Isolation.IsolationIff | pkg/tuning/plan.go:263-317 | for any set of barred names: in all plans of a profile for process lists that avoid them, or for flattened topologies that do, the victim's CPUs are isolated and in no other row's cpuset exactly when the victim is protected, or its own CPUs are isolated and out of reach of every non-exclusive class that an unbarred name can have |
| Isolation.ExposedVictimHit | pkg/tuning/plan.go:263-275 | for an unprotected victim and any exposed CPU of its own there is a process list that avoids the barred names, with replica IDs as flattening gives them, whose plan succeeds and has the CPU in another row or in the reserved pool |
| Isolation.UnexposedVictimIsolated | pkg/tuning/plan.go:254-317 | an unprotected victim whose CPUs no non-exclusive process with an unbarred name can reach is isolated in every plan that avoids the barred names |
| Isolation.DefaultedVictim | pkg/tuning/plan.go:276-294 | a defaulted victim gets four isolated CPUs that no row uses |
| Isolation.VictimHasCPUs | pkg/tuning/plan.go:276-299 | the victim's cpuset is never empty, protected or not |
| PlanLaws.CarvedExclusiveRulesOut | pkg/tuning/plan.go:177-231 | a plan with an implicitly carved exclusive process has no best-effort process and none that fell back to the whole pool |
| PlanLaws.FixedComponentOnce | pkg/tuning/plan.go:178-179 | in a plan, a component with exclusive CPUs of its own has at most one replica |
| PlanLaws.DefaultedBesideWholePool | pkg/tuning/plan.go:276-294 | a defaulted victim beside a process with the whole pool runs only in exclusive regions of components absent from the topology |
| Witnesses.DefaultedVictimInWorkload | pkg/tuning/plan.go:132 | a valid profile and a successful plan whose workload pool contains the victim's CPUs |
| Witnesses.BurstableVictimHit | pkg/tuning/plan.go:264-269 | a valid profile with a burstable victim on 4-7, planned with one burstable etcd process, which gets CPU 4 as well |
| Witnesses.BurstableVictimSpared | pkg/tuning/plan.go:264-269 | with reserved as default class, the same victim is unexposed once its own name is barred, and exposed to a namesake |
| Witnesses.IsolatedNotShielded | pkg/tuning/plan.go:196-207 | a valid profile and a successful plan that puts the victim's CPUs in no other cpuset and leaves a process unconfined |
| PlanLaws.ExclusivesOnTop | pkg/tuning/plan.go:181-223 | in a plan, every implicitly carved exclusive process runs on higher CPUs than every carved shared or burstable one |
| PlanLaws.CarvedInOrder | pkg/tuning/plan.go:145-223 | carving follows the topology's order: upwards for shared and burstable processes, downwards for exclusive ones |
| PlanLaws.NoOvercommit | pkg/tuning/plan.go:304-317 | the exclusive cpusets are pairwise disjoint parts of isolated, so their widths sum to at most its size |
| PlanLaws.GomaxprocsIsWidth | pkg/tuning/plan.go:236-238 | GOMAXPROCS is the component's override when positive, else the width of the cpuset; observer and victim always have the width |
| PlanLaws.EmptyCpusetIff | pkg/tuning/plan.go:196-231 | a process of a plan gets no CPU exactly when its override parses to nothing or it draws on an empty workload pool |
| Confinement.ShieldedIff | pkg/tuning/applier_cgroup.go:116-120 | a plan keeps every other process off the victim's CPUs, a process with an empty cpuset running anywhere, exactly when it isolates the victim and leaves no process without CPUs |
| Confinement.ProtectedShieldedIff | pkg/tuning/applier_systemd.go:71-73 | for a protected victim that is exactly when no process draws on an empty pool or override |
| Confinement.PlannableIff | pkg/tuning/plan.go:78-320 | some run can be planned exactly when the profile is valid, its regions fit and a defaulted victim has four isolated CPUs |
| Confinement.ShieldIff | pkg/tuning/applier_taskset.go:54-56 | no run of a profile that avoids the barred names lets a process execute on the victim's CPUs exactly when the profile has no plan, or the victim is protected or unexposed and neither an override nor the workload pool can leave an unbarred process without CPUs; the same over flattened topologies |
| Victim.RunIsolatedIff | pkg/tuning/plan.go:254-317 | a planned run isolates its victim exactly when the victim is defaulted, or its own CPUs are isolated and no process claims one of them |
| Victim.RunShieldedIff | pkg/tuning/applier_cgroup.go:116-120 | no other process of a planned run can execute on the victim's CPUs exactly when the run isolates it and leaves no process without CPUs |
| Victim.VictimOutsideWorkloadIff | pkg/tuning/plan.go:51 | the workload pool of a plan leaves out the victim's CPUs exactly when, for a defaulted victim, every unclaimed workload CPU has four unclaimed isolated CPUs above it, and, for any other, its own CPUs are all reserved or in fixed regions |
| Victim.FixedVictimOutsideWorkload | pkg/tuning/plan.go:109-138 | so a victim with exclusive CPUs of its own is always left out |
| Success.NeverRefused | pkg/tuning/plan.go:229-231 | the planner's unknown-class branch is unreachable after validation |
| Success.WindowFormula | pkg/tuning/plan.go:145-222 | the free window is the pool without the widths asked for from its two ends |
| Success.CarveIff | pkg/tuning/plan.go:185-188 | carving succeeds exactly when every exclusive slice fits beside all widths asked for before it |
| Success.ClaimIsRow | pkg/tuning/plan.go:172-228 | every process gets the CPUs that demand and widths alone determine, and falls back exactly when the widths before it exhaust the pool |
| Success.PairIff | pkg/tuning/plan.go:304-317 | an exclusive process and another one pass the check exactly when they do not clash |
| Success.VictimIff | pkg/tuning/plan.go:276-317 | the victim is placed and apart exactly when enough isolated CPUs are unclaimed, or no process touches its own |
| Success.PlanIff | pkg/tuning/plan.go:78-320 | BuildPlan succeeds exactly on the feasible runs: profile valid, regions apart, exclusive slices within the pool, no clash between claims, the victim fitting beside them |
| Completeness.CarveSucceeds | pkg/tuning/plan.go:148-240 | carving succeeds and leaves exactly the pool minus the requested widths free when these fit |
| Completeness.PlanExists | pkg/tuning/plan.go:108-320 | a run that fits by its total width alone is never refused, and every carved process gets as many CPUs as its ideal threads, at least one |
| Verify.VerifyPID | pkg/tuning/verify.go:31-73 | the verdict, with its detail, follows from the first affinity line of the status file |
| Verify.StatusJudged | pkg/tuning/verify.go:46-69 | of a status file with a list line, whatever lines stand around it, the verifier reads exactly the CPUs of the first such line, and passes the process exactly when all of them are planned |
| Verify.VerifyAll | pkg/tuning/verify.go:78-92 | one verdict, in row order, for every row whose key has a pid |
| Verify.NoneFailedIff | pkg/tuning/verify.go:31-119 | no verdict fails exactly when every row with a pid has a status file that cannot be read or that reports an affinity inside its planned CPUs |
| Verify.AnyFailed | pkg/tuning/verify.go:112-119 | true exactly when some verdict failed |
| Identity.FindAssignment | pkg/tuning/plan.go:325-336 | the first row for component and replica ID, an empty ID matching any; none exactly when no row matches |
| Identity.ProcessFindsItsRow | pkg/tuning/plan.go:325-336 | in a plan for a flattened topology every process finds the row that was built for it |
| Identity.ObserverFindsItsRowIff | pkg/tuning/plan.go:325-336 | the observer finds its own row exactly when no process of the topology bears its name |
| Identity.VictimFindsItsRowIff | cmd/chaos-launcher/main.go:364 | the victim finds its own row exactly when no process of the topology bears its name |
| Identity.KeysDistinct | pkg/tuning/verify.go:80-84 | verification keys never collide, among processes or with the synthetic names |
| Identity.WorkerKey | cmd/chaos-launcher/main.go:192-193 | stripping the name slot gives back the replica ID, whatever characters it has |
| Identity.KeyOnlyOfSlots | cmd/chaos-launcher/main.go:191-198 | a verification key comes from a worker slot, the victim or the observer, and from no other name |
| Identity.BuildPids | cmd/chaos-launcher/main.go:184-199 | maps the key of every started process to its pid, the last one deciding |
| Identity.RowMeetsItsProcess | cmd/chaos-launcher/main.go:174-199 | every row is verified against the process started for it, if it started, and against no other |
| UnitNames.SanitiseUnit | pkg/tuning/applier_systemd.go:110-122 | byte by byte, everything outside the clean characters becomes an underscore |
| UnitNames.UnchangedIff | pkg/tuning/applier_systemd.go:110-122 | a name is left as it is exactly when it is over letters, digits, dash and underscore |
| UnitNames.ReplacedBytes | pkg/tuning/applier_systemd.go:112-119 | characters of one to four bytes give as many underscores |
| UnitNames.CleanUnits | pkg/tuning/applier_systemd.go:103-108 | the scope of a clean component's replica, and its directory in the slice, as written |
| UnitNames.WorkerUnitsEqualIff | pkg/tuning/applier_systemd.go:103-108 | two workers share a scope name exactly when their components sanitise alike and their indexes agree |
| UnitNames.WorkerUnitNotSynthetic | pkg/tuning/applier_systemd.go:103-108 | a worker's scope is never the victim's or the observer's |
| UnitNames.UnitsDistinctIff | pkg/tuning/applier_cgroup.go:104-106 | the rows of a plan for a flattened topology have distinct scopes and cgroup directories exactly when no two component names sanitise alike |
| Witnesses.DottedNameShares | pkg/tuning/applier_systemd.go:103-122 | a plan for components a.b and a_b in which two rows share a scope and a cgroup directory |
| UnitNames.CleanNamesApart | pkg/tuning/applier_systemd.go:110-122 | component names over letters, digits, dash and underscore never collide |
| ProcessTree.FindInnerChaosPID | cmd/chaos-launcher/main.go:564-581 | returns a matching descendant of minimal depth, or the parent when none matches, and ends |
| ProcessTree.SearchEndsIff | cmd/chaos-launcher/main.go:566-580 | the level loop ends exactly when a descendant matches or the parent is not its own descendant |
| ProcessTree.LevelsEnd | cmd/chaos-launcher/main.go:566-580 | without a cycle through the parent there are no more levels than processes |
| ProcessTree.NextLevel | cmd/chaos-launcher/main.go:567-579 | one pass finds a match one level deeper, or collects exactly that level |
| ProcessTree.DeepestIff | cmd/chaos-launcher/main.go:205-206 | what the search returns is the deepest match exactly when all matching descendants are at one depth, with or without cycles in the table |
| ProcessTree.ShallowNotDeep | cmd/chaos-launcher/main.go:205-206 | a table without cycles for which the search can return only a process that is not the deepest match |
| ShellQuote.QuoteArg | pkg/tuning/applier_cgroup.go:168-182 | the argument in single quotes, every quote inside closed, escaped and reopened |
| ShellQuote.LexQuote | pkg/tuning/applier_cgroup.go:168-182 | the shell reads any quoted text back as exactly its characters, all literal |
| ShellQuote.LexArgsOnly | pkg/tuning/applier_cgroup.go:149-151 | the shell reads the joined arguments back as exactly the original list, empty arguments, quotes, spaces and newlines included |
| ShellQuote.BuildPrelude | pkg/tuning/applier_cgroup.go:108-151 | the script for path, arguments and priority; refused without path or arguments |
| ShellQuote.ShellRunsTheCommand | pkg/tuning/applier_cgroup.go:137-151 | the shell reads the script as: print its pid into the cgroup's process file, then exec the command, under chrt when a priority is set, with exactly the given arguments |
| JsonlWriter.Writer.constructor | pkg/output/jsonl.go:35-48 | an open writer with an empty queue of the given capacity |
| JsonlWriter.Writer.Emit | pkg/output/jsonl.go:51-60 | nothing after close; otherwise the event is taken or queued, or the drop counter grows by one |
| JsonlWriter.Writer.RunOnce | pkg/output/jsonl.go:85-87 | one turn of the flusher keeps the accepted events and their order |
| JsonlWriter.Writer.Close | pkg/output/jsonl.go:64-79 | everything accepted is encoded in order, the count returned is the drop counter whatever becomes of the file, the error is the first of flushing, syncing and closing, and a second call changes nothing and has none |
| JsonlWriter.Conservation | pkg/output/jsonl.go:51-88 | in every interleaving, events offered are written, in hand, queued, dropped or in an Emit in progress, and the file holds a prefix of the accepted ones in acceptance order |
| JsonlWriter.DropsOnlyWhenFull | pkg/output/jsonl.go:55-59 | an event is dropped only by a send that finds the queue full, and is counted once |
| JsonlWriter.EmitIsCheckThenSend | pkg/output/jsonl.go:51-60 | the check and the send of an uninterrupted Emit leave what the method leaves, the event accepted last or lost last |
| JsonlWriter.FlushWritesOldest | pkg/output/jsonl.go:85-87 | a receive and its encoding write the oldest queued event behind the earlier ones |
| JsonlWriter.CloseIsExact | pkg/output/jsonl.go:64-79 | when no Emit overlaps Close, the file is exactly the accepted events, the drop count is exact and nothing panics |
| JsonlWriter.PanicIff | pkg/output/jsonl.go:51-68 | with the channel closed, some run sends on it exactly when an Emit is in progress |
| JsonlWriter.LateSendPanics | pkg/output/jsonl.go:51-68 | an Emit that finds the writer open and sends after Close has closed the channel panics |
| JsonlWriter.QuietStays | pkg/output/jsonl.go:51-67 | after a quiet close nothing is offered, accepted or dropped any more |
| Sync.WorkerRegisters | pkg/sync/sync.go:75-90 | the line a worker sends is accepted and carries its pid |
| Sync.RegistrationIff | pkg/sync/sync.go:81-90 | a line registers a pid exactly when, trimmed, it is the keyword, a blank and that number |
| Sync.ReadTakesOne | pkg/sync/sync.go:165-185 | the reader takes one message: a RECONCILE is queued while one of 16 slots is free and dropped only when none is, BYE stops it |
| Sync.ConsumeTakesOne | cmd/chaos-worker/main.go:379-397 | the worker takes one signal and opens one burst, where the profile has bursts |
| Sync.WritesCounted | pkg/sync/sync.go:114-129 | in every run, the RECONCILEs a connection has received are exactly the Trigger writes that landed on it |
| Sync.BurstsBracketed | cmd/chaos-worker/main.go:393-428 | in every run, a worker's events alternate between start and end, one pair for each signal taken |
| Sync.InvStep | pkg/sync/sync.go:74-188 | every atomic step of server, readers and workers keeps the protocol's invariant |
| Sync.SyncSafety | pkg/sync/sync.go:74-188 | in every run and on every connection: signals queued, consumed and dropped as full plus those in flight are the RECONCILEs that landed, at most the writes attempted, at most the Trigger calls that saw it registered; the channel never exceeds 16, and a signal is dropped only after more than 16 have been read; only well-formed registrations become clients; every signal consumed is one start/end bracket |
| Sync.SignalsBeforeBye | pkg/sync/sync.go:161-185 | all signals of a connection come from messages before its first BYE, and reading BYE stops the reader |
| Sync.NothingAfterBye | pkg/sync/sync.go:161-185 | once BYE is read nothing more is queued or dropped there, also when a racing Trigger wrote behind it |
| Sync.ClientStaysIff | pkg/sync/sync.go:96-145 | in every run a client stays one exactly until its own connection drops or the server is closed, and does not come back; no Trigger write removes anybody |
| Sync.CrashIff | pkg/sync/sync.go:91-145 | after Close the server can still write to its nil map exactly when it still listens or a connection can still deliver a registration |
| Sync.LateRegisterCrashes | pkg/sync/sync.go:91-138 | a worker that dials in before Close and registers after it crashes the server |
| SyncServer.Server.constructor | pkg/sync/sync.go:47-59 | a listening server without clients |
| SyncServer.Server.ServeClient | pkg/sync/sync.go:74-93 | registers the pid of a well-formed first line, closes the connection on any other, and crashes on a registration after Close |
| SyncServer.Server.Trigger | pkg/sync/sync.go:114-129 | exactly the clients whose write lands have one RECONCILE more behind everything sent before, nobody else has received anything, their number is returned, no client is removed, and the call is a run of the atomic steps |
| SyncServer.Server.Close | pkg/sync/sync.go:132-145 | every client that can take it has a BYE behind everything sent before, all clients are closed and forgotten, nobody can dial in, the invariant is kept, the first call is a run of the atomic steps and a further one changes no connection |
| EndToEnd.RowsSurviveText | pkg/tuning/applier_cgroup.go:116-118 | every cpuset of a plan, printed and parsed again, is itself |
| EndToEnd.VictimPinsToPlan | cmd/chaos-launcher/main.go:349-359 | the pinning text is never empty, and the victim reads from it exactly the CPUs of its row |
| EndToEnd.AppliedAsPlanned | cmd/chaos-launcher/main.go:331-369 | without a process named like the victim or the observer, every process of the run is wrapped with its own row |
| EndToEnd.LaunchShieldedIff | cmd/chaos-launcher/main.go:174-178 | then, for the rows actually applied: no other process can execute on the victim's CPUs exactly when the run's input isolates the victim and leaves no process without CPUs |
| EndToEnd.ObservedIsolation | pkg/tuning/verify.go:58-68 | when a plan isolates its victim and verification reports no failure, the affinity observed of the victim and of any other inspected process have no CPU in common |

## Left out

- EndToEnd.ObservedIsolation: speaks of processes whose status files were readable, because an unreadable one passes verification; the map from a wrapper's pid to its inner program's is a parameter, since the process table may change between two searches.
- ProcessTree.FindInnerChaosPID: called only where the loop ends, which ProcessTree.SearchEndsIff characterises exactly; reading and tokenising the files under /proc is input/output, and the table is a parameter.
- Affinity.AffinityText: takes the mask as a parameter of any length; the system call that fills it, and its failure, are not modelled.
- CPULists.ParseCPUList: Atoi's 64-bit range error is modelled, the wrap-around of the range loop's counter at the largest integer is not.
- Profile.Validate: the error texts, and the order among the entries of the component map, which the source leaves to map iteration, are left open; reading the YAML is not modelled.
- Planner.BuildPlan: names are visited in an arbitrary order instead of the sorted one, the result being the same; an error keeps its stage and component but not its text, and a row its cpuset, class and limits but not its human-readable source or its constant NUMA node.
- JsonlWriter.Writer.Close: how flushing, syncing and closing the file go is a parameter; JSON encoding, what a failed flush leaves in the file, and the wrap-around of the 64-bit drop counter are not modelled.
- ShellQuote.ShellRunsTheCommand: covers token recognition up to the words and the redirection; double quotes, expansions other than the pid's, comments and further operators do not occur in the script and the lexer has no result for them. Writing the cgroup files is input/output.
- UnitNames.SanitiseUnit: strings are sequences of characters, so texts that are not valid UTF-8 are not modelled; a character that is replaced yields one underscore for each of its bytes.
- Sync.SyncSafety: a write is one atomic message that lands or fails; write deadlines, partial writes and timers are not modelled, nor are lines other than RECONCILE and BYE from the server, or the ticking of drift mode.
- SyncServer.Server.Trigger: the methods of the class run without interruption, and which writes land is a parameter; their interleavings are the subject of module Sync.
- The launcher's `terminate`: its one timer is shared by all waiters, so that every hung child is killed is not a theorem of this code.
- The workload generators, the observer's percentages, histograms and the aggregator: floating-point or library code.
- The environment of wrapped commands, run-configuration defaults, command-line flags and manifests: small members without interaction with the above.
- The systemd backend's argument list and the cgroup backend's host preparation: input/output around the names and texts proved here.
