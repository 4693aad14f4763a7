# bootkube: a verified model

bootkube brings up a self-hosted Kubernetes control plane, and its pod checkpointer keeps the control
plane's pods runnable when the API server is away. This project models the parts of bootkube that keep
state or compute something, in Dafny, and proves what they promise. `dafny verify dfyconfig.toml` checks
all of it.

## What is modelled

**The pod checkpointer** (`pkg/checkpoint`). Every few seconds it compares what the API server, the
kubelet and the container runtime report, none of them reliable, with its memory and with the manifests
on disk, and starts, stops or removes checkpoints of pods.

- `CheckpointState`: the seven-state machine of one checkpoint, with its grace deadlines.
- `Checkpoints`: the map of checkpoints as an object with `Update` and `Process`; map traversals pick keys
  in any order. `Updated` and `Processed` say by name what those loops amount to.
- `Kubernetes`, `Pods`: the API objects, names, paths, and the sanitizing of a pod into a manifest.
- `Disk`, `DiskEffects`: the manifest and data directories and the operations on them.
- `Checkpointer`, `Storage`, `Loop`: the handlers, the storing of secrets and config maps, and the endless
  loop. The loop is proved to produce runs in the sense of the next module.
- `Runs`: a run is any sequence of iterations and crashes. Each iteration has an arbitrary observation,
  an arbitrary traversal order and an arbitrary set of failing operations, and may leave temporary files
  behind; a crash comes after any number of the iteration's disk operations and loses the memory.
- `Agreement`, `GracePeriod`, `Causes`, `Collection`, `Availability`, `CrashSafety`: theorems about all runs.

**Service addresses** (`cmd/render/plugin/default`). `Addresses`: the byte-wise increment, the offset
addresses, and the overlap test on network blocks (section 3.1 of RFC 4632, section 2.3 of RFC 4291).

**Bootstrap and recovery.** `Creater`: ordered creation of manifests. `ResourceMapper`: the discovery cache
under interleaved callers. `Bootstrap`: Start and Teardown of the temporary control plane. `Recovery`: the
rewriting of recovered pods, and that it fits what Start copies.

## Results that differ from the documentation

- The comment at pkg/checkpoint/process.go:141 says that checkpoints stopped along with the checkpointer
  may restart in the next cycle. What was active never does: its state still says start, and a start is
  listed only on a change of action (`Availability.NeverStartedAgain`, for every observation). In every
  run it stays off the disk for as long as its state says start (`Availability.DownStaysDown`), so that a
  pod that does not run is down for a whole outage (`Availability.DownThroughOutage`), until an iteration
  gives it another action or the checkpointer restarts.
- A checkpointer whose own entry is once reported absent and then present again, while it runs, becomes
  inactive (`Availability.SelfBecomesStuck`; `Availability.SelfStopsExactly` and
  `Availability.NeverAbsentNeverStops` say when it stops and when never). From then on it stops everything for as long as it runs
  (`Availability.StoppedCheckpointerFreezes`).
- After such a stop the memory can say "started" for checkpoints that are not on disk.
  `Availability.SelfStopEmptiesActive` says exactly when, in terms of the memory before the decision.
  Theorems that need the full agreement of disk and memory therefore ask that the checkpointer's own
  checkpoint does not take the action stop.
- A failed start or stop is not repeated while the action stays the same. `Agreement.AgreementReturns` says
  exactly when disk and memory agree again after failures.
- A crash within a removal can leave a checkpoint that is only active. If writing its manifest then fails,
  a stop deletes the last copy although the parent is present (`Causes.VanishingStep`).
  `Causes.KeptExactly` says exactly when, and `Causes.VanishesByRemoval` that a failing write is needed.
- Data that could not be stored is not tried again while the manifest is in place, until the next data
  check is due (`Checkpointer.CheckpointPod`).
- Manifest files are named by replacing the slash of a full name, so `a-b/c` and `a/b-c` collide
  (`Pods.CollidingNames`). `Pods.ManifestFileCollision` says exactly when two names do; run theorems that
  depend on it ask for distinct files.
- A restart forgets running deadlines (`GracePeriod.NoEarlyRemoval` says no deadline outlives a crash), so
  `Collection.RemovedInTime` counts the grace period from an absence after which there was no crash.
- A Start on top of an earlier one disowns the earlier one's manifests, which no later Teardown then
  removes, exactly if it gets as far as copying manifests: `Bootstrap.SecondStartDisowns`.
- The error messages at cmd/render/plugin/default/main.go:160 and :164 ask for networks of different
  address families, which nothing checks: the same blocks given twice are accepted
  (`Addresses.SameFamilyAccepted`). `Addresses.TwoServiceBlocks` says exactly when two service blocks share
  addresses.
- cmd/checkpoint/README.md:61 says that labels are removed from a checkpointed pod. The code keeps them
  (pkg/checkpoint/pod.go:40-44): `Pods.SanitizingRoundTrip`.
- The comment above `copyFile` (pkg/bootkube/bootstrap.go:66-67) has the meaning of `overwrite` reversed.
  The model follows the code. Overwriting also does not cut off a longer old file, so the kubeconfig that
  Start copies can end up mixed with one from the secrets: `Bootstrap.KubeconfigArrives` and
  `Bootstrap.SecretsArrive` say exactly when each arrives whole, `Bootstrap.LongerKubeconfig` shows a case.

## Model

| member | source | states |
|---|---|---|
| `CheckpointState.TransitionActions` | pkg/checkpoint/state.go:72-339 | for every state, clock and observation, exactly when a step ends in no action, in start and in removal, in terms of the observation and the governing deadline |
| `CheckpointState.NextByObservation` | pkg/checkpoint/state.go:72-339 | the next state of every machine, by what is observed: the parent reported, the API server away, or the parent absent |
| `CheckpointState.DormantStays` | pkg/checkpoint/state.go:105-111 | a new pod that nothing local knows, and a removed one, stay what they are |
| `CheckpointState.KeepsDeadline` | pkg/checkpoint/state.go:178-310 | a grace period goes on with its deadline exactly while the clock is before it, the parent is not reported and the pod's running does not change the action |
| `CheckpointState.DeadlineOrigin` | pkg/checkpoint/state.go:131-310 | a deadline is one grace period after an absent parent, or an earlier one kept while the parent is not reported |
| `CheckpointState.RemovalOrigin` | pkg/checkpoint/state.go:178-310 | a removal needs a deadline that has passed, and the API server not reporting the parent |
| `CheckpointState.AbsentParentStep` | pkg/checkpoint/state.go:72-310 | with the parent absent, a machine removes at its deadline and until then keeps it |
| `CheckpointState.NoOscillation` | pkg/checkpoint/state.go:72-333 | under a constant observation and any clock, a run of any length changes state at most twice and never returns to an action it has left |
| `Pods.CheckpointerByName` | pkg/checkpoint/pod.go:94-99 | a pod is the checkpointer exactly if it has the checkpointer's full name |
| `Pods.CheckpointerName` | pkg/checkpoint/pod.go:94-99 | the checkpointer's own name is its pod's name without the node's at the end, if it is there |
| `Pods.ParentMeaning` | pkg/checkpoint/pod.go:139-154 | exactly which annotations make a pod a parent and a checkpoint |
| `Pods.PodListToMap` | pkg/checkpoint/pod.go:111-135 | the map of a pod list under a filter |
| `Pods.PodMapKeyed` | pkg/checkpoint/pod.go:111-135 | the map has exactly the full names of pods that pass the filter, each for a pod of that name |
| `Pods.LastListedWins` | pkg/checkpoint/pod.go:111-135 | of several pods of one name the last that passes the filter is kept, as it is but for its type |
| `Pods.ManifestFileOfPod` | pkg/checkpoint/manifest.go:60-69 | the two spellings of a manifest's file name agree, and it is never taken for a temporary file |
| `Pods.ManifestFileCollision` | pkg/checkpoint/pod.go:156-166 | exactly when two pods share a manifest file; never within a namespace or between namespaces without a dash |
| `Pods.CollidingNames` | pkg/checkpoint/pod.go:160-166 | two different full names with one manifest file |
| `Pods.DataPaths` | pkg/checkpoint/secret.go:62-69 | where an object's data is stored, and that removal deletes the directory above it, as absolute paths |
| `Pods.SanitizeCheckpointPod` | pkg/checkpoint/pod.go:31-92 | the in-place edits amount to `Sanitized` |
| `Pods.SanitizedFields` | pkg/checkpoint/pod.go:40-71 | a sanitized parent field by field: containers, host network, security context, labels and names are the parent's; service accounts, affinity, node selector, uid, status and other annotations are empty; the one owner is the parent, and the one annotation names it |
| `Pods.SanitizedVolumeFields` | pkg/checkpoint/pod.go:73-85 | what becomes of each volume; one without secret and config map is unchanged |
| `Pods.CheckpointUnchanged` | pkg/checkpoint/pod.go:34-37 | a checkpoint that was read back is stored as it is |
| `Pods.SanitizingRoundTrip` | pkg/checkpoint/pod.go:31-154 | a sanitized parent keeps its full name and its labels, is read back as a checkpoint and never as a parent, and sanitizes to itself; it has no remote volume exactly if no volume had two remote sources |
| `Pods.SanitizedHostPaths` | pkg/checkpoint/pod.go:73-85 | each rewritten volume lies in a directory that removing this pod deletes and removing no other pod does |
| `Pods.PodUserAndGroup` | pkg/checkpoint/pod.go:176-210 | succeeds exactly if all user ids named in the pod agree, with that id or root, and the pod's group or root |
| `Pods.UsersMeaning` | pkg/checkpoint/pod.go:176-198 | the users of a pod are its own and those of its containers |
| `Disk.GetFileCheckpoints` | pkg/checkpoint/manifest.go:17-57 | finds exactly the names of readable checkpoints, each with a pod from a file of that name, and deletes exactly the temporary files whose deletion does not fail |
| `Disk.FoundUnique` | pkg/checkpoint/manifest.go:17-57 | where files lie in their places the result does not depend on the order of reading |
| `Disk.WriteAndAtomicRename` | pkg/checkpoint/manifest.go:84-103 | whichever step fails, the file has its old or its complete new content, and only the temporary file can be left |
| `DiskEffects.CreateEffect` | pkg/checkpoint/process.go:217-231 | the manifests written amount to one sanitized manifest for each listed pod and leave all other files |
| `DiskEffects.StopEffect` | pkg/checkpoint/process.go:303-315 | a list of stops deletes exactly its active manifests |
| `DiskEffects.StartEffect` | pkg/checkpoint/process.go:317-331 | a list of starts copies exactly the listed inactive manifests that exist |
| `DiskEffects.RemoveEffect` | pkg/checkpoint/process.go:262-301 | a list of removals deletes exactly its manifests and data directories |
| `Checkpoints.UpdatedByName` | pkg/checkpoint/process.go:37-113 | after an update a name is tracked exactly if memory, disk or a parent knows it; its state comes from memory, then the disk; its pod from the API server, then the kubelet, memory and the disk |
| `Checkpoints.UpdateSources` | pkg/checkpoint/process.go:37-113 | where the update of a name takes the pod from: the API server, else the kubelet, else the memory, else the active and else the inactive directory; and the state: the memory, else the directory |
| `Checkpoints.UpdateSteps` | pkg/checkpoint/process.go:37-113 | the update's loops, in any traversal order, amount to that update by name |
| `Checkpoints.UpdatedRepOk` | pkg/checkpoint/process.go:37-113 | an update keeps the representation invariant: keys are names are full names, the checkpointer's own entry is outside the map, no terminal state is kept |
| `Checkpoints.ProcessedRepOk` | pkg/checkpoint/process.go:117-203 | so does processing |
| `Checkpoints.DecisionMeaning` | pkg/checkpoint/process.go:170-200 | with the checkpointer's own checkpoint absent or active, exactly when a name is in the start, the stop and the remove list, in terms of its old state and of which sources list it |
| `Checkpoints.DecisionFollows` | pkg/checkpoint/process.go:117-203 | for every self action, which list a tracked name is on and which state it keeps, in terms of its old and its next state |
| `Checkpoints.DecisionDisjoint` | pkg/checkpoint/process.go:117-203 | the three lists are disjoint, name only what is tracked, and exactly the removed names are no longer tracked |
| `Checkpoints.PlansAgree` | pkg/checkpoint/process.go:117-203 | whatever the traversal order, the lists have the same elements, and the sorted ones are equal |
| `Checkpoints.CheckpointMap.Update` | pkg/checkpoint/process.go:37-113 | the object's new value is the update by name, and the invariant holds |
| `Checkpoints.CheckpointMap.Process` | pkg/checkpoint/process.go:117-203 | the new value and the lists, duplicate-free and in the promised order, are those of the decision; the unexpected actions are unreachable |
| `Checkpointer.FileSystem.HandleStop` | pkg/checkpoint/process.go:303-315 | performs its list of operations but for the failing ones |
| `Checkpointer.FileSystem.HandleStart` | pkg/checkpoint/process.go:317-331 | performs its list of operations but for the failing ones |
| `Checkpointer.FileSystem.HandleRemove` | pkg/checkpoint/process.go:262-301 | performs its list of operations, keeping the active manifest where deleting the inactive one failed; a tree of data whose deletion fails or is cut off can be deleted in part |
| `Checkpointer.FileSystem.WriteCheckpointManifest` | pkg/checkpoint/manifest.go:60-103 | writes the inactive manifest exactly if what is there can be read and differs and the write is not lost, and reports whether it differed; it reports an error where what is there cannot be read, where the write is lost, and where the write took effect but its file could not be given to its owner |
| `Checkpointer.CheckpointVolumes` | pkg/checkpoint/secret.go:15-60 | on success the data of every secret, or config map, volume is stored in the pod's own directory; without failing writes or directories it succeeds exactly if the pod's users agree and every object is served |
| `Checkpointer.CheckpointPod` | pkg/checkpoint/process.go:217-250 | one pod's manifest is written before its data, also where the write then reports an error and no data follows; all data goes to the pod's own directories; without failures all of it is stored, if that is possible, exactly if the manifest was not in place or the data is due |
| `Checkpointer.StoredAtHostPath` | pkg/checkpoint/config_map.go:15-63 | what was stored for a volume is found at the host path of the sanitized volume |
| `Loop.Daemon.Parents` | pkg/checkpoint/process.go:209-218 | lists each tracked pod once |
| `Loop.Daemon.CreateCheckpointsForValidParents` | pkg/checkpoint/process.go:209-260 | one group of operations for each tracked pod, manifest first, data only of its own; data is due in the first pass and a minute after the last due one, and the time of the last due pass is kept; without failures the data of every tracked pod for which that is possible is then stored, if it was due or the manifest was not in place |
| `Loop.Daemon.Iteration` | pkg/checkpoint/checkpoint.go:110-145 | one pass of the loop is one event of a run, with the given observation, failures and temporary files; if nothing fails in it, the data of every tracked pod is stored afterwards as above |
| `Loop.Daemon.Loop` | pkg/checkpoint/checkpoint.go:104-146 | any number of passes is a run, and after a last pass without failures in which data is due, as in the first, the data of every tracked pod for which that is possible is at its place |
| `Loop.CheckedRecently` | pkg/checkpoint/process.go:220-259 | after any pass the last data check is less than a minute old |
| `Storage.HandlersKeep` | pkg/checkpoint/process.go:262-331 | the handlers keep what is stored of every pod that they do not remove |
| `Runs.StepFit` | pkg/checkpoint/checkpoint.go:110-145 | every event, with any failures and any crash, keeps the representation invariant and every manifest in its place |
| `Runs.RunFit` | pkg/checkpoint/checkpoint.go:110-145 | both hold in every world of every run |
| `Agreement.DiskAfter` | pkg/checkpoint/process.go:262-331 | for each name, exactly when its active and its inactive manifest are there after an iteration without failures |
| `Agreement.DiskMatchesMemory` | pkg/checkpoint/checkpoint.go:110-145 | after every iteration of every run without failing operations, and with any crashes before, the inactive checkpoints are exactly the tracked names and every active one is to be started; every one to be started is active if the checkpointer's own never stops |
| `Agreement.AgreementSinceRestart` | pkg/checkpoint/checkpoint.go:110-145 | the same from any loss of memory on, whatever failed before it |
| `Agreement.AgreementReturns` | pkg/checkpoint/process.go:117-203 | after one iteration without failures from any world, agreeing or not, the inactive checkpoints are the tracked names, and the active one of a name agrees with the memory exactly if it did after the update or the decision lists the name, and the checkpointer does not stop while the name is to be started |
| `Agreement.CrashKeepsDecisions` | pkg/checkpoint/process.go:37-113 | rebuilding the memory from disk after any iteration of such a run tracks the same names, gives the checkpointer its active state, keeps the action of all others, and turns only new names into inactive ones |
| `Agreement.LitterIsInvisible` | pkg/checkpoint/manifest.go:28-35 | temporary files left by a crash change nothing of what is read |
| `GracePeriod.NoEarlyRemoval` | pkg/checkpoint/state.go:72-310 | in every run, with failures and crashes, a removal at t is decided by a machine, the name's own or the checkpointer's, that was fed an absent parent at some t0 with t0 + G <= t, and since then neither a present parent nor a restart |
| `Causes.ManifestsHaveCauses` | pkg/checkpoint/process.go:262-331 | in every run, with any failures and crashes, a checkpoint is lost from the inactive directory only by being in the remove list, and appears or changes there only to the sanitized pod that is tracked; it becomes active or changes there only by being in the start list, and is lost there only by being in a list |
| `Causes.ManifestIsCurrent` | pkg/checkpoint/process.go:89-98 | after an iteration whose write does not fail, the inactive manifest of every tracked name that is not removed is the sanitized pod of the API server, else of the kubelet |
| `Causes.StartedIsCurrent` | pkg/checkpoint/process.go:317-331 | what is started is the tracked pod, sanitized, as written in the same iteration |
| `Causes.RemoveOneExactly` | pkg/checkpoint/process.go:262-301 | which operations a removal performs for each set of failing ones; the active manifest goes only after the inactive one |
| `Causes.RemoveOpsExactly` | pkg/checkpoint/process.go:262-301 | a list of removals performs those of every name on it |
| `Causes.OperationsInOrder` | pkg/checkpoint/checkpoint.go:132-144 | manifests and data are written before all else, and nothing is removed before the last start |
| `Causes.VanishesByRemoval` | pkg/checkpoint/process.go:209-331 | in every run, with any other failures and any crash, a checkpoint whose manifest write does not fail is lost from both directories only by being in the remove list |
| `Causes.KeptExactly` | pkg/checkpoint/process.go:209-331 | exactly when an iteration, with any failures, keeps a checkpoint that it does not remove in at least one directory |
| `Causes.VanishingStep` | pkg/checkpoint/process.go:225-229 | for every pod, a step in which its checkpoint, only active and with a failing write, vanishes although its parent is present and it is not removed |
| `Causes.NoEarlyDeletion` | pkg/checkpoint/state.go:72-310 | in every run, with any failures and crashes, a checkpoint is lost from the inactive directory, and if its manifest write does not fail from both directories, only after a full grace period of an absent parent |
| `Causes.DataStaysUntilRemoved` | pkg/checkpoint/process.go:262-276 | in every run, with any failures and crashes, a stored secret or config map file stays until its pod is in the remove list |
| `Collection.RemovedInTime` | pkg/checkpoint/state.go:178-310 | if from t0 on every iteration sees the parent absent and the checkpointer's own checkpoint does not stop, a tracked checkpoint is removed at the latest by the first iteration at or after t0 + G, also if it was already in a grace period |
| `Collection.DeadlineOutlastsOutage` | pkg/checkpoint/state.go:178-310 | in every run a deadline survives every iteration without the API server until it passes or the action changes |
| `Collection.RemovedDespiteOutages` | pkg/checkpoint/state.go:178-310 | with an API server that comes and goes, a checkpoint whose grace period the outages do not end is removed at the latest by the first absence at or after t0 + G |
| `Collection.DeletedInTime` | pkg/checkpoint/process.go:262-301 | and if nothing fails meanwhile it is then in neither directory |
| `Collection.DeadlineBound` | pkg/checkpoint/state.go:131-310 | with a nondecreasing clock no deadline of a run is more than a grace period ahead |
| `Availability.AvailableThroughOutage` | pkg/checkpoint/process.go:117-203 | if since the last loss of memory nothing failed and the checkpointer did not stop, then after any iteration without the API server every tracked checkpoint that does not run locally has its active manifest on disk and was not removed, but for a new one without a local parent |
| `Availability.SelfStopsExactly` | pkg/checkpoint/state.go:72-299 | a checkpointer that is to be started stops exactly if it has left its special state and runs here, the API server being down or reporting it; without an absent parent it does not leave that state |
| `Availability.NeverAbsentNeverStops` | pkg/checkpoint/process.go:117-149 | in a run in which no completed iteration sees the checkpointer's own parent absent, the checkpointer never stops |
| `Availability.SelfStopEmptiesActive` | pkg/checkpoint/process.go:140-149 | where the checkpointer stops itself nothing stays active, and disk and memory agree fully afterwards exactly if no other checkpoint had the action start before the decision |
| `Availability.NeverStartedAgain` | pkg/checkpoint/process.go:170-200 | whatever is observed, a name whose action is start already is not in the start list |
| `Availability.DownStaysDown` | pkg/checkpoint/process.go:140-149 | in every run, with any failures and crashes, a checkpoint that is to be started but not on disk stays off the disk for as long as it is to be started |
| `Availability.DownThroughOutage` | pkg/checkpoint/process.go:140-200 | without the API server, and with the pod not running and the checkpointer absent or active, such a checkpoint stays to be started and off the disk |
| `Availability.SelfBecomesStuck` | pkg/checkpoint/state.go:72-299 | a self-checkpoint fed an absent parent and then, within the grace period and running, a present one becomes inactive |
| `Availability.StoppedCheckpointerFreezes` | pkg/checkpoint/process.go:140-149 | as long as a stopped checkpointer is seen running and not absent, no state changes and, if nothing failed since the last loss of memory, nothing is active |
| `CrashSafety.SelfRemovalPlan` | pkg/checkpoint/process.go:150-163 | the remove list is everything with an action, sorted, the checkpointer last, and nothing else is started or stopped |
| `CrashSafety.LastOutlives` | pkg/checkpoint/process.go:262-301 | at every prefix of the removal's operations the last name's active manifest is there, or nothing of any listed name is |
| `CrashSafety.SelfRemovalInRun` | pkg/checkpoint/process.go:150-163 | the same for the removal as it occurs in a run, cut off anywhere, for manifests and stored data |
| `CrashSafety.NoOrphanedData` | pkg/checkpoint/process.go:209-301 | at every point of every run without failing operations, crashes between any two operations included, stored data belongs to a pod whose checkpoint a restart finds |
| `Addresses.IncIPv4` | cmd/render/plugin/default/main.go:339-346 | adds one to the big-endian value, modulo 256 to the length |
| `Addresses.IncrementAddsOne` | cmd/render/plugin/default/main.go:339-346 | the carry through trailing 255s is that addition |
| `Addresses.ContainsByValue` | cmd/render/plugin/default/main.go:167-173 | masked byte-wise membership in an aligned block is membership in the interval of its size from its base |
| `Addresses.OffsetServiceIP` | cmd/render/plugin/default/main.go:327-337 | for every offset, succeeds exactly if the offset, wrapped at the end of the address family, is less than the block's size, and then returns the base plus it; the block's own bytes are unchanged |
| `Addresses.OverlapTest` | cmd/render/plugin/default/main.go:167-173 | testing the two bases decides whether the blocks have any common address |
| `Addresses.FindOverlap` | cmd/render/plugin/default/main.go:167-173 | finds no pair exactly if every pod block is disjoint from every service block, and otherwise an overlapping pair |
| `Addresses.ServiceAddresses` | cmd/render/plugin/default/main.go:155-188 | accepts exactly one or two of each kind, equally many, disjoint, with room for the offsets; then the API and DNS addresses are distinct, at their offsets in their block and outside every pod block; each error names a network at fault |
| `Addresses.TwoServiceBlocks` | cmd/render/plugin/default/main.go:175-188 | two accepted service blocks have the same API address, and the same DNS address, exactly if they have the same base; the API address of one is never the DNS address of the other |
| `Addresses.SameFamilyAccepted` | cmd/render/plugin/default/main.go:155-173 | the same disjoint blocks given twice pass every check |
| `Creater.SortSlice` | pkg/bootkube/create.go:160-162 | a sorted permutation, with no promise about manifests of one file |
| `Creater.TraceOrdered` | pkg/bootkube/create.go:164-224 | namespaces come before definitions, these before the waits, these before the rest, and each segment is ordered by file |
| `Creater.TraceComplete` | pkg/bootkube/create.go:164-224 | each request is made as often as the given manifests call for: empty ones never, definitions created and waited for, all others created |
| `Creater.RequestOrder` | README.md:65-69 | the order of any two requests, in terms of kinds, versions and files |
| `Creater.RequestCount` | pkg/bootkube/create.go:164-224 | how often each manifest is created and waited for, in terms of kinds, versions and contents |
| `Strings.LeqMeaning` | pkg/bootkube/create.go:160-162 | the order of files is that of a dictionary |
| `Creater.OrderDetermined` | README.md:65-69 | if no two different manifests come from one file, order and contents determine the whole sequence of requests |
| `Creater.Creater.CreateManifests` | pkg/bootkube/create.go:155-226 | sends the trace of the sorted manifests, in strict mode up to and including the first failure and otherwise all of it, and answers whether every request sent succeeded |
| `Creater.StrictSafety` | pkg/bootkube/create.go:185-224 | a strict run creates an ordinary resource only after every namespace and definition was created and every definition waited for, all with success |
| `Creater.LenientRunsAll` | pkg/bootkube/create.go:185-224 | a lenient run makes every request, whatever fails |
| `ResourceMapper.Mapper.ResourceInfo` | pkg/bootkube/create.go:411-440 | an undisturbed call answers like discovery without a cache, and keeps the cache one of earlier lists |
| `ResourceMapper.FindFirst` | pkg/bootkube/create.go:418-424 | no entry before the one found has the kind |
| `ResourceMapper.UndisturbedCall` | pkg/bootkube/create.go:411-440 | the steps of a call without others in between do what an undisturbed call does |
| `ResourceMapper.StepKeepsInv` | pkg/bootkube/create.go:411-440 | under any interleaving the cache, every list in a caller's hands and every entry returned are earlier versions of what the server has |
| `ResourceMapper.CacheAgreesWithDiscovery` | pkg/bootkube/create.go:411-440 | in every interleaved run over a growing server, a call whose discovery does not fail gives the uncached answer of some moment between call and return, and a found entry is right at the return |
| `ResourceMapper.ServedKindIsFound` | pkg/bootkube/create.go:411-440 | a kind served when the call begins is found unless discovery fails |
| `Bootstrap.ControlPlane.CopyOne` | pkg/bootkube/bootstrap.go:68-88 | the effect of copying one file, for each place it can fail |
| `Bootstrap.CopyFileMeaning` | pkg/bootkube/bootstrap.go:68-88 | a copy succeeds exactly if nothing breaks, the target may be written and the source is there; what the target holds otherwise |
| `Bootstrap.RemoveAllMeaning` | pkg/bootkube/bootstrap.go:31-33 | what removing a tree leaves: all other files, and where it fails those it did not get to |
| `Bootstrap.ControlPlane.CopyDirectory` | pkg/bootkube/bootstrap.go:92-112 | copies the walk up to the first failure and returns the paths of the finished copies |
| `Bootstrap.CopySucceeds` | pkg/bootkube/bootstrap.go:92-112 | copying a directory succeeds exactly if nothing fails, where the sources are there and the targets may be written |
| `Bootstrap.ControlPlane.Start` | pkg/bootkube/bootstrap.go:28-48 | the files and the ownership after Start, for each place it can fail |
| `Bootstrap.ControlPlane.Teardown` | pkg/bootkube/bootstrap.go:52-64 | the files and the ownership after Teardown, for each place it can fail |
| `Bootstrap.ExclusiveCopy` | pkg/bootkube/bootstrap.go:92-112 | copying without overwriting keeps every file; what is new was reported as copied, but for at most one file of a failed copy |
| `Bootstrap.StartThenTeardown` | pkg/bootkube/bootstrap.go:28-64 | Start, wherever it fails, and then a successful Teardown keep every file outside the secrets directory, delete every finished copy, and leave at most one file, only if Start failed; after a successful Start exactly the former files are left |
| `Bootstrap.TeardownTwice` | pkg/bootkube/bootstrap.go:50-64 | a second Teardown changes nothing |
| `Bootstrap.TeardownRetried` | pkg/bootkube/bootstrap.go:52-64 | Teardown succeeds exactly if no removal fails, and only then gives up ownership; it deletes nothing but secrets and owned files; a failed Teardown and then a successful one leave what an immediate success leaves |
| `Bootstrap.SecondStartDisowns` | pkg/bootkube/bootstrap.go:28-64 | for any state, walk and failures, a manifest owned before another Start is disowned, and outlives the next successful Teardown, exactly if that Start gets as far as copying manifests |
| `Bootstrap.SecretsArrive` | pkg/bootkube/bootstrap.go:28-42 | after a successful Start every visited file of the assets' secrets is in the secrets directory, with the same content exactly unless it is called kubeconfig and does not begin with the admin's kubeconfig |
| `Bootstrap.ManifestsArrive` | pkg/bootkube/bootstrap.go:28-48 | after a successful Start nothing has failed, exactly the manifests of the walk are owned, and each is in the pod directory with its asset's content |
| `Bootstrap.KubeconfigArrives` | pkg/bootkube/bootstrap.go:39-42 | after a successful Start the kubeconfig in the secrets directory is the asset exactly if the secrets brought no longer file of that name |
| `Bootstrap.LongerKubeconfig` | pkg/bootkube/bootstrap.go:68-88 | a successful Start whose kubeconfig is a mixture of two files |
| `Recovery.ExtractBootstrapPods` | pkg/recovery/recover.go:135-156 | the bootstrap pods of the daemon sets and then the deployments |
| `Recovery.ExtractedPod` | pkg/recovery/recover.go:135-182 | exactly the apps of the control plane become pods |
| `Recovery.ExtractedInOrder` | pkg/recovery/recover.go:135-156 | the pods come in the order of their apps |
| `Recovery.RecoveredLabels` | pkg/recovery/recover.go:160-167 | exactly which labels make an app part of the control plane |
| `Recovery.RecoveredFields` | pkg/recovery/recover.go:171-182 | a recovered pod has its app's spec, namespace and annotations, a name of its own, and nothing else |
| `Recovery.FixUpBootstrapPods` | pkg/recovery/recover.go:187-245 | every pod is fixed up, and the required objects are exactly those that volumes name, with the paths to render them to |
| `Recovery.FixedPodRuns` | pkg/recovery/recover.go:187-245 | a fixed-up pod is on the host's network, asks for no user but root, keeps its containers, and each component that needs the kubeconfig is told its place and mounts a volume of the pod there; it has remote volumes exactly if some volume had two remote sources |
| `Recovery.FixedPodFields` | pkg/recovery/recover.go:187-245 | what a fixed-up pod and its containers keep and what is added, field by field |
| `Recovery.FixedVolumeFields` | pkg/recovery/recover.go:204-218 | what becomes of each volume, with absolute host paths, and the one that is added |
| `Recovery.RequiredObjects` | pkg/recovery/recover.go:204-218 | the required objects are exactly those that some volume names, with their asset paths |
| `Recovery.OutputKeyValueData` | pkg/recovery/recover.go:289-318 | fails exactly if a required name is missing, naming the missing; otherwise the assets are exactly the keys of the first listed object of each required name |
| `Recovery.FirstIsFirst` | pkg/recovery/recover.go:295-309 | no object listed before the one used has the name |
| `Recovery.Recover` | pkg/recovery/recover.go:87-131 | succeeds exactly if every required object is listed and the kubeconfig can be read, and then returns pods, config maps, secrets and kubeconfig; otherwise it names the missing config maps, else the missing secrets, else the kubeconfig |
| `Recovery.WriteFiles` | cmd/render/plugin/default/asset/asset.go:338-364 | succeeds exactly into a directory without files and directories and with no failing write, and changes nothing outside it |
| `Recovery.RecoveryThenStart` | pkg/recovery/recover.go:187-318 | after recovering, writing the assets and a successful Start, every secret or config map volume of the bootstrap pods is a host path whose files are the keys of the first listed object of that name with the same data |
| `Recovery.RecoveredPodStarts` | pkg/recovery/recover.go:248-258 | after recovering, writing the assets and a successful Start, each fixed-up pod's encoded manifest is in the pod directory, unless a later pod has the same manifest path |

## Left out

- The API server, kubelet, container runtime and etcd clients: their results are arbitrary observations.
- JSON and YAML: a manifest on disk is the pod it decodes to or unreadable; encoding and decoding are taken as inverse; a file that cannot be read back counts as unreadable. Loading and parsing manifests, and polling for a definition, are not modelled.
- Aliasing: the source keeps pointers to checkpoints, and for a moment the same one in the map and beside it. The model keeps values and updates the map entry. Pods taken from recovered apps share volumes with the app in the source and are copies in the model.
- Clock readings: one iteration has one clock value, for its decisions and for the time of the last data check.
- File ownership and permissions: only the choice of user and group is modelled, and that changing the owner can fail.
- Directories: creating one can fail, but which empty directories stay behind is not modelled. Temporary files left in the manifest directories by an iteration's failed writes appear at its end; those inside data directories are not modelled.
- Names: path components "." and "..", and names that are empty or contain a slash, are excluded, as the Kubernetes API does.
- Parsing of network blocks, and IPv4-mapped IPv6 blocks, which `Addresses.Parsed` excludes. That two pod blocks overlap each other is not checked by the source.
- The order in which Go evaluates `return copied, filepath.Walk(...)` (pkg/bootkube/bootstrap.go:94): the copied paths are taken to be returned, as documented.
- The YAML encoding of a bootstrap pod is a parameter; of two apps of one name the later one's manifest wins, as `Recovery.RecoveredPodStarts` says.
- TLS, keys, tokens and templates; flags, logging, locking and plugin loading; the status controller.
- Creater.SortSlice: the in-place sort is given only by what the library promises, so the order of manifests from one file is open.
- Agreement.DiskMatchesMemory: assumes that no disk operation fails; `Agreement.AgreementReturns` says what holds after failures. Representation, placement, causes and grace-period soundness hold with failures too.
- Collection.RemovedInTime: assumes no crash between the absence and the removal, because a restart forgets deadlines.
