/** The main loop (pkg/checkpoint/checkpoint.go:103-146): every execution of it is a run. */
module Loop {
  import opened Wrappers
  import opened Strings
  import opened Kubernetes
  import opened Pods
  import opened Checkpoints
  import opened Disk
  import opened DiskEffects
  import opened Runs
  import opened CrashSafety
  import opened Checkpointer
  import opened Storage

  /** What one iteration gets from its environment. */
  datatype Input = Input(obs: Observation, api: Api, failures: Failures, lingering: set<string>, litter: Litter)

  ghost predicate ValidInput(input: Input, names: set<string>) {
    && ValidObservation(input.obs, names)
    && OnlyTemporary(input.litter.active) && OnlyTemporary(input.litter.inactive)
  }

  function FullNames(pods: seq<Pod>): seq<string> {
    seq(|pods|, i requires 0 <= i < |pods| => FullName(pods[i]))
  }

  lemma FullNamesSnoc(pods: seq<Pod>, pod: Pod)
    ensures FullNames(pods + [pod]) == FullNames(pods) + [FullName(pod)]
  {
  }

  lemma FullNamesNext(pods: seq<Pod>, i: nat)
    requires i < |pods|
    ensures FullNames(pods[..i + 1]) == FullNames(pods[..i]) + [FullName(pods[i])]
  {
  }

  /** `pods` are the tracked pods of the given names, each once. */
  ghost predicate PodsListed(pods: seq<Pod>, mem: Memory, names: set<string>) {
    && Listing(FullNames(pods), names)
    && forall i :: 0 <= i < |pods| ==> Tracks(mem, FullName(pods[i])) && pods[i] == Entry(mem, FullName(pods[i])).pod
  }

  lemma OneMorePod(pods: seq<Pod>, mem: Memory, names: set<string>, name: string)
    requires PodsListed(pods, mem, names) && name !in names && Tracks(mem, name) && FullName(Entry(mem, name).pod) == name
    ensures PodsListed(pods + [Entry(mem, name).pod], mem, names + {name})
  {
    FullNamesSnoc(pods, Entry(mem, name).pod);
    ListingSnoc(FullNames(pods), names, name);
  }

  lemma AllListed(pods: seq<Pod>, mem: Memory, cp: CheckpointerPod)
    requires RepOk(mem, cp) && PodsListed(pods, mem, TrackedNames(mem))
    ensures Listing(FullNames(pods), PodsOf(mem).Keys)
    ensures forall i :: 0 <= i < |pods| ==>
              ValidPod(pods[i]) && FullName(pods[i]) in PodsOf(mem) && pods[i] == PodsOf(mem)[FullName(pods[i])]
  {
    assert PodsOf(mem).Keys == TrackedNames(mem);
  }

  ghost predicate GoodChunk(pods: map<string, Pod>, faults: set<DiskOp>, c: Chunk) {
    ChunkOf(pods, c) && (c.written || InactiveWrite(pods[c.name]) in faults)
  }

  /** The pod's data is to be stored in this pass: it is due, or the manifest is not in place. */
  ghost predicate Wanted(inactive: Directory, due: bool, distinct: bool, pod: Pod, api: Api) {
    Storable(pod, api) && (due || (distinct && !InPlace(inactive, Sanitized(pod))))
  }

  method CheckpointOne(fs: FileSystem, pod: Pod, ghost pods: map<string, Pod>, api: Api, needsUpdate: bool, failures: Failures)
    returns (ghost chunk: Chunk)
    requires ValidPod(pod) && FullName(pod) in pods && pod == pods[FullName(pod)]
    modifies fs
    ensures chunk.name == FullName(pod) && GoodChunk(pods, failures.Faults(), chunk)
    ensures fs.log == old(fs.log) + ChunkOps(pod, chunk) && fs.disk == Replay(old(fs.disk), ChunkOps(pod, chunk))
    ensures failures.None() && Wanted(old(fs.disk).inactive, needsUpdate, true, pod, api) ==> PodStored(pod, api, fs.disk)
  {
    ghost var stored;
    chunk, stored := CheckpointPod(fs, pod, api, needsUpdate, failures);
  }

  /** The first `i` pods are stored, where wanted, and the manifests of the others are as they were. */
  ghost predicate StoredSoFar(d0: Disk, d: Disk, parents: seq<Pod>, i: nat, api: Api, due: bool, distinct: bool) {
    && (forall k :: 0 <= k < i && k < |parents| && Wanted(d0.inactive, due, distinct, parents[k], api) ==> PodStored(parents[k], api, d))
    && (forall k :: i <= k < |parents| && distinct ==> (InPlace(d.inactive, Sanitized(parents[k])) <==> InPlace(d0.inactive, Sanitized(parents[k]))))
  }

  lemma OneMoreStored(d0: Disk, d: Disk, parents: seq<Pod>, i: nat, api: Api, due: bool, distinct: bool, c: Chunk, names: set<string>)
    requires i < |parents| && NoDuplicates(FullNames(parents)) && (distinct ==> Injective(names))
    requires forall k :: 0 <= k < |parents| ==> ValidPod(parents[k]) && FullName(parents[k]) in names
    requires StoredSoFar(d0, d, parents, i, api, due, distinct)
    requires forall op :: op in c.data ==> OwnData(FullName(parents[i]), op)
    requires Wanted(d.inactive, due, true, parents[i], api) ==> PodStored(parents[i], api, Replay(d, ChunkOps(parents[i], c)))
    ensures StoredSoFar(d0, Replay(d, ChunkOps(parents[i], c)), parents, i + 1, api, due, distinct)
  {
    var d' := Replay(d, ChunkOps(parents[i], c));
    forall k | 0 <= k < |parents| && k != i ensures FullName(parents[k]) != FullName(parents[i]) {
      assert FullNames(parents)[k] == FullName(parents[k]) && FullNames(parents)[i] == FullName(parents[i]);
    }
    forall k | 0 <= k < i + 1 && Wanted(d0.inactive, due, distinct, parents[k], api) ensures PodStored(parents[k], api, d') {
      if k < i {
        OtherChunkLeaves(parents[i], c, FullName(parents[k]));
        SparedData(d, ChunkOps(parents[i], c), FullName(parents[k]));
        PodKept(parents[k], api, d, d');
      }
    }
    forall k | i + 1 <= k < |parents| && distinct ensures InPlace(d'.inactive, Sanitized(parents[k])) <==> InPlace(d0.inactive, Sanitized(parents[k])) {
      PlaceKept(d, parents[i], c, parents[k], names);
    }
  }

  method CheckpointAll(fs: FileSystem, parents: seq<Pod>, ghost pods: map<string, Pod>, api: Api, needsUpdate: bool, failures: Failures)
    returns (ghost chunks: seq<Chunk>)
    requires forall i :: 0 <= i < |parents| ==> ValidPod(parents[i]) && FullName(parents[i]) in pods && parents[i] == pods[FullName(parents[i])]
    requires NoDuplicates(FullNames(parents))
    modifies fs
    ensures ChunkNames(chunks) == FullNames(parents)
    ensures forall c :: c in chunks ==> c.name in pods && GoodChunk(pods, failures.Faults(), c)
    ensures fs.log == old(fs.log) + CreateOps(pods, chunks) && fs.disk == Replay(old(fs.disk), CreateOps(pods, chunks))
    ensures failures.None() ==> StoredSoFar(old(fs.disk), fs.disk, parents, |parents|, api, needsUpdate, Injective(pods.Keys))
  {
    chunks := [];
    ghost var d0 := fs.disk;
    for i := 0 to |parents|
      invariant ChunkNames(chunks) == FullNames(parents[..i])
      invariant forall c :: c in chunks ==> c.name in pods && GoodChunk(pods, failures.Faults(), c)
      invariant fs.log == old(fs.log) + CreateOps(pods, chunks) && fs.disk == Replay(d0, CreateOps(pods, chunks))
      invariant failures.None() ==> StoredSoFar(d0, fs.disk, parents, i, api, needsUpdate, Injective(pods.Keys))
    {
      ghost var d := fs.disk;
      ghost var chunk := CheckpointOne(fs, parents[i], pods, api, needsUpdate, failures);
      if failures.None() {
        OneMoreStored(d0, d, parents, i, api, needsUpdate, Injective(pods.Keys), chunk, pods.Keys);
      }
      OneMoreChunk(pods, chunks, chunk, old(fs.log), d0);
      FullNamesNext(parents, i);
      chunks := chunks + [chunk];
    }
    assert parents[..|parents|] == parents;
  }

  /** What is stored after a pass without failures: the data of every tracked pod for which that was
      possible, if the data was due or the manifest was not in place. */
  ghost predicate StoredAll(mem: Memory, inactive: Directory, api: Api, due: bool, distinct: bool, d: Disk) {
    forall x :: Tracks(mem, x) && Wanted(inactive, due, distinct, Entry(mem, x).pod, api) ==> PodStored(Entry(mem, x).pod, api, d)
  }

  class Daemon {
    const cfg: Config
    const checkpoints: CheckpointMap
    const fs: FileSystem
    var lastCheckpoint: Option<int>

    constructor (cfg: Config, d: Disk)
      ensures this.cfg == cfg && View() == World(EMPTY_MEMORY, d) && lastCheckpoint == None
      ensures fresh(checkpoints) && fresh(fs)
    {
      this.cfg := cfg;
      checkpoints := new CheckpointMap();
      fs := new FileSystem(d);
      lastCheckpoint := None;
    }

    ghost function View(): World
      reads this, checkpoints, fs
    {
      World(checkpoints.View(), fs.disk)
    }

    /** The tracked pods, in the order of a map traversal, the checkpointer's own last. */
    method Parents() returns (parents: seq<Pod>)
      requires RepOk(checkpoints.View(), cfg.pod)
      ensures Listing(FullNames(parents), PodsOf(checkpoints.View()).Keys)
      ensures forall i :: 0 <= i < |parents| ==>
                && ValidPod(parents[i])
                && FullName(parents[i]) in PodsOf(checkpoints.View()) && parents[i] == PodsOf(checkpoints.View())[FullName(parents[i])]
    {
      ghost var mem := checkpoints.View();
      parents := [];
      var todo := checkpoints.checkpoints.Keys;
      while todo != {}
        invariant todo <= mem.checkpoints.Keys && PodsListed(parents, mem, mem.checkpoints.Keys - todo)
      {
        var name :| name in todo;
        OneMorePod(parents, mem, mem.checkpoints.Keys - todo, name);
        assert mem.checkpoints.Keys - (todo - {name}) == mem.checkpoints.Keys - todo + {name};
        parents := parents + [checkpoints.checkpoints[name].pod];
        todo := todo - {name};
      }
      assert mem.checkpoints.Keys - {} == mem.checkpoints.Keys;
      if checkpoints.selfCheckpoint.Some? {
        OneMorePod(parents, mem, mem.checkpoints.Keys, checkpoints.selfCheckpoint.value.name);
        parents := parents + [checkpoints.selfCheckpoint.value.pod];
      }
      AllListed(parents, mem, cfg.pod);
    }

    method CreateCheckpointsForValidParents(now: int, api: Api, failures: Failures) returns (ghost chunks: seq<Chunk>)
      requires RepOk(checkpoints.View(), cfg.pod)
      modifies fs, this`lastCheckpoint
      ensures Listing(ChunkNames(chunks), PodsOf(checkpoints.View()).Keys)
      ensures forall c :: c in chunks ==> c.name in PodsOf(checkpoints.View()) && ChunkOf(PodsOf(checkpoints.View()), c)
      ensures forall c :: c in chunks ==> c.written || InactiveWrite(PodsOf(checkpoints.View())[c.name]) in failures.Faults()
      ensures var ops := CreateOps(PodsOf(checkpoints.View()), chunks);
              fs.log == old(fs.log) + ops && fs.disk == Replay(old(fs.disk), ops)
      ensures var last := old(lastCheckpoint);
              var due := last.None? || now - last.value >= 60_000_000_000;
              && lastCheckpoint == (if due then Some(now) else last)
              && (failures.None() ==>
                   StoredAll(checkpoints.View(), old(fs.disk).inactive, api, due, Injective(PodsOf(checkpoints.View()).Keys), fs.disk))
    {
      var parents := Parents();
      ghost var mem, d0 := checkpoints.View(), fs.disk;
      var needsUpdate := lastCheckpoint.None? || now - lastCheckpoint.value >= CHECKPOINT_TIMEOUT;
      chunks := CheckpointAll(fs, parents, PodsOf(mem), api, needsUpdate, failures);
      if failures.None() {
        ParentsStored(mem, cfg.pod, d0, fs.disk, parents, api, needsUpdate);
      }
      if needsUpdate {
        lastCheckpoint := Some(now);
      }
    }

    /** Reads both manifest directories, deleting leftover temporary files. */
    method ReadCheckpoints(lingering: set<string>, ghost names: set<string>) returns (active: map<string, Pod>, inactive: map<string, Pod>)
      requires PlacedDisk(fs.disk, names)
      modifies fs
      ensures fs.disk == Cleaned(old(fs.disk), lingering) && fs.log == old(fs.log)
      ensures active == FileCheckpoints(old(fs.disk).active) && inactive == FileCheckpoints(old(fs.disk).inactive)
    {
      var cleanActive, cleanInactive;
      active, cleanActive := GetFileCheckpoints(fs.disk.active, lingering);
      inactive, cleanInactive := GetFileCheckpoints(fs.disk.inactive, lingering);
      FoundUnique(fs.disk.active, names, active);
      FoundUnique(fs.disk.inactive, names, inactive);
      fs.disk := fs.disk.(active := cleanActive, inactive := cleanInactive);
    }

    /** Reads the disk and brings the memory up to date. */
    method Refresh(obs: Observation, lingering: set<string>, ghost names: set<string>)
      requires Fit(cfg, names, View()) && ValidObservation(obs, names)
      modifies fs, checkpoints
      ensures checkpoints.View() == AfterUpdate(cfg, old(View()), obs)
      ensures fs.disk == Cleaned(old(fs.disk), lingering)
      ensures RepOk(checkpoints.View(), cfg.pod)
    {
      FileCheckpointsKeyed(fs.disk.active, names);
      FileCheckpointsKeyed(fs.disk.inactive, names);
      var active, inactive := ReadCheckpoints(lingering, names);
      checkpoints.Update(obs, active, inactive, cfg.pod);
    }

    /** The three handlers, in the order of the loop. */
    method Handle(starts: seq<string>, stops: seq<string>, removes: seq<string>, faults: set<DiskOp>, torn: set<Path>)
      modifies fs
      ensures fs.disk == Replay(Replay(Replay(old(fs.disk), StopOps(stops, faults)), StartOps(starts, faults)), RemoveOps(removes, faults, torn))
    {
      fs.HandleStop(stops, faults);
      fs.HandleStart(starts, faults);
      fs.HandleRemove(removes, faults, torn);
    }

    /** Writes what the memory calls for, decides, and carries the decision out. */
    method Act(input: Input) returns (ghost io: Io)
      requires RepOk(checkpoints.View(), cfg.pod)
      requires OnlyTemporary(input.litter.active) && OnlyTemporary(input.litter.inactive)
      modifies this`lastCheckpoint, fs, checkpoints
      ensures ValidIo(cfg, old(checkpoints.View()), input.obs, io)
      ensures io.faults == input.failures.Faults() && io.torn == input.failures.torn && io.lingering == input.lingering && io.litter == input.litter
      ensures checkpoints.View() == Processed(old(checkpoints.View()), input.obs, cfg.grace).mem
      ensures fs.disk == Littered(Replay(old(fs.disk), Operations(old(checkpoints.View()), io)), input.litter)
      ensures lastCheckpoint == Checked(old(lastCheckpoint), input.obs.now)
      ensures input.failures.None() ==>
                StoredAll(checkpoints.View(), old(fs.disk).inactive, input.api, Due(old(lastCheckpoint), input.obs.now),
                          Injective(PodsOf(old(checkpoints.View())).Keys), fs.disk)
    {
      var faults, torn := input.failures.Faults(), input.failures.torn;
      ghost var m, d0, due := checkpoints.View(), fs.disk, Due(lastCheckpoint, input.obs.now);
      ghost var chunks := CreateCheckpointsForValidParents(input.obs.now, input.api, input.failures);
      ghost var d1 := fs.disk;
      var starts, stops, removes := checkpoints.Process(input.obs, cfg.grace, cfg.pod);
      Handle(starts, stops, removes, faults, torn);
      ReplayAll(d0, CreateOps(PodsOf(m), chunks), StopOps(stops, faults), StartOps(starts, faults), RemoveOps(removes, faults, torn));
      if input.failures.None() {
        StoredAfterHandlers(m, cfg, input.obs, starts, stops, removes, faults, torn, d0.inactive, d1, fs.disk, input.api, due);
      }
      // Failed writes may have left temporary files.
      fs.disk := Littered(fs.disk, input.litter);
      io := Io(chunks, starts, stops, removes, faults, torn, input.lingering, input.litter);
      if input.failures.None() {
        LitterKeepsStored(checkpoints.View(), d0.inactive, input.api, due, Injective(PodsOf(m).Keys), Replay(d0, Operations(m, io)), input.litter, cfg.pod);
      }
    }

    /** One iteration is one event of a run. If nothing fails in it, then afterwards the data of every tracked
        pod for which that is possible is stored, provided the data was due or the manifest not in place. */
    method Iteration(input: Input, ghost names: set<string>) returns (ghost ev: Event)
      requires Fit(cfg, names, View()) && ValidInput(input, names)
      modifies this`lastCheckpoint, fs, checkpoints
      ensures Answers(ev, input)
      ensures Next(cfg, names, old(View()), ev, View())
      ensures Fit(cfg, names, View())
      ensures lastCheckpoint == Checked(old(lastCheckpoint), input.obs.now)
      ensures input.failures.None() ==>
                StoredAll(View().mem, old(fs.disk).inactive, input.api, Due(old(lastCheckpoint), input.obs.now), Injective(names), fs.disk)
    {
      ghost var w := View();
      UpdateFit(cfg, names, w, input.obs);
      Refresh(input.obs, input.lingering, names);
      ghost var m, d0 := checkpoints.View(), fs.disk;
      ghost var due := Due(lastCheckpoint, input.obs.now);
      ghost var io := Act(input);
      ev := Iterate(input.obs, io);
      StepFit(cfg, names, w, ev, View());
      if input.failures.None() {
        StoredFromStart(m, names, View().mem, w.disk, input.lingering, input.api, due, fs.disk, cfg.pod);
      }
    }

    /** The endless loop, cut off after any number of iterations, is a run from the given world. If nothing
        fails in the last of them and the data is due in it, as it is in the first, then the data of every
        tracked pod for which that is possible is stored. */
    method Loop(inputs: seq<Input>, ghost names: set<string>) returns (ghost r: Run)
      requires Initial(cfg, names, View())
      requires forall i :: 0 <= i < |inputs| ==> ValidInput(inputs[i], names)
      modifies this`lastCheckpoint, fs, checkpoints
      ensures r.cfg == cfg && r.names == names && |r.evs| == |inputs|
      ensures r.ws[0] == old(View()) && r.ws[|inputs|] == View()
      ensures forall i :: 0 <= i < |inputs| ==> Answers(r.evs[i], inputs[i])
      ensures lastCheckpoint == LastChecked(old(lastCheckpoint), inputs)
      ensures inputs != [] ==>
                var last := inputs[|inputs| - 1];
                last.failures.None() ==>
                  StoredAll(View().mem, r.ws[|inputs| - 1].disk.inactive, last.api,
                            Due(LastChecked(old(lastCheckpoint), inputs[..|inputs| - 1]), last.obs.now), Injective(names), fs.disk)
    {
      InitialFit(cfg, names, View());
      r := RunData(cfg, names, [View()], [], [], []);
      ghost var first := lastCheckpoint;
      for i := 0 to |inputs|
        invariant r.cfg == cfg && r.names == names && |r.evs| == i
        invariant r.ws[0] == old(View()) && r.ws[i] == View()
        invariant forall j :: 0 <= j < i ==> Answers(r.evs[j], inputs[j])
        invariant lastCheckpoint == LastChecked(first, inputs[..i])
        invariant i > 0 && inputs[i - 1].failures.None() ==>
                    StoredAll(View().mem, r.ws[i - 1].disk.inactive, inputs[i - 1].api,
                              Due(LastChecked(first, inputs[..i - 1]), inputs[i - 1].obs.now), Injective(names), fs.disk)
      {
        assert inputs[..i + 1][..i] == inputs[..i];
        r := NextTurn(r, inputs[i]);
      }
      assert inputs[..|inputs|] == inputs;
    }

    /** Extends a run that has come to the present by one iteration. */
    method NextTurn(ghost r: Run, input: Input) returns (ghost r': Run)
      requires r.cfg == cfg && r.ws[|r.evs|] == View() && ValidInput(input, r.names)
      modifies this`lastCheckpoint, fs, checkpoints
      ensures r'.cfg == cfg && r'.names == r.names && |r'.evs| == |r.evs| + 1
      ensures r'.ws[..|r.ws|] == r.ws && r'.evs[..|r.evs|] == r.evs && r'.ws[|r'.evs|] == View()
      ensures Answers(r'.evs[|r.evs|], input)
      ensures lastCheckpoint == Checked(old(lastCheckpoint), input.obs.now)
      ensures input.failures.None() ==>
                StoredAll(View().mem, r.ws[|r.evs|].disk.inactive, input.api, Due(old(lastCheckpoint), input.obs.now), Injective(r.names), fs.disk)
    {
      RunFit(r, |r.evs|);
      ghost var ev := Iteration(input, r.names);
      r' := Extended(r, ev, View());
    }
  }

  /** Data is checked in the first pass, and when a minute has passed since the last check. */
  predicate Due(last: Option<int>, now: int) {
    last.None? || now - last.value >= 60_000_000_000
  }

  function Checked(last: Option<int>, now: int): Option<int> {
    if Due(last, now) then Some(now) else last
  }

  function LastChecked(last: Option<int>, inputs: seq<Input>): Option<int> {
    if inputs == [] then last
    else Checked(LastChecked(last, inputs[..|inputs| - 1]), inputs[|inputs| - 1].obs.now)
  }

  /** After any pass the last check is less than a minute old. */
  lemma CheckedRecently(last: Option<int>, inputs: seq<Input>)
    requires inputs != []
    ensures LastChecked(last, inputs).Some? && inputs[|inputs| - 1].obs.now - LastChecked(last, inputs).value < 60_000_000_000
  {
  }

  lemma ParentsStored(mem: Memory, cp: CheckpointerPod, d0: Disk, d: Disk, parents: seq<Pod>, api: Api, due: bool)
    requires RepOk(mem, cp) && Listing(FullNames(parents), PodsOf(mem).Keys)
    requires forall i :: 0 <= i < |parents| ==> FullName(parents[i]) in PodsOf(mem) && parents[i] == PodsOf(mem)[FullName(parents[i])]
    requires StoredSoFar(d0, d, parents, |parents|, api, due, Injective(PodsOf(mem).Keys))
    ensures StoredAll(mem, d0.inactive, api, due, Injective(PodsOf(mem).Keys), d)
  {
    forall x | Tracks(mem, x) && Wanted(d0.inactive, due, Injective(PodsOf(mem).Keys), Entry(mem, x).pod, api) ensures PodStored(Entry(mem, x).pod, api, d) {
      assert x in PodsOf(mem).Keys && x in Elements(FullNames(parents));
      var i :| 0 <= i < |FullNames(parents)| && FullNames(parents)[i] == x;
      assert parents[i] == PodsOf(mem)[x] == Entry(mem, x).pod;
    }
  }

  /** A decision leaves the pods of what it does not remove. */
  lemma DecisionKeepsPod(mem: Memory, obs: Observation, grace: int, cp: CheckpointerPod, x: string)
    requires RepOk(mem, cp)
    ensures var d := Processed(mem, obs, grace);
            Tracks(d.mem, x) ==> Tracks(mem, x) && x !in d.removes && Entry(d.mem, x).pod == Entry(mem, x).pod
  {
    DecisionOnce(mem, obs, grace, cp, x);
  }

  lemma StoredAfterHandlers(m: Memory, cfg: Config, obs: Observation, starts: seq<string>, stops: seq<string>, removes: seq<string>,
                            faults: set<DiskOp>, torn: set<Path>, inactive: Directory, d1: Disk, d: Disk, api: Api, due: bool)
    requires RepOk(m, cfg.pod) && IsPlan(m, obs, cfg.grace, starts, stops, removes)
    requires d == Replay(Replay(Replay(d1, StopOps(stops, faults)), StartOps(starts, faults)), RemoveOps(removes, faults, torn))
    requires StoredAll(m, inactive, api, due, Injective(PodsOf(m).Keys), d1)
    ensures StoredAll(Processed(m, obs, cfg.grace).mem, inactive, api, due, Injective(PodsOf(m).Keys), d)
  {
    var dec := Processed(m, obs, cfg.grace);
    DecisionDisjoint(m, obs, cfg.grace, cfg.pod);
    assert forall id :: id in removes ==> id in Elements(removes);
    forall x | Tracks(dec.mem, x) && Wanted(inactive, due, Injective(PodsOf(m).Keys), Entry(dec.mem, x).pod, api) ensures PodStored(Entry(dec.mem, x).pod, api, d) {
      DecisionKeepsPod(m, obs, cfg.grace, cfg.pod, x);
      HandlersKeep(m, cfg.pod, starts, stops, removes, faults, torn, d1, Entry(m, x).pod, api);
    }
  }

  lemma LitterKeepsStored(mem: Memory, inactive: Directory, api: Api, due: bool, distinct: bool, d: Disk, litter: Litter, cp: CheckpointerPod)
    requires RepOk(mem, cp) && StoredAll(mem, inactive, api, due, distinct, d)
    ensures StoredAll(mem, inactive, api, due, distinct, Littered(d, litter))
  {
    forall x | Tracks(mem, x) && Wanted(inactive, due, distinct, Entry(mem, x).pod, api) ensures PodStored(Entry(mem, x).pod, api, Littered(d, litter)) {
      PodKept(Entry(mem, x).pod, api, d, Littered(d, litter));
    }
  }

  /** The same, from the directory as it was before the temporary files were cleared, and for distinct files
      of all names. */
  lemma StoredFromStart(m: Memory, names: set<string>, mem: Memory, d: Disk, lingering: set<string>, api: Api, due: bool, d': Disk, cp: CheckpointerPod)
    requires RepOk(m, cp) && TracksWithin(m, names) && RepOk(mem, cp)
    requires StoredAll(mem, Cleaned(d, lingering).inactive, api, due, Injective(PodsOf(m).Keys), d')
    ensures StoredAll(mem, d.inactive, api, due, Injective(names), d')
  {
    PodsOfGood(m, cp, names);
    forall x | Tracks(mem, x) && Wanted(d.inactive, due, Injective(names), Entry(mem, x).pod, api) ensures PodStored(Entry(mem, x).pod, api, d') {
      var pod := Entry(mem, x).pod;
      assert FullName(Sanitized(pod)) == FullName(pod);
      ManifestFileOfPod(pod);
      assert InPlace(Cleaned(d, lingering).inactive, Sanitized(pod)) <==> InPlace(d.inactive, Sanitized(pod));
      assert Injective(names) ==> Injective(PodsOf(m).Keys);
    }
  }

  /** The event is a completed iteration on the input. */
  predicate Answers(ev: Event, input: Input) {
    && ev.Iterate? && ev.obs == input.obs && ev.io.faults == input.failures.Faults() && ev.io.torn == input.failures.torn
    && ev.io.lingering == input.lingering && ev.io.litter == input.litter
  }

  lemma OneMoreChunk(pods: map<string, Pod>, chunks: seq<Chunk>, c: Chunk, log: seq<DiskOp>, d: Disk)
    requires c.name in pods && forall b :: b in chunks ==> b.name in pods
    ensures log + CreateOps(pods, chunks + [c]) == log + CreateOps(pods, chunks) + ChunkOps(pods[c.name], c)
    ensures Replay(d, CreateOps(pods, chunks + [c])) == Replay(Replay(d, CreateOps(pods, chunks)), ChunkOps(pods[c.name], c))
    ensures ChunkNames(chunks + [c]) == ChunkNames(chunks) + [c.name]
  {
    assert (chunks + [c])[..|chunks|] == chunks;
    Associate(log, CreateOps(pods, chunks), ChunkOps(pods[c.name], c));
    ReplayConcat(d, CreateOps(pods, chunks), ChunkOps(pods[c.name], c));
  }

  lemma ReplayAll(d: Disk, a: seq<DiskOp>, b: seq<DiskOp>, c: seq<DiskOp>, e: seq<DiskOp>)
    ensures Replay(d, a + b + c + e) == Replay(Replay(Replay(Replay(d, a), b), c), e)
  {
    ReplayConcat(d, a, b);
    ReplayConcat(d, a + b, c);
    ReplayConcat(d, a + b + c, e);
  }

  /** A run with one more event. */
  ghost function Extended(r: Run, ev: Event, w': World): (r': Run)
    requires Next(r.cfg, r.names, r.ws[|r.evs|], ev, w')
    ensures r'.cfg == r.cfg && r'.names == r.names && r'.ws == r.ws + [w'] && r'.evs == r.evs + [ev]
  {
    var w := r.ws[|r.evs|];
    var mid := AfterUpdate(r.cfg, w, ev.obs);
    var t := Turn(w, ev, mid, Processed(mid, ev.obs, r.cfg.grace), w');
    assert t in Turns(r.cfg, r.names);
    ExtendedValid(r, t);
    Appended(r, t)
  }

  function Appended(r: RunData, t: Turn): RunData {
    r.(ws := r.ws + [t.after], evs := r.evs + [t.ev], mids := r.mids + [t.mid], decisions := r.decisions + [t.decision])
  }

  lemma ExtendedValid(r: Run, t: Turn)
    requires t in Turns(r.cfg, r.names) && t.before == r.ws[|r.evs|]
    ensures Appended(r, t).Valid()
  {
    forall i | 0 <= i < |r.evs| + 1 ensures Appended(r, t).TurnAt(i) in Turns(r.cfg, r.names) {
      AppendedTurn(r, t, i);
    }
  }

  lemma AppendedTurn(r: RunData, t: Turn, i: nat)
    requires r.Matched() && t.before == r.ws[|r.evs|] && i <= |r.evs|
    ensures Appended(r, t).Matched() && Appended(r, t).TurnAt(i) == if i < |r.evs| then r.TurnAt(i) else t
  {
  }
}
