/** Whole runs of the checkpointer (pkg/checkpoint/checkpoint.go:103-146): iterations, failing disk
    operations, and crashes at any point of an iteration that lose the memory and keep the disk. */
module Runs {
  import opened Strings
  import opened Kubernetes
  import opened Pods
  import opened CheckpointState
  import opened Checkpoints
  import opened Disk
  import opened DiskEffects

  datatype Config = Config(pod: CheckpointerPod, grace: int)
  {
    function Self(): string {
      SelfName(pod)
    }
  }

  datatype World = World(mem: Memory, disk: Disk)

  /** How one iteration happened to go about its work: the order of its map traversals, the data it
      stored for each pod, the operations that failed, the data files that removals delete first, the old
      temporary files that could not be deleted, and the new ones that failed or unfinished writes left
      behind. */
  datatype Io = Io(chunks: seq<Chunk>, starts: seq<string>, stops: seq<string>, removes: seq<string>, faults: set<DiskOp>,
                   torn: set<Path>, lingering: set<string>, litter: Litter)

  datatype Litter = Litter(active: Directory, inactive: Directory)

  /** A crash comes after the first `done` operations. */
  datatype Event =
    | Iterate(obs: Observation, io: Io)
    | Crash(obs: Observation, io: Io, done: nat)
  {
    /** The operations that took place, out of those of the whole iteration. */
    function Performed(ops: seq<DiskOp>): seq<DiskOp> {
      if Crash? && done <= |ops| then ops[..done] else ops
    }
  }

  function PodsOf(mem: Memory): map<string, Pod> {
    map x | x in TrackedNames(mem) :: Entry(mem, x).pod
  }

  function Cleaned(d: Disk, lingering: set<string>): Disk {
    d.(active := WithoutTemporary(d.active, lingering), inactive := WithoutTemporary(d.inactive, lingering))
  }

  /** The memory in which an iteration takes its decisions. */
  function AfterUpdate(cfg: Config, w: World, obs: Observation): Memory {
    Updated(w.mem, obs, FileCheckpoints(w.disk.active), FileCheckpoints(w.disk.inactive), cfg.pod)
  }

  function Decided(cfg: Config, w: World, obs: Observation): Decision {
    Processed(AfterUpdate(cfg, w, obs), obs, cfg.grace)
  }

  function SelfActs(cfg: Config, w: World, obs: Observation): Action {
    SelfAction(AfterUpdate(cfg, w, obs), obs, cfg.grace)
  }

  ghost predicate ChunkOf(pods: map<string, Pod>, c: Chunk) {
    && c.name in pods
    && forall op :: op in c.data ==>
         op.WriteData? && (FullNameToSecretPath(c.name) <= op.path || FullNameToConfigMapPath(c.name) <= op.path)
  }

  ghost predicate ValidIo(cfg: Config, mem: Memory, obs: Observation, io: Io) {
    && (forall c :: c in io.chunks ==> ChunkOf(PodsOf(mem), c))
    && (forall c :: c in io.chunks ==> c.written || InactiveWrite(PodsOf(mem)[c.name]) in io.faults)
    && Listing(ChunkNames(io.chunks), PodsOf(mem).Keys)
    && OnlyTemporary(io.litter.active) && OnlyTemporary(io.litter.inactive)
    && IsPlan(mem, obs, cfg.grace, io.starts, io.stops, io.removes)
  }

  /** All disk operations of an iteration, in order. */
  function Operations(mem: Memory, io: Io): seq<DiskOp>
    requires forall c :: c in io.chunks ==> c.name in PodsOf(mem)
  {
    CreateOps(PodsOf(mem), io.chunks) + StopOps(io.stops, io.faults) +
    StartOps(io.starts, io.faults) + RemoveOps(io.removes, io.faults, io.torn)
  }

  /** Parents are keyed by full name, and all names in play are among `names`. */
  ghost predicate ValidObservation(obs: Observation, names: set<string>) {
    Keyed(obs.apiParents) && Keyed(obs.localParents) && obs.apiParents.Keys <= names && obs.localParents.Keys <= names
  }

  ghost predicate OnlyTemporary(dir: Directory) {
    forall f :: f in dir ==> IsTemporary(f)
  }

  /** The event `ev` leads from the disk `d` to the world `w'`, when the updated memory is `m` and the
      iteration would end with the memory `after`. */
  ghost predicate Step(cfg: Config, d: Disk, m: Memory, after: Memory, ev: Event, w': World) {
    && ValidIo(cfg, m, ev.obs, ev.io)
    && (ev.Crash? ==> ev.done <= |Operations(m, ev.io)|)
    && w'.mem == (if ev.Iterate? then after else EMPTY_MEMORY)
    && w'.disk == DiskOf(d, ev, Operations(m, ev.io))
  }

  /** The disk after an event whose iteration has the operations `ops`. */
  function DiskOf(d: Disk, ev: Event, ops: seq<DiskOp>): Disk {
    Littered(Replay(Cleaned(d, ev.io.lingering), ev.Performed(ops)), ev.io.litter)
  }

  function Littered(d: Disk, litter: Litter): Disk {
    d.(active := d.active + litter.active, inactive := d.inactive + litter.inactive)
  }

  ghost predicate Next(cfg: Config, names: set<string>, w: World, ev: Event, w': World) {
    && ValidObservation(ev.obs, names)
    && Step(cfg, w.disk, AfterUpdate(cfg, w, ev.obs), Decided(cfg, w, ev.obs).mem, ev, w')
  }

  /** A start from any disk whose checkpoints lie in their places. */
  ghost predicate Initial(cfg: Config, names: set<string>, w: World) {
    && w.mem == EMPTY_MEMORY
    && WellPlaced(w.disk.active, names) && WellPlaced(w.disk.inactive, names)
    && SlashFree(cfg.pod.podNamespace)
  }

  /** An event between two worlds, with the memory after its update and the decision taken in it. */
  datatype Turn = Turn(before: World, ev: Event, mid: Memory, decision: Decision, after: World)

  ghost predicate IsTurn(cfg: Config, names: set<string>, t: Turn) {
    && Next(cfg, names, t.before, t.ev, t.after)
    && t.mid == AfterUpdate(cfg, t.before, t.ev.obs)
    && t.decision == Processed(t.mid, t.ev.obs, cfg.grace)
  }

  ghost function Turns(cfg: Config, names: set<string>): iset<Turn> {
    iset t: Turn | IsTurn(cfg, names, t)
  }

  /** A sequence of turns, each starting where the one before it ended. */
  datatype RunData = RunData(cfg: Config, names: set<string>, ws: seq<World>, evs: seq<Event>, mids: seq<Memory>, decisions: seq<Decision>)
  {
    predicate Matched() {
      |ws| == |evs| + 1 && |mids| == |evs| && |decisions| == |evs|
    }

    function TurnAt(i: nat): Turn
      requires Matched() && i < |evs|
    {
      Turn(ws[i], evs[i], mids[i], decisions[i], ws[i + 1])
    }

    ghost predicate Valid() {
      && Matched()
      && Initial(cfg, names, ws[0])
      && forall i :: 0 <= i < |evs| ==> TurnAt(i) in Turns(cfg, names)
    }
  }

  const IDLE_RUN := RunData(Config(CheckpointerPod("", "", ""), 0), {}, [World(EMPTY_MEMORY, Disk(map[], map[], map[]))], [], [], [])

  /** A run of the checkpointer, of any length. */
  type Run = r: RunData | r.Valid() ghost witness IDLE_RUN

  // ---------------------------------------------------------------------------------------------
  // What every event keeps, failing operations and crashes included.

  ghost predicate TracksWithin(mem: Memory, names: set<string>) {
    forall x :: Tracks(mem, x) ==> x in names
  }

  ghost predicate Fit(cfg: Config, names: set<string>, w: World) {
    && SlashFree(cfg.pod.podNamespace)
    && RepOk(w.mem, cfg.pod)
    && TracksWithin(w.mem, names)
    && PlacedDisk(w.disk, names)
  }

  lemma FileCheckpointsKeyed(dir: Directory, names: set<string>)
    requires WellPlaced(dir, names)
    ensures Keyed(FileCheckpoints(dir)) && FileCheckpoints(dir).Keys <= names
  {
    forall x | x in FileCheckpoints(dir)
      ensures ValidPod(FileCheckpoints(dir)[x]) && FullName(FileCheckpoints(dir)[x]) == x && x in names
    {
      PlacedNames(dir, names, x);
    }
  }

  lemma UpdateFit(cfg: Config, names: set<string>, w: World, obs: Observation)
    requires Fit(cfg, names, w) && ValidObservation(obs, names)
    ensures RepOk(AfterUpdate(cfg, w, obs), cfg.pod) && TracksWithin(AfterUpdate(cfg, w, obs), names)
  {
    FileCheckpointsKeyed(w.disk.active, names);
    FileCheckpointsKeyed(w.disk.inactive, names);
    UpdatedFit(cfg, names, w.mem, obs, FileCheckpoints(w.disk.active), FileCheckpoints(w.disk.inactive));
  }

  lemma UpdatedFit(cfg: Config, names: set<string>, mem: Memory, obs: Observation, active: map<string, Pod>, inactive: map<string, Pod>)
    requires RepOk(mem, cfg.pod) && TracksWithin(mem, names) && ValidObservation(obs, names)
    requires Keyed(active) && Keyed(inactive) && active.Keys <= names && inactive.Keys <= names
    ensures RepOk(Updated(mem, obs, active, inactive, cfg.pod), cfg.pod)
    ensures TracksWithin(Updated(mem, obs, active, inactive, cfg.pod), names)
  {
    UpdatedRepOk(mem, obs, active, inactive, cfg.pod);
    forall x | Tracks(Updated(mem, obs, active, inactive, cfg.pod), x) ensures x in names {
      UpdatedByName(mem, obs, active, inactive, cfg.pod, x);
    }
  }

  lemma DecidedFit(cfg: Config, names: set<string>, w: World, obs: Observation)
    requires Fit(cfg, names, w) && ValidObservation(obs, names)
    ensures RepOk(Decided(cfg, w, obs).mem, cfg.pod) && TracksWithin(Decided(cfg, w, obs).mem, names)
  {
    UpdateFit(cfg, names, w, obs);
    ProcessedRepOk(AfterUpdate(cfg, w, obs), obs, cfg.grace, cfg.pod);
    DecisionDisjoint(AfterUpdate(cfg, w, obs), obs, cfg.grace, cfg.pod);
  }

  /** A manifest that may be written: of a valid pod among `names`, under its own file name. */
  ghost predicate PlacedOp(op: DiskOp, names: set<string>) {
    op.WriteInactive? ==>
      && op.content.Manifest? && ValidPod(op.content.pod)
      && FullName(op.content.pod) in names
      && op.file == ManifestFile(FullName(op.content.pod))
  }

  ghost predicate PlacedOps(ops: seq<DiskOp>, names: set<string>) {
    forall op :: op in ops ==> PlacedOp(op, names)
  }

  ghost predicate PlacedDisk(d: Disk, names: set<string>) {
    WellPlaced(d.active, names) && WellPlaced(d.inactive, names)
  }

  lemma ApplyPlaced(d: Disk, op: DiskOp, names: set<string>)
    requires PlacedDisk(d, names) && PlacedOp(op, names)
    ensures PlacedDisk(Apply(d, op), names)
  {
    var d' := Apply(d, op);
    assert forall f :: f in d'.inactive && !(op.WriteInactive? && f == op.file) ==> f in d.inactive && d'.inactive[f] == d.inactive[f];
    assert forall f :: f in d'.active && !(op.Activate? && f == op.file) ==> f in d.active && d'.active[f] == d.active[f];
  }

  lemma {:induction false} ReplayPlaced(d: Disk, ops: seq<DiskOp>, names: set<string>)
    requires PlacedDisk(d, names) && PlacedOps(ops, names)
    ensures PlacedDisk(Replay(d, ops), names)
  {
    if ops != [] {
      ReplayPlaced(d, ops[..|ops| - 1], names);
      ApplyPlaced(Replay(d, ops[..|ops| - 1]), ops[|ops| - 1], names);
    }
  }

  lemma StrayPlaced(dir: Directory, stray: Directory, names: set<string>)
    requires WellPlaced(dir, names) && OnlyTemporary(stray)
    ensures WellPlaced(dir + stray, names)
  {
  }

  lemma HandlersPlaced(ids: seq<string>, faults: set<DiskOp>, torn: set<Path>, names: set<string>)
    ensures PlacedOps(StopOps(ids, faults), names) && PlacedOps(StartOps(ids, faults), names) && PlacedOps(RemoveOps(ids, faults, torn), names)
  {
    StopsWriteNothing(ids, faults);
    StartsWriteNothing(ids, faults);
    RemovesWriteNothing(ids, faults, torn);
  }

  lemma {:induction false} StopsWriteNothing(ids: seq<string>, faults: set<DiskOp>)
    ensures forall op :: op in StopOps(ids, faults) ==> !op.WriteInactive?
  {
    if ids != [] { StopsWriteNothing(ids[..|ids| - 1], faults); }
  }

  lemma {:induction false} StartsWriteNothing(ids: seq<string>, faults: set<DiskOp>)
    ensures forall op :: op in StartOps(ids, faults) ==> !op.WriteInactive?
  {
    if ids != [] { StartsWriteNothing(ids[..|ids| - 1], faults); }
  }

  lemma {:induction false} RemovesWriteNothing(ids: seq<string>, faults: set<DiskOp>, torn: set<Path>)
    ensures forall op :: op in RemoveOps(ids, faults, torn) ==> !op.WriteInactive?
  {
    if ids != [] {
      RemovesWriteNothing(ids[..|ids| - 1], faults, torn);
      RemoveWritesNothing(ids[|ids| - 1], faults, torn);
    }
  }

  lemma RemoveWritesNothing(id: string, faults: set<DiskOp>, torn: set<Path>)
    ensures forall op :: op in RemoveOneOps(id, faults, torn) ==> !op.WriteInactive?
  {
  }

  lemma {:induction false} CreatePlaced(pods: map<string, Pod>, chunks: seq<Chunk>, names: set<string>)
    requires forall c :: c in chunks ==> c.name in pods && ChunkOf(pods, c)
    requires forall x :: x in pods ==> x in names && ValidPod(pods[x]) && FullName(pods[x]) == x
    ensures PlacedOps(CreateOps(pods, chunks), names)
  {
    if chunks != [] {
      var c := chunks[|chunks| - 1];
      CreatePlaced(pods, chunks[..|chunks| - 1], names);
      assert ChunkOf(pods, c);
      assert PlacedOp(InactiveWrite(pods[c.name]), names);
    }
  }

  lemma PodsOfGood(mem: Memory, cp: CheckpointerPod, names: set<string>)
    requires RepOk(mem, cp) && TracksWithin(mem, names)
    ensures forall x :: x in PodsOf(mem) <==> Tracks(mem, x)
    ensures forall x :: x in PodsOf(mem) ==> x in names && ValidPod(PodsOf(mem)[x]) && FullName(PodsOf(mem)[x]) == x
  {
  }

  lemma OperationsPlaced(cfg: Config, names: set<string>, mem: Memory, obs: Observation, io: Io)
    requires RepOk(mem, cfg.pod) && TracksWithin(mem, names) && ValidIo(cfg, mem, obs, io)
    ensures PlacedOps(Operations(mem, io), names)
  {
    PodsOfGood(mem, cfg.pod, names);
    CreatePlaced(PodsOf(mem), io.chunks, names);
    HandlersPlaced(io.stops, io.faults, io.torn, names);
    HandlersPlaced(io.starts, io.faults, io.torn, names);
    HandlersPlaced(io.removes, io.faults, io.torn, names);
  }

  /** Representation and placement hold after every event, whatever fails and wherever it crashes. */
  lemma StepFit(cfg: Config, names: set<string>, w: World, ev: Event, w': World)
    requires Fit(cfg, names, w) && Next(cfg, names, w, ev, w')
    ensures Fit(cfg, names, w')
  {
    UpdateFit(cfg, names, w, ev.obs);
    DecidedFit(cfg, names, w, ev.obs);
    StepKeepsFit(cfg, names, w.disk, AfterUpdate(cfg, w, ev.obs), Decided(cfg, w, ev.obs).mem, ev, w');
  }

  lemma StepKeepsFit(cfg: Config, names: set<string>, d: Disk, m: Memory, after: Memory, ev: Event, w': World)
    requires SlashFree(cfg.pod.podNamespace) && PlacedDisk(d, names)
    requires RepOk(m, cfg.pod) && TracksWithin(m, names)
    requires RepOk(after, cfg.pod) && TracksWithin(after, names)
    requires Step(cfg, d, m, after, ev, w')
    ensures Fit(cfg, names, w')
  {
    StepKeepsDisk(cfg, names, d, m, after, ev, w');
    MemoryFits(cfg, names, after, ev.Iterate?, w'.mem);
  }

  lemma MemoryFits(cfg: Config, names: set<string>, after: Memory, completed: bool, mem: Memory)
    requires RepOk(after, cfg.pod) && TracksWithin(after, names) && mem == if completed then after else EMPTY_MEMORY
    ensures RepOk(mem, cfg.pod) && TracksWithin(mem, names)
  {
  }

  lemma StepKeepsDisk(cfg: Config, names: set<string>, d: Disk, m: Memory, after: Memory, ev: Event, w': World)
    requires PlacedDisk(d, names) && RepOk(m, cfg.pod) && TracksWithin(m, names)
    requires Step(cfg, d, m, after, ev, w')
    ensures PlacedDisk(w'.disk, names)
  {
    OperationsPlaced(cfg, names, m, ev.obs, ev.io);
    CleanedPlaced(d, ev.io.lingering, names);
    PerformedPlaced(Cleaned(d, ev.io.lingering), ev, Operations(m, ev.io), names);
    LitteredPlaced(Replay(Cleaned(d, ev.io.lingering), ev.Performed(Operations(m, ev.io))), ev.io.litter, names);
  }

  lemma CleanedPlaced(d: Disk, lingering: set<string>, names: set<string>)
    requires PlacedDisk(d, names)
    ensures PlacedDisk(Cleaned(d, lingering), names)
  {
  }

  lemma PerformedPlaced(d: Disk, ev: Event, ops: seq<DiskOp>, names: set<string>)
    requires PlacedDisk(d, names) && PlacedOps(ops, names)
    ensures PlacedDisk(Replay(d, ev.Performed(ops)), names)
  {
    assert forall op :: op in ev.Performed(ops) ==> op in ops;
    ReplayPlaced(d, ev.Performed(ops), names);
  }

  lemma LitteredPlaced(d: Disk, litter: Litter, names: set<string>)
    requires PlacedDisk(d, names) && OnlyTemporary(litter.active) && OnlyTemporary(litter.inactive)
    ensures PlacedDisk(Littered(d, litter), names)
  {
    StrayPlaced(d.active, litter.active, names);
    StrayPlaced(d.inactive, litter.inactive, names);
  }

  lemma InitialFit(cfg: Config, names: set<string>, w: World)
    requires Initial(cfg, names, w)
    ensures Fit(cfg, names, w)
  {
  }

  /** Every world of every run is fit. */
  lemma RunFit(r: Run, i: nat)
    requires i <= |r.evs|
    ensures Fit(r.cfg, r.names, r.ws[i])
  {
    InitialFit(r.cfg, r.names, r.ws[0]);
    for j := 0 to i
      invariant Fit(r.cfg, r.names, r.ws[j])
    {
      assert r.TurnAt(j) in Turns(r.cfg, r.names);
      StepFit(r.cfg, r.names, r.ws[j], r.evs[j], r.ws[j + 1]);
    }
  }

  /** What each step keeps holds at the end if it holds at the start. */
  lemma {:induction false} Preserved(ws: seq<World>, good: iset<World>, i: nat, n: nat)
    requires i <= n < |ws| && ws[i] in good
    requires forall k :: i <= k < n && ws[k] in good ==> ws[k + 1] in good
    ensures ws[n] in good
    decreases n
  {
    if i < n { Preserved(ws, good, i, n - 1); }
  }

  /** Each event of a run starts in a fit world. */
  lemma RunStep(r: Run, i: nat)
    requires i < |r.evs|
    ensures Fit(r.cfg, r.names, r.ws[i]) && Fit(r.cfg, r.names, r.ws[i + 1])
    ensures Next(r.cfg, r.names, r.ws[i], r.evs[i], r.ws[i + 1])
    ensures r.mids[i] == AfterUpdate(r.cfg, r.ws[i], r.evs[i].obs)
    ensures r.decisions[i] == Processed(r.mids[i], r.evs[i].obs, r.cfg.grace)
  {
    RunFit(r, i);
    RunFit(r, i + 1);
    RunTurn(r, i);
  }

  lemma RunTurn(r: Run, i: nat)
    requires i < |r.evs|
    ensures IsTurn(r.cfg, r.names, r.TurnAt(i))
  {
    assert r.TurnAt(i) in Turns(r.cfg, r.names);
  }

  /** An event of a run, from the disk before it and the memory after its update. */
  lemma RunEvent(r: Run, i: nat)
    requires i < |r.evs|
    ensures RepOk(r.mids[i], r.cfg.pod) && TracksWithin(r.mids[i], r.names) && PlacedDisk(r.ws[i].disk, r.names)
    ensures Step(r.cfg, r.ws[i].disk, r.mids[i], r.decisions[i].mem, r.evs[i], r.ws[i + 1])
    ensures r.decisions[i] == Processed(r.mids[i], r.evs[i].obs, r.cfg.grace)
  {
    RunStep(r, i);
    UpdateFit(r.cfg, r.names, r.ws[i], r.evs[i].obs);
  }

  /** What an event does to the memory, given the memory after its update. */
  lemma RunDecision(r: Run, i: nat)
    requires i < |r.evs|
    ensures RepOk(r.mids[i], r.cfg.pod)
    ensures r.decisions[i] == Processed(r.mids[i], r.evs[i].obs, r.cfg.grace)
    ensures r.ws[i + 1].mem == if r.evs[i].Iterate? then r.decisions[i].mem else EMPTY_MEMORY
  {
    RunStep(r, i);
    UpdateFit(r.cfg, r.names, r.ws[i], r.evs[i].obs);
  }

  /** An update keeps the state of what is tracked; a new entry has no deadline. */
  ghost predicate KeepsStates(mem: Memory, mid: Memory, x: string) {
    && (Tracks(mem, x) ==> Tracks(mid, x) && Entry(mid, x).state == Entry(mem, x).state)
    && (Tracks(mid, x) && !Tracks(mem, x) ==> !Entry(mid, x).state.HasDeadline())
  }

  lemma UpdateKeepsStates(mem: Memory, obs: Observation, active: map<string, Pod>, inactive: map<string, Pod>, cp: CheckpointerPod, x: string)
    ensures KeepsStates(mem, Updated(mem, obs, active, inactive, cp), x)
  {
    UpdatedByName(mem, obs, active, inactive, cp, x);
  }

  lemma RunUpdate(r: Run, i: nat, x: string)
    requires i < |r.evs|
    ensures KeepsStates(r.ws[i].mem, r.mids[i], x)
  {
    RunStep(r, i);
    var w := r.ws[i];
    UpdateKeepsStates(w.mem, r.evs[i].obs, FileCheckpoints(w.disk.active), FileCheckpoints(w.disk.inactive), r.cfg.pod, x);
  }
}
