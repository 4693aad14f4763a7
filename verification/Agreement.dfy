/** Memory and disk agree after every iteration, and a restart keeps every decision. */
module Agreement {
  import opened Strings
  import opened Kubernetes
  import opened Pods
  import opened CheckpointState
  import opened Checkpoints
  import opened Disk
  import opened DiskEffects
  import opened Runs

  /** The pods whose checkpoint is found in a directory. */
  function Active(d: Disk): set<string> {
    FileCheckpoints(d.active).Keys
  }

  function Inactive(d: Disk): set<string> {
    FileCheckpoints(d.inactive).Keys
  }

  predicate Stored(dir: Directory, x: string) {
    Has(dir, x) && !IsTemporary(ManifestFile(x))
  }

  lemma StoredIsFound(dir: Directory, names: set<string>, x: string)
    requires WellPlaced(dir, names)
    ensures x in FileCheckpoints(dir) <==> Stored(dir, x)
    ensures Stored(dir, x) ==> x in names
  {
    PlacedNames(dir, names, x);
    if x in CheckpointNames(dir) {
      var f :| f in dir && Readable(dir, f) && FullName(dir[f].pod) == x;
      assert f == ManifestFile(x);
    }
  }

  // ---------------------------------------------------------------------------------------------
  // The disk after an iteration, name by name.

  /** The directories after all operations, through the inactive directory as it was written. */
  lemma OperationsEffect(cfg: Config, names: set<string>, d: Disk, m: Memory, obs: Observation, io: Io)
    returns (written: Directory)
    requires RepOk(m, cfg.pod) && TracksWithin(m, names) && Injective(names)
    requires ValidIo(cfg, m, obs, io) && io.faults == {}
    ensures forall x :: x in ChunkNames(io.chunks) <==> Tracks(m, x)
    ensures forall x :: x in ChunkNames(io.chunks) ==> x in PodsOf(m)
    ensures InactiveWritten(d.inactive, written, PodsOf(m), ChunkNames(io.chunks))
    ensures var d' := Replay(d, Operations(m, io));
            && d'.active == Activated(d.active - Files(io.stops), written, Files(io.starts)) - Files(io.removes)
            && d'.inactive == written - Files(io.removes)
  {
    PodsOfGood(m, cfg.pod, names);
    var pods, create := PodsOf(m), CreateOps(PodsOf(m), io.chunks);
    ListedNames(io.chunks, pods.Keys);
    ReplayConcat(d, create, StopOps(io.stops, {}));
    ReplayConcat(d, create + StopOps(io.stops, {}), StartOps(io.starts, {}));
    ReplayConcat(d, create + StopOps(io.stops, {}) + StartOps(io.starts, {}), RemoveOps(io.removes, {}, io.torn));
    assert forall c :: c in io.chunks ==> ChunkOf(pods, c);
    CreateEffect(d, pods, io.chunks, names);
    var d1 := Replay(d, create);
    StopEffect(d1, io.stops);
    var d2 := Replay(d1, StopOps(io.stops, {}));
    StartEffect(d2, io.starts);
    RemoveEffect(Replay(d2, StartOps(io.starts, {})), io.removes, io.torn);
    written := d1.inactive;
  }

  lemma ListedNames(chunks: seq<Chunk>, s: set<string>)
    requires Listing(ChunkNames(chunks), s)
    ensures forall x :: x in ChunkNames(chunks) <==> x in s
  {
    assert forall x :: x in ChunkNames(chunks) <==> x in Elements(ChunkNames(chunks));
  }

  lemma InFiles(ids: seq<string>, s: set<string>, names: set<string>, x: string)
    requires Listing(ids, s) && s <= names && x in names && Injective(names)
    ensures ManifestFile(x) in Files(ids) <==> x in s
  {
    assert forall y :: y in ids <==> y in Elements(ids);
  }

  /** A manifest written for `x` is found again as the checkpoint of `x`. */
  lemma WrittenIsStored(dir: Directory, pod: Pod, x: string)
    requires ValidPod(pod) && FullName(pod) == x
    requires ManifestFile(x) in dir && dir[ManifestFile(x)] == Manifest(Sanitized(pod))
    ensures Stored(dir, x)
  {
    ManifestFileOfPod(pod);
  }

  lemma WrittenNames(cfg: Config, names: set<string>, before: Directory, written: Directory, m: Memory, ids: seq<string>, x: string)
    requires RepOk(m, cfg.pod) && TracksWithin(m, names) && Injective(names) && x in names
    requires forall y :: y in ids <==> Tracks(m, y)
    requires forall y :: y in ids ==> y in PodsOf(m)
    requires InactiveWritten(before, written, PodsOf(m), ids)
    ensures Stored(written, x) <==> Stored(before, x) || Tracks(m, x)
  {
    PodsOfGood(m, cfg.pod, names);
    if Tracks(m, x) {
      WrittenIsStored(written, PodsOf(m)[x], x);
    } else {
      assert ManifestFile(x) !in Files(ids);
    }
  }

  /** What an iteration without failures leaves on disk for each name. */
  lemma DiskAfter(cfg: Config, names: set<string>, d: Disk, m: Memory, obs: Observation, io: Io, x: string)
    requires RepOk(m, cfg.pod) && TracksWithin(m, names) && Injective(names) && x in names
    requires ValidIo(cfg, m, obs, io) && io.faults == {}
    ensures var d', dec := Replay(d, Operations(m, io)), Processed(m, obs, cfg.grace);
            && (Stored(d'.inactive, x) <==> (Stored(d.inactive, x) || Tracks(m, x)) && x !in dec.removes)
            && (Stored(d'.active, x) <==> (x in dec.starts || (Stored(d.active, x) && x !in dec.stops)) && x !in dec.removes)
  {
    var dec := Processed(m, obs, cfg.grace);
    DecisionDisjoint(m, obs, cfg.grace, cfg.pod);
    var written := OperationsEffect(cfg, names, d, m, obs, io);
    WrittenNames(cfg, names, d.inactive, written, m, ChunkNames(io.chunks), x);
    InFiles(io.starts, dec.starts, names, x);
    InFiles(io.stops, dec.stops, names, x);
    InFiles(io.removes, dec.removes, names, x);
    NameAfter(d.active, written, Files(io.starts), Files(io.stops), Files(io.removes), x);
  }

  lemma NameAfter(active: Directory, written: Directory, starts: set<string>, stops: set<string>, removes: set<string>, x: string)
    requires ManifestFile(x) in starts ==> Stored(written, x) && ManifestFile(x) !in stops
    ensures Stored(written - removes, x) <==> Stored(written, x) && ManifestFile(x) !in removes
    ensures Stored(Activated(active - stops, written, starts) - removes, x) <==>
            (ManifestFile(x) in starts || (Stored(active, x) && ManifestFile(x) !in stops)) && ManifestFile(x) !in removes
  {
  }

  // ---------------------------------------------------------------------------------------------
  // Agreement.

  predicate Starting(mem: Memory, x: string) {
    Tracks(mem, x) && Entry(mem, x).state.Act() == Start
  }

  /** The inactive checkpoints are the tracked names, and active ones are meant to be started. */
  ghost predicate Agree(w: World) {
    && (forall x :: x in Inactive(w.disk) <==> Tracks(w.mem, x))
    && (forall x :: x in Active(w.disk) ==> Starting(w.mem, x))
  }

  ghost predicate AgreeFully(w: World) {
    Agree(w) && forall x :: Starting(w.mem, x) ==> x in Active(w.disk)
  }

  lemma UpdatePreparesName(mem: Memory, obs: Observation, active: map<string, Pod>, inactive: map<string, Pod>, cp: CheckpointerPod, x: string)
    requires mem == EMPTY_MEMORY || ((x in inactive <==> Tracks(mem, x)) && (x in active ==> Starting(mem, x)))
    ensures var m := Updated(mem, obs, active, inactive, cp);
            && (x in active ==> Starting(m, x))
            && (x in inactive ==> Tracks(m, x))
            && ((mem == EMPTY_MEMORY || (Starting(mem, x) ==> x in active)) && Starting(m, x) ==> x in active || x == SelfName(cp))
  {
    UpdatedByName(mem, obs, active, inactive, cp, x);
  }

  /** What agreement, or a restart from any disk, means for the updated memory. */
  lemma UpdatePrepares(cfg: Config, names: set<string>, w: World, obs: Observation, x: string)
    requires Fit(cfg, names, w) && ValidObservation(obs, names)
    requires w.mem == EMPTY_MEMORY || Agree(w)
    ensures var m := AfterUpdate(cfg, w, obs);
            && (x in Active(w.disk) ==> Starting(m, x))
            && (x in Inactive(w.disk) ==> Tracks(m, x))
            && ((w.mem == EMPTY_MEMORY || AgreeFully(w)) && Starting(m, x) ==> x in Active(w.disk) || x == cfg.Self())
  {
    assert w.mem == EMPTY_MEMORY || ((x in Inactive(w.disk) <==> Tracks(w.mem, x)) && (x in Active(w.disk) ==> Starting(w.mem, x)));
    assert AgreeFully(w) ==> (Starting(w.mem, x) ==> x in Active(w.disk));
    UpdatePreparesName(w.mem, obs, FileCheckpoints(w.disk.active), FileCheckpoints(w.disk.inactive), cfg.pod, x);
  }

  /** Starting after the decision is having been started, or having been active and left alone; the
      converse can fail only where the checkpointer's own checkpoint stops. */
  lemma StartingAfter(m: Memory, obs: Observation, grace: int, cp: CheckpointerPod, x: string)
    requires RepOk(m, cp) && Tracks(m, x)
    ensures var dec := Processed(m, obs, grace);
            && ((x in dec.starts || (Starting(m, x) && x !in dec.stops)) && x !in dec.removes ==> Starting(dec.mem, x))
            && (SelfAction(m, obs, grace) != Stop && Starting(dec.mem, x) ==>
                 (x in dec.starts || (Starting(m, x) && x != SelfName(cp) && x !in dec.stops)) && x !in dec.removes)
  {
    NextStateGood(Entry(m, x), obs, grace);
    DecisionFollows(m, obs, grace, cp, x);
    StartingFollows(Processed(m, obs, grace), SelfName(cp), x, Entry(m, x), NextState(Entry(m, x), obs, grace));
  }

  lemma StartingFollows(dec: Decision, self: string, x: string, c: Checkpoint, s: State)
    requires Follows(dec, self, x, c, s) && (s.Act() == NoAction ==> c.state.StateNone?)
    ensures (x in dec.starts || (c.state.Act() == Start && x !in dec.stops)) && x !in dec.removes ==> Starting(dec.mem, x)
    ensures dec.selfAction != Stop && Starting(dec.mem, x) ==>
              (x in dec.starts || (c.state.Act() == Start && x != self && x !in dec.stops)) && x !in dec.removes
  {
  }

  lemma DecisionTracks(m: Memory, obs: Observation, grace: int, cp: CheckpointerPod, x: string)
    requires RepOk(m, cp)
    ensures var dec := Processed(m, obs, grace);
            && (Tracks(dec.mem, x) <==> Tracks(m, x) && x !in dec.removes)
            && (x in dec.starts ==> Tracks(m, x))
  {
    DecisionDisjoint(m, obs, grace, cp);
  }

  lemma StepAgrees(cfg: Config, names: set<string>, w: World, ev: Event, w': World)
    requires Fit(cfg, names, w) && Next(cfg, names, w, ev, w') && Injective(names)
    requires ev.Iterate? && ev.io.faults == {}
    requires w.mem == EMPTY_MEMORY || Agree(w)
    ensures Agree(w')
    ensures (w.mem == EMPTY_MEMORY || AgreeFully(w)) && SelfActs(cfg, w, ev.obs) != Stop ==> AgreeFully(w')
  {
    StepFit(cfg, names, w, ev, w');
    var full := (w.mem == EMPTY_MEMORY || AgreeFully(w)) && SelfActs(cfg, w, ev.obs) != Stop;
    forall x
      ensures x in Inactive(w'.disk) <==> Tracks(w'.mem, x)
      ensures x in Active(w'.disk) ==> Starting(w'.mem, x)
      ensures full && Starting(w'.mem, x) ==> x in Active(w'.disk)
    {
      NameAgrees(cfg, names, w, ev, w', x);
    }
  }

  lemma NameAgrees(cfg: Config, names: set<string>, w: World, ev: Event, w': World, x: string)
    requires Fit(cfg, names, w) && Fit(cfg, names, w') && Next(cfg, names, w, ev, w') && Injective(names)
    requires ev.Iterate? && ev.io.faults == {}
    requires w.mem == EMPTY_MEMORY || Agree(w)
    ensures x in Inactive(w'.disk) <==> Tracks(w'.mem, x)
    ensures x in Active(w'.disk) ==> Starting(w'.mem, x)
    ensures (w.mem == EMPTY_MEMORY || AgreeFully(w)) && SelfActs(cfg, w, ev.obs) != Stop && Starting(w'.mem, x) ==> x in Active(w'.disk)
  {
    var m := AfterUpdate(cfg, w, ev.obs);
    UpdateFit(cfg, names, w, ev.obs);
    UpdatePrepares(cfg, names, w, ev.obs, x);
    StoredIsFound(w.disk.active, names, x);
    StoredIsFound(w.disk.inactive, names, x);
    StoredIsFound(w'.disk.active, names, x);
    StoredIsFound(w'.disk.inactive, names, x);
    if x in names {
      NameAgreesFrom(cfg, names, w.disk, m, ev.obs, ev.io, w'.disk, x, (w.mem == EMPTY_MEMORY || AgreeFully(w)));
    }
  }

  lemma NameAgreesFrom(cfg: Config, names: set<string>, d: Disk, m: Memory, obs: Observation, io: Io, d': Disk, x: string, full: bool)
    requires RepOk(m, cfg.pod) && TracksWithin(m, names) && Injective(names)
    requires ValidIo(cfg, m, obs, io) && io.faults == {} && d' == Littered(Replay(Cleaned(d, io.lingering), Operations(m, io)), io.litter)
    requires Stored(d.active, x) ==> Starting(m, x)
    requires Stored(d.inactive, x) ==> Tracks(m, x)
    requires full && Starting(m, x) ==> Stored(d.active, x) || x == cfg.Self()
    requires x in names
    ensures var mem' := Processed(m, obs, cfg.grace).mem;
            && (Stored(d'.inactive, x) <==> Tracks(mem', x))
            && (Stored(d'.active, x) ==> Starting(mem', x))
            && (full && SelfAction(m, obs, cfg.grace) != Stop && Starting(mem', x) ==> Stored(d'.active, x))
  {
    DecisionAgrees(m, obs, cfg.grace, cfg.pod, x, Stored(d.active, x), Stored(d.inactive, x), full);
    var d0 := Cleaned(d, io.lingering);
    DiskAfter(cfg, names, d0, m, obs, io, x);
    CleanedStores(d, io.lingering, x);
    LitteredStores(Replay(d0, Operations(m, io)), io.litter, x);
  }

  lemma CleanedStores(d: Disk, lingering: set<string>, x: string)
    ensures Stored(Cleaned(d, lingering).active, x) <==> Stored(d.active, x)
    ensures Stored(Cleaned(d, lingering).inactive, x) <==> Stored(d.inactive, x)
  {
  }

  lemma LitteredStores(d: Disk, litter: Litter, x: string)
    requires OnlyTemporary(litter.active) && OnlyTemporary(litter.inactive)
    ensures Stored(Littered(d, litter).active, x) <==> Stored(d.active, x)
    ensures Stored(Littered(d, litter).inactive, x) <==> Stored(d.inactive, x)
  {
  }

  /** Agreement of a decision with the flags for the manifests of `x` before and after it. */
  lemma DecisionAgrees(m: Memory, obs: Observation, grace: int, cp: CheckpointerPod, x: string, active: bool, inactive: bool, full: bool)
    requires RepOk(m, cp)
    requires (active ==> Starting(m, x)) && (inactive ==> Tracks(m, x))
    requires full && Starting(m, x) ==> active || x == SelfName(cp)
    ensures var dec := Processed(m, obs, grace);
            var inactive' := (inactive || Tracks(m, x)) && x !in dec.removes;
            var active' := (x in dec.starts || (active && x !in dec.stops)) && x !in dec.removes;
            && (inactive' <==> Tracks(dec.mem, x))
            && (active' ==> Starting(dec.mem, x))
            && (full && SelfAction(m, obs, grace) != Stop && Starting(dec.mem, x) ==> active')
  {
    DecisionTracks(m, obs, grace, cp, x);
    if Tracks(m, x) { StartingAfter(m, obs, grace, cp, x); }
  }

  // ---------------------------------------------------------------------------------------------
  // Whole runs.

  ghost predicate FaultFree(r: Run) {
    forall i :: 0 <= i < |r.evs| ==> r.evs[i].io.faults == {}
  }

  /** In a completed iteration the checkpointer's own checkpoint takes the action stop. */
  predicate SelfStopsAt(r: Run, i: nat)
    requires i < |r.evs|
  {
    r.evs[i].Iterate? && r.decisions[i].selfAction == Stop
  }

  ghost predicate SelfNeverStops(r: Run) {
    forall i :: 0 <= i < |r.evs| ==> !SelfStopsAt(r, i)
  }

  /** Memory was just lost, or memory and disk agree, fully if `full`. */
  ghost predicate Settled(w: World, full: bool) {
    w.mem == EMPTY_MEMORY || if full then AgreeFully(w) else Agree(w)
  }

  lemma StepSettled(cfg: Config, names: set<string>, w: World, ev: Event, w': World, full: bool)
    requires Fit(cfg, names, w) && Next(cfg, names, w, ev, w') && Injective(names)
    requires ev.io.faults == {} && Settled(w, full)
    requires full && ev.Iterate? ==> SelfActs(cfg, w, ev.obs) != Stop
    ensures Settled(w', full)
    ensures ev.Iterate? ==> if full then AgreeFully(w') else Agree(w')
  {
    if ev.Iterate? { StepAgrees(cfg, names, w, ev, w'); }
  }

  /** No operation fails from event `i` to before event `n`. */
  ghost predicate FaultFreeBetween(r: Run, i: nat, n: nat)
    requires n <= |r.evs|
  {
    forall k :: i <= k < n ==> r.evs[k].io.faults == {}
  }

  ghost predicate SelfRunsBetween(r: Run, i: nat, n: nat)
    requires n <= |r.evs|
  {
    forall k :: i <= k < n ==> !SelfStopsAt(r, k)
  }

  /** Nothing fails at event `k`, and if `full` the checkpointer's own checkpoint does not stop. */
  ghost predicate Harmless(r: Run, k: nat, full: bool) {
    k < |r.evs| && r.evs[k].io.faults == {} && (full ==> !SelfStopsAt(r, k))
  }

  lemma RunSettled(r: Run, i: nat, n: nat, full: bool)
    requires i <= n <= |r.evs| && Injective(r.names)
    requires forall k :: i <= k < n ==> Harmless(r, k, full)
    requires r.ws[i] in SettledWorlds(full)
    ensures r.ws[n] in SettledWorlds(full)
  {
    forall k | i <= k < n && r.ws[k] in SettledWorlds(full) ensures r.ws[k + 1] in SettledWorlds(full) {
      RunSettledStep(r, k, full);
    }
    Preserved(r.ws, SettledWorlds(full), i, n);
  }

  ghost function SettledWorlds(full: bool): iset<World> {
    iset w: World | Settled(w, full)
  }

  lemma RunSettledStep(r: Run, k: nat, full: bool)
    requires k < |r.evs| && Injective(r.names) && Harmless(r, k, full)
    requires r.ws[k] in SettledWorlds(full)
    ensures r.ws[k + 1] in SettledWorlds(full)
  {
    RunStep(r, k);
    StepSettled(r.cfg, r.names, r.ws[k], r.evs[k], r.ws[k + 1], full);
  }

  lemma RunAgrees(r: Run, k: nat, full: bool)
    requires Injective(r.names) && Harmless(r, k, full) && r.evs[k].Iterate?
    requires r.ws[k] in SettledWorlds(full)
    ensures if full then AgreeFully(r.ws[k + 1]) else Agree(r.ws[k + 1])
  {
    RunStep(r, k);
    StepSettled(r.cfg, r.names, r.ws[k], r.evs[k], r.ws[k + 1], full);
  }

  /** Since the last loss of memory, agreement needs only that no operation failed; what failed before
      does not matter. It is full if the checkpointer's own checkpoint did not stop since. */
  lemma AgreementSinceRestart(r: Run, i: nat, n: nat)
    requires Injective(r.names) && i <= n < |r.evs| && r.ws[i].mem == EMPTY_MEMORY
    requires FaultFreeBetween(r, i, n + 1) && r.evs[n].Iterate?
    ensures Agree(r.ws[n + 1])
    ensures SelfRunsBetween(r, i, n + 1) ==> AgreeFully(r.ws[n + 1])
  {
    var full := SelfRunsBetween(r, i, n + 1);
    RunSettled(r, i, n, full);
    RunAgrees(r, n, full);
  }

  /** After every completed iteration of every run without failing operations, disk and memory agree,
      no matter how often the run crashed before; the agreement is full if the checkpointer's own
      checkpoint never stops. */
  lemma DiskMatchesMemory(r: Run, i: nat)
    requires Injective(r.names) && FaultFree(r)
    requires i < |r.evs| && r.evs[i].Iterate?
    ensures Agree(r.ws[i + 1])
    ensures SelfNeverStops(r) ==> AgreeFully(r.ws[i + 1])
  {
    AgreementSinceRestart(r, 0, i);
  }

  // ---------------------------------------------------------------------------------------------
  // After a failure.

  /** The stop of the checkpointer leaves behind what was to be started. */
  predicate Abandoned(dec: Decision, m: Memory, self: string, x: string) {
    dec.selfAction == Stop && x != self && Starting(m, x)
  }

  /** A decision settles a disagreement about `x` exactly if it puts `x` on one of its lists, unless it is
      the stop of the checkpointer and `x` was to be started. */
  lemma DecisionSettles(m: Memory, obs: Observation, grace: int, cp: CheckpointerPod, x: string, active: bool)
    requires RepOk(m, cp) && (active ==> Tracks(m, x))
    ensures var dec := Processed(m, obs, grace);
            var active' := (x in dec.starts || (active && x !in dec.stops)) && x !in dec.removes;
            (active' <==> Starting(dec.mem, x)) <==>
              !Abandoned(dec, m, SelfName(cp), x) && ((active <==> Starting(m, x)) || x in dec.starts + dec.stops + dec.removes)
  {
    DecisionTracks(m, obs, grace, cp, x);
    if Tracks(m, x) {
      NextStateGood(Entry(m, x), obs, grace);
      DecisionFollows(m, obs, grace, cp, x);
      ListsSettle(Processed(m, obs, grace), SelfName(cp), x, Entry(m, x), NextState(Entry(m, x), obs, grace), active);
    } else {
      DecisionOnce(m, obs, grace, cp, x);
    }
  }

  lemma ListsSettle(dec: Decision, self: string, x: string, c: Checkpoint, s: State, active: bool)
    requires Follows(dec, self, x, c, s)
    requires (s.Act() == NoAction ==> c.state.StateNone?) && (x == self ==> s.Act() != NoAction)
    ensures var active' := (x in dec.starts || (active && x !in dec.stops)) && x !in dec.removes;
            (active' <==> Starting(dec.mem, x)) <==>
              && !(dec.selfAction == Stop && x != self && c.state.Act() == Start)
              && ((active <==> c.state.Act() == Start) || x in dec.starts + dec.stops + dec.removes)
  {
  }

  /** From any world, agreeing or not, one iteration without failing operations makes the inactive
      checkpoints the tracked names. For the active checkpoint of `x` agreement holds afterwards exactly
      if it held after the update or the decision names `x`, and the checkpointer does not stop with `x` to
      be started: a failed start or stop is not repeated while the action stays the same. */
  lemma AgreementReturns(cfg: Config, names: set<string>, w: World, ev: Event, w': World, x: string)
    requires Fit(cfg, names, w) && Next(cfg, names, w, ev, w') && Injective(names)
    requires ev.Iterate? && ev.io.faults == {}
    ensures x in Inactive(w'.disk) <==> Tracks(w'.mem, x)
    ensures var dec, m := Decided(cfg, w, ev.obs), AfterUpdate(cfg, w, ev.obs);
            (x in Active(w'.disk) <==> Starting(w'.mem, x)) <==>
              && !Abandoned(dec, m, cfg.Self(), x)
              && ((x in Active(w.disk) <==> Starting(m, x)) || x in dec.starts + dec.stops + dec.removes)
  {
    StepFit(cfg, names, w, ev, w');
    UpdateFit(cfg, names, w, ev.obs);
    DecidedFit(cfg, names, w, ev.obs);
    UpdatedByName(w.mem, ev.obs, FileCheckpoints(w.disk.active), FileCheckpoints(w.disk.inactive), cfg.pod, x);
    StoredIsFound(w.disk.active, names, x);
    StoredIsFound(w.disk.inactive, names, x);
    StoredIsFound(w'.disk.active, names, x);
    StoredIsFound(w'.disk.inactive, names, x);
    ReturnsFrom(cfg, names, w.disk, AfterUpdate(cfg, w, ev.obs), ev, w', x);
  }

  lemma ReturnsFrom(cfg: Config, names: set<string>, d: Disk, m: Memory, ev: Event, w': World, x: string)
    requires RepOk(m, cfg.pod) && TracksWithin(m, names) && Injective(names)
    requires Step(cfg, d, m, Processed(m, ev.obs, cfg.grace).mem, ev, w')
    requires ev.Iterate? && ev.io.faults == {}
    requires Stored(d.active, x) || Stored(d.inactive, x) ==> Tracks(m, x)
    requires Stored(w'.disk.active, x) || Stored(w'.disk.inactive, x) || Tracks(w'.mem, x) ==> x in names
    ensures Stored(w'.disk.inactive, x) <==> Tracks(w'.mem, x)
    ensures var dec := Processed(m, ev.obs, cfg.grace);
            (Stored(w'.disk.active, x) <==> Starting(w'.mem, x)) <==>
              && !Abandoned(dec, m, cfg.Self(), x)
              && ((Stored(d.active, x) <==> Starting(m, x)) || x in dec.starts + dec.stops + dec.removes)
  {
    DecisionTracks(m, ev.obs, cfg.grace, cfg.pod, x);
    DecisionSettles(m, ev.obs, cfg.grace, cfg.pod, x, Stored(d.active, x));
    var d0, io := Cleaned(d, ev.io.lingering), ev.io;
    if x in names {
      DiskAfter(cfg, names, d0, m, ev.obs, io, x);
      CleanedStores(d, io.lingering, x);
      LitteredStores(Replay(d0, Operations(m, io)), io.litter, x);
    }
  }

  // ---------------------------------------------------------------------------------------------
  // Restarting.

  /** Leftover temporary files are not read. */
  lemma LitterIsInvisible(dir: Directory, stray: Directory, names: set<string>)
    requires WellPlaced(dir, names) && OnlyTemporary(stray)
    ensures FileCheckpoints(dir + stray) == FileCheckpoints(dir)
  {
    StrayPlaced(dir, stray, names);
    forall x
      ensures x in FileCheckpoints(dir + stray) <==> x in FileCheckpoints(dir)
      ensures x in FileCheckpoints(dir) ==> FileCheckpoints(dir + stray)[x] == FileCheckpoints(dir)[x]
    {
      StoredIsFound(dir + stray, names, x);
      StoredIsFound(dir, names, x);
    }
  }

  /** The state a tracked name restarts with. */
  function RestartState(before: Memory, self: string, x: string): State {
    if x == self then StateSelfCheckpointActive
    else if !Tracks(before, x) then StateNone
    else if Entry(before, x).state.Act() == Start then StateActive
    else StateInactive
  }

  /** Rebuilding the memory tracks the same names, and changes the action of none but the ones that
      had no state yet. */
  ghost predicate KeepsDecision(before: Memory, kept: Memory, rebuilt: Memory, self: string, x: string) {
    && (Tracks(rebuilt, x) <==> Tracks(kept, x))
    && (Tracks(rebuilt, x) ==> Entry(rebuilt, x).state == RestartState(before, self, x))
    && (x in kept.checkpoints && !kept.checkpoints[x].state.StateNone? ==>
         x in rebuilt.checkpoints && rebuilt.checkpoints[x].state.Act() == kept.checkpoints[x].state.Act())
  }

  lemma RebuildName(mem: Memory, obs: Observation, active: map<string, Pod>, inactive: map<string, Pod>, cp: CheckpointerPod, x: string)
    requires RepOk(mem, cp)
    requires x in inactive <==> Tracks(mem, x)
    requires x in active <==> Starting(mem, x)
    ensures KeepsDecision(mem, Updated(mem, obs, active, inactive, cp), Updated(EMPTY_MEMORY, obs, active, inactive, cp), SelfName(cp), x)
  {
    var kept, rebuilt := Updated(mem, obs, active, inactive, cp), Updated(EMPTY_MEMORY, obs, active, inactive, cp);
    UpdatedByName(mem, obs, active, inactive, cp, x);
    UpdatedByName(EMPTY_MEMORY, obs, active, inactive, cp, x);
    RebuildAs(mem, kept, rebuilt, obs, active, inactive, cp, x);
  }

  lemma RebuildAs(mem: Memory, kept: Memory, rebuilt: Memory, obs: Observation, active: map<string, Pod>, inactive: map<string, Pod>, cp: CheckpointerPod, x: string)
    requires RepOk(mem, cp) && (x in inactive <==> Tracks(mem, x)) && (x in active <==> Starting(mem, x))
    requires UpdatedAs(kept, mem, obs, active, inactive, cp, x) && UpdatedAs(rebuilt, EMPTY_MEMORY, obs, active, inactive, cp, x)
    ensures KeepsDecision(mem, kept, rebuilt, SelfName(cp), x)
  {
  }

  /** Losing the memory between iterations changes no decision basis but the pending deadlines. */
  lemma RestartKeepsDecisions(cfg: Config, names: set<string>, w: World, litter: Litter, obs: Observation, x: string)
    requires Fit(cfg, names, w) && AgreeFully(w)
    requires OnlyTemporary(litter.active) && OnlyTemporary(litter.inactive)
    ensures var crashed := World(EMPTY_MEMORY, Littered(w.disk, litter));
            KeepsDecision(w.mem, AfterUpdate(cfg, w, obs), AfterUpdate(cfg, crashed, obs), cfg.Self(), x)
  {
    LitterIsInvisible(w.disk.active, litter.active, names);
    LitterIsInvisible(w.disk.inactive, litter.inactive, names);
    assert x in Inactive(w.disk) <==> Tracks(w.mem, x);
    assert x in Active(w.disk) <==> Starting(w.mem, x);
    RebuildName(w.mem, obs, FileCheckpoints(w.disk.active), FileCheckpoints(w.disk.inactive), cfg.pod, x);
  }

  /** Any crash directly after an iteration of a run keeps the decisions of that iteration. */
  lemma CrashKeepsDecisions(r: Run, i: nat, litter: Litter, obs: Observation, x: string)
    requires Injective(r.names) && FaultFree(r) && SelfNeverStops(r)
    requires i < |r.evs| && r.evs[i].Iterate?
    requires OnlyTemporary(litter.active) && OnlyTemporary(litter.inactive)
    ensures var w := r.ws[i + 1];
            var crashed := World(EMPTY_MEMORY, Littered(w.disk, litter));
            KeepsDecision(w.mem, AfterUpdate(r.cfg, w, obs), AfterUpdate(r.cfg, crashed, obs), r.cfg.Self(), x)
  {
    DiskMatchesMemory(r, i);
    RunFit(r, i + 1);
    RestartKeepsDecisions(r.cfg, r.names, r.ws[i + 1], litter, obs, x);
  }
}
