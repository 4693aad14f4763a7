/** What runs through an API server outage, and what a checkpointer that stops itself does to the
    other checkpoints. */
module Availability {
  import opened Kubernetes
  import opened Pods
  import opened CheckpointState
  import opened Checkpoints
  import opened Disk
  import opened Runs
  import opened Agreement
  import opened Causes

  // ---------------------------------------------------------------------------------------------
  // Outages.

  /** The checkpointer's own checkpoint, where there is one, is to be started. */
  predicate SelfStarting(mem: Memory) {
    mem.self.Some? ==> mem.self.value.state.Act() == Start
  }

  lemma SelfStaysStarting(m: Memory, obs: Observation, grace: int, cp: CheckpointerPod)
    requires RepOk(m, cp) && SelfAction(m, obs, grace) != Stop
    ensures SelfStarting(Processed(m, obs, grace).mem)
  {
    if m.self.Some? { NextStateGood(m.self.value, obs, grace); }
  }

  lemma UpdateSelfStarting(mem: Memory, obs: Observation, active: map<string, Pod>, inactive: map<string, Pod>, cp: CheckpointerPod)
    requires RepOk(mem, cp) && SelfStarting(mem)
    ensures SelfStarting(Updated(mem, obs, active, inactive, cp))
  {
    UpdatedByName(mem, obs, active, inactive, cp, SelfName(cp));
  }

  lemma SelfStartingStep(r: Run, i: nat)
    requires i < |r.evs| && SelfStarting(r.ws[i].mem)
    ensures SelfStarting(r.mids[i])
    ensures !SelfStopsAt(r, i) ==> SelfStarting(r.ws[i + 1].mem)
  {
    var w := r.ws[i];
    RunStep(r, i);
    RunDecision(r, i);
    UpdateSelfStarting(w.mem, r.evs[i].obs, FileCheckpoints(w.disk.active), FileCheckpoints(w.disk.inactive), r.cfg.pod);
    if r.evs[i].Iterate? && !SelfStopsAt(r, i) {
      SelfStaysStarting(r.mids[i], r.evs[i].obs, r.cfg.grace, r.cfg.pod);
    }
  }

  lemma RunSelfStarting(r: Run, i: nat, n: nat)
    requires i <= n <= |r.evs| && r.ws[i].mem == EMPTY_MEMORY && SelfRunsBetween(r, i, n)
    ensures SelfStarting(r.ws[n].mem)
  {
    for k := i to n
      invariant SelfStarting(r.ws[k].mem)
    {
      assert !SelfStopsAt(r, k);
      SelfStartingStep(r, k);
    }
  }

  /** Without the API server a pod that does not run is started, unless nothing local knows it. */
  lemma OutageStarts(m: Memory, obs: Observation, grace: int, cp: CheckpointerPod, x: string)
    requires RepOk(m, cp) && SelfStarting(m) && SelfAction(m, obs, grace) != Stop && Tracks(m, x)
    requires !obs.apiAvailable && x !in obs.localRunning
    requires Entry(m, x).state.StateNone? ==> x in obs.localParents
    ensures var d := Processed(m, obs, grace);
            Starting(d.mem, x) && x !in d.removes
  {
    if m.self.Some? {
      TransitionActions(m.self.value.state, obs.now, grace, ConditionOf(obs, m.self.value.name));
    }
    TransitionActions(Entry(m, x).state, obs.now, grace, ConditionOf(obs, x));
  }

  /** Outage availability: if since the last loss of memory nothing failed and the checkpointer did not
      stop, then after an iteration without the API server every tracked checkpoint that does not run
      locally has its active manifest on disk and was not removed. */
  lemma AvailableThroughOutage(r: Run, j: nat, i: nat, x: string)
    requires Injective(r.names) && j <= i < |r.evs| && r.ws[j].mem == EMPTY_MEMORY
    requires FaultFreeBetween(r, j, i + 1) && SelfRunsBetween(r, j, i + 1)
    requires r.evs[i].Iterate? && !r.evs[i].obs.apiAvailable && x !in r.evs[i].obs.localRunning
    requires Tracks(r.mids[i], x) && (Entry(r.mids[i], x).state.StateNone? ==> x in r.evs[i].obs.localParents)
    ensures x in Active(r.ws[i + 1].disk)
    ensures Tracks(r.ws[i + 1].mem, x) && x !in r.decisions[i].removes
  {
    RunSelfStarting(r, j, i);
    SelfStartingStep(r, i);
    RunDecision(r, i);
    assert !SelfStopsAt(r, i);
    OutageStarts(r.mids[i], r.evs[i].obs, r.cfg.grace, r.cfg.pod, x);
    AgreementSinceRestart(r, j, i);
  }

  // ---------------------------------------------------------------------------------------------
  // When the checkpointer stops itself.

  /** The checkpointer runs here, and the API server is down or reports it. */
  predicate RunsHere(obs: Observation, self: string) {
    self in obs.localRunning && !ConditionOf(obs, self).ParentAbsent()
  }

  /** A checkpointer that is to be started stops exactly if it has left its special state, which takes an
      absent parent, and runs here. */
  lemma SelfStopsExactly(m: Memory, obs: Observation, grace: int, cp: CheckpointerPod)
    requires RepOk(m, cp) && m.self.Some? && m.self.value.state.Act() == Start
    ensures SelfAction(m, obs, grace) == Stop <==>
              !m.self.value.state.StateSelfCheckpointActive? && RunsHere(obs, SelfName(cp))
    ensures !ConditionOf(obs, SelfName(cp)).ParentAbsent() && m.self.value.state.StateSelfCheckpointActive? ==>
              NextState(m.self.value, obs, grace).StateSelfCheckpointActive?
  {
    TransitionActions(m.self.value.state, obs.now, grace, ConditionOf(obs, SelfName(cp)));
  }

  ghost function SpecialWorlds(): iset<World> {
    iset w: World | w.mem.self.Some? ==> w.mem.self.value.state.StateSelfCheckpointActive?
  }

  lemma SpecialStep(r: Run, k: nat)
    requires k < |r.evs| && r.ws[k] in SpecialWorlds()
    requires r.evs[k].Iterate? ==> !ConditionOf(r.evs[k].obs, r.cfg.Self()).ParentAbsent()
    ensures r.ws[k + 1] in SpecialWorlds() && !SelfStopsAt(r, k)
  {
    RunFit(r, k);
    RunDecision(r, k);
    RunUpdate(r, k, r.cfg.Self());
    SpecialUpdate(r, k);
    if r.mids[k].self.Some? { SelfStopsExactly(r.mids[k], r.evs[k].obs, r.cfg.grace, r.cfg.pod); }
  }

  lemma SpecialUpdate(r: Run, k: nat)
    requires k < |r.evs| && r.ws[k] in SpecialWorlds()
    ensures r.mids[k].self.Some? ==> r.mids[k].self.value.state.StateSelfCheckpointActive?
  {
    RunStep(r, k);
    var w := r.ws[k];
    UpdatedByName(w.mem, r.evs[k].obs, FileCheckpoints(w.disk.active), FileCheckpoints(w.disk.inactive), r.cfg.pod, r.cfg.Self());
  }

  /** In a run in which no completed iteration sees the checkpointer's own parent absent, the checkpointer
      never stops. */
  lemma NeverAbsentNeverStops(r: Run)
    requires forall k :: 0 <= k < |r.evs| && r.evs[k].Iterate? ==> !ConditionOf(r.evs[k].obs, r.cfg.Self()).ParentAbsent()
    ensures SelfNeverStops(r)
  {
    forall k | 0 <= k < |r.evs| ensures !SelfStopsAt(r, k) {
      forall n | 0 <= n < k && r.ws[n] in SpecialWorlds() ensures r.ws[n + 1] in SpecialWorlds() {
        SpecialStep(r, n);
      }
      Preserved(r.ws, SpecialWorlds(), 0, k);
      SpecialStep(r, k);
    }
  }

  // ---------------------------------------------------------------------------------------------
  // A checkpointer that stops itself.

  /** The stop leaves the memory of the other checkpoints as it is. */
  lemma StartingAfterStop(m: Memory, obs: Observation, grace: int, x: string)
    requires SelfAction(m, obs, grace) == Stop
    ensures Starting(Processed(m, obs, grace).mem, x) <==> x in m.checkpoints && m.checkpoints[x].state.Act() == Start
  {
  }

  /** Where the checkpointer stops itself nothing is left active; memory and disk agree fully afterwards
      exactly if before the decision no other checkpoint was to be started. */
  lemma SelfStopEmptiesActive(cfg: Config, names: set<string>, w: World, ev: Event, w': World)
    requires Fit(cfg, names, w) && Next(cfg, names, w, ev, w') && Injective(names)
    requires ev.Iterate? && ev.io.faults == {} && Settled(w, false)
    requires SelfActs(cfg, w, ev.obs) == Stop
    ensures Active(w'.disk) == {}
    ensures var m := AfterUpdate(cfg, w, ev.obs).checkpoints;
            AgreeFully(w') <==> !exists x :: x in m && m[x].state.Act() == Start
  {
    StepFit(cfg, names, w, ev, w');
    StepAgrees(cfg, names, w, ev, w');
    forall x ensures x !in Active(w'.disk) {
      StoredIsFound(w.disk.active, names, x);
      StoredIsFound(w'.disk.active, names, x);
      if x in names {
        UpdateFit(cfg, names, w, ev.obs);
        UpdatePrepares(cfg, names, w, ev.obs, x);
        SelfStopName(cfg, names, w.disk, AfterUpdate(cfg, w, ev.obs), ev, w', x);
      }
    }
    forall x ensures Starting(w'.mem, x) <==>
      x in AfterUpdate(cfg, w, ev.obs).checkpoints && AfterUpdate(cfg, w, ev.obs).checkpoints[x].state.Act() == Start
    {
      StartingAfterStop(AfterUpdate(cfg, w, ev.obs), ev.obs, cfg.grace, x);
    }
  }

  lemma SelfStopName(cfg: Config, names: set<string>, d: Disk, m: Memory, ev: Event, w': World, x: string)
    requires RepOk(m, cfg.pod) && TracksWithin(m, names) && Injective(names) && x in names
    requires Step(cfg, d, m, Processed(m, ev.obs, cfg.grace).mem, ev, w')
    requires ev.Iterate? && ev.io.faults == {} && SelfAction(m, ev.obs, cfg.grace) == Stop
    requires Stored(d.active, x) ==> Starting(m, x)
    ensures !Stored(w'.disk.active, x)
  {
    var d0, io := Cleaned(d, ev.io.lingering), ev.io;
    DiskAfter(cfg, names, d0, m, ev.obs, io, x);
    CleanedStores(d, io.lingering, x);
    LitteredStores(Replay(d0, Operations(m, io)), io.litter, x);
  }

  // ---------------------------------------------------------------------------------------------
  // What was to be started and is not on disk.

  /** No iteration lists for starting what was to be started already, whatever it observes. */
  lemma NeverStartedAgain(m: Memory, obs: Observation, grace: int, cp: CheckpointerPod, x: string)
    requires RepOk(m, cp) && x in m.checkpoints && m.checkpoints[x].state.Act() == Start
    ensures x !in Processed(m, obs, grace).starts
  {
  }

  /** To be started, not the checkpointer, and not active on disk. */
  predicate Down(r: Run, i: nat, x: string)
    requires i <= |r.evs|
  {
    x != r.cfg.Self() && Starting(r.ws[i].mem, x) && x !in Active(r.ws[i].disk)
  }

  lemma DownStep(r: Run, i: nat, x: string)
    requires Injective(r.names) && i < |r.evs| && Down(r, i, x)
    ensures x in r.mids[i].checkpoints && Starting(r.mids[i], x)
    ensures x !in Active(r.ws[i + 1].disk)
  {
    RunDecision(r, i);
    RunUpdate(r, i, x);
    ManifestsHaveCauses(r, i, x);
    NeverStartedAgain(r.mids[i], r.evs[i].obs, r.cfg.grace, r.cfg.pod, x);
  }

  /** A checkpoint that is to be started but is not on disk, be it because the checkpointer stopped or
      because its start failed, does not come back for as long as it is to be started, in any run. It
      takes an iteration that ends with another action for it, or a restart. */
  lemma DownStaysDown(r: Run, i: nat, n: nat, x: string)
    requires Injective(r.names) && i <= n <= |r.evs| && Down(r, i, x)
    requires forall k :: i <= k < n ==> Starting(r.ws[k].mem, x)
    ensures x !in Active(r.ws[n].disk)
  {
    forall k | i <= k < n && r.ws[k] in Lacking(x) ensures r.ws[k + 1] in Lacking(x) {
      DownStep(r, k, x);
    }
    Preserved(r.ws, Lacking(x), i, n);
  }

  ghost function Lacking(x: string): iset<World> {
    iset w: World | x !in Active(w.disk)
  }

  /** In particular it is down for a whole outage, the converse of AvailableThroughOutage: while the API
      server is away and the pod does not run, it stays to be started and is never started. */
  lemma DownThroughOutage(r: Run, i: nat, n: nat, x: string)
    requires Injective(r.names) && i <= n <= |r.evs| && Down(r, i, x) && SelfStarting(r.ws[i].mem)
    requires SelfRunsBetween(r, i, n)
    requires forall k :: i <= k < n ==> r.evs[k].Iterate? && !r.evs[k].obs.apiAvailable && x !in r.evs[k].obs.localRunning
    ensures Down(r, n, x)
  {
    for k := i to n
      invariant Down(r, k, x) && SelfStarting(r.ws[k].mem)
    {
      assert !SelfStopsAt(r, k);
      SelfStartingStep(r, k);
      OutageStep(r, k, x);
      DownStep(r, k, x);
    }
  }

  lemma OutageStep(r: Run, i: nat, x: string)
    requires i < |r.evs| && SelfStarting(r.mids[i]) && !SelfStopsAt(r, i) && Starting(r.ws[i].mem, x)
    requires r.evs[i].Iterate? && !r.evs[i].obs.apiAvailable && x !in r.evs[i].obs.localRunning
    ensures Starting(r.ws[i + 1].mem, x)
  {
    RunDecision(r, i);
    RunUpdate(r, i, x);
    OutageStarts(r.mids[i], r.evs[i].obs, r.cfg.grace, r.cfg.pod, x);
  }

  // ---------------------------------------------------------------------------------------------
  // A checkpointer that stays stopped.

  predicate Stuck(mem: Memory) {
    mem.self.Some? && mem.self.value.state == StateInactive
  }

  /** How it comes to that: the API server once reports the checkpointer absent and then again present,
      within the grace period and while the checkpointer runs. */
  lemma SelfBecomesStuck(m: Memory, obs: Observation, m': Memory, obs': Observation, grace: int, cp: CheckpointerPod)
    requires RepOk(m, cp) && m.self.Some? && m.self.value.state.StateSelfCheckpointActive?
    requires grace > 0 && ConditionOf(obs, SelfName(cp)).ParentAbsent()
    requires RepOk(m', cp) && KeepsStates(Processed(m, obs, grace).mem, m', SelfName(cp))
    requires ConditionOf(obs', SelfName(cp)).ParentPresent() && SelfName(cp) in obs'.localRunning
    ensures Processed(m, obs, grace).selfAction == Start
    ensures Stuck(Processed(m', obs', grace).mem)
  {
    var s := Processed(m, obs, grace).mem.self.value;
    assert s.state == StateActiveGracePeriod(obs.now + grace);
    assert Tracks(m', SelfName(cp)) && Entry(m', SelfName(cp)) == m'.self.value;
  }

  lemma StuckDecision(m: Memory, obs: Observation, grace: int, cp: CheckpointerPod)
    requires RepOk(m, cp) && Stuck(m) && RunsHere(obs, SelfName(cp))
    ensures SelfAction(m, obs, grace) == Stop
    ensures Processed(m, obs, grace).mem == m
  {
  }

  lemma StuckStep(r: Run, i: nat, x: string)
    requires i < |r.evs| && r.evs[i].Iterate? && Stuck(r.ws[i].mem) && RunsHere(r.evs[i].obs, r.cfg.Self())
    ensures Stuck(r.ws[i + 1].mem) && SelfStopsAt(r, i)
    ensures Tracks(r.ws[i].mem, x) ==> Tracks(r.ws[i + 1].mem, x) && Entry(r.ws[i + 1].mem, x).state == Entry(r.ws[i].mem, x).state
  {
    RunFit(r, i);
    RunDecision(r, i);
    RunUpdate(r, i, x);
    RunUpdate(r, i, r.cfg.Self());
    StuckDecision(r.mids[i], r.evs[i].obs, r.cfg.grace, r.cfg.pod);
  }

  /** A checkpointer that became inactive and runs normally stops everything, for as long as it runs:
      no state ever changes and, if nothing failed since the last loss of memory, no checkpoint is active,
      whatever the API server reports about the other pods and whether they run or not. */
  lemma StoppedCheckpointerFreezes(r: Run, i: nat, n: nat, x: string)
    requires i < n <= |r.evs| && Stuck(r.ws[i].mem)
    requires forall k :: i <= k < n ==> r.evs[k].Iterate? && RunsHere(r.evs[k].obs, r.cfg.Self())
    ensures Tracks(r.ws[i].mem, x) ==> Tracks(r.ws[n].mem, x) && Entry(r.ws[n].mem, x).state == Entry(r.ws[i].mem, x).state
    ensures Injective(r.names) ==> forall j :: 0 <= j < n && r.ws[j].mem == EMPTY_MEMORY && FaultFreeBetween(r, j, n) ==> Active(r.ws[n].disk) == {}
  {
    for k := i to n
      invariant Stuck(r.ws[k].mem)
      invariant Tracks(r.ws[i].mem, x) ==> Tracks(r.ws[k].mem, x) && Entry(r.ws[k].mem, x).state == Entry(r.ws[i].mem, x).state
      invariant k > i ==> SelfStopsAt(r, k - 1)
    {
      StuckStep(r, k, x);
    }
    if Injective(r.names) {
      forall j | 0 <= j < n && r.ws[j].mem == EMPTY_MEMORY && FaultFreeBetween(r, j, n) ensures Active(r.ws[n].disk) == {} {
        RunStopEmpties(r, j, n - 1);
      }
    }
  }

  lemma RunStopEmpties(r: Run, j: nat, k: nat)
    requires Injective(r.names) && j <= k < |r.evs| && r.ws[j].mem == EMPTY_MEMORY && FaultFreeBetween(r, j, k + 1) && SelfStopsAt(r, k)
    ensures Active(r.ws[k + 1].disk) == {}
  {
    RunStep(r, k);
    RunSettled(r, j, k, false);
    assert Settled(r.ws[k], false);
    SelfStopEmptiesActive(r.cfg, r.names, r.ws[k], r.evs[k], r.ws[k + 1]);
  }
}
