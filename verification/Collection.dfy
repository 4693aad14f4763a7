/** Bounded garbage collection: a checkpoint whose parent stays absent is removed in time. */
module Collection {
  import opened Pods
  import opened CheckpointState
  import opened Checkpoints
  import opened Runs
  import opened GracePeriod
  import opened Disk
  import opened Agreement
  import opened Causes

  ghost predicate NondecreasingClock(r: Run) {
    forall i, j :: 0 <= i <= j < |r.evs| ==> r.evs[i].obs.now <= r.evs[j].obs.now
  }

  /** A completed iteration that sees the parent of `x` absent and does not stop the checkpointer. */
  predicate CollectsAt(r: Run, k: nat, x: string)
    requires k < |r.evs|
  {
    && r.evs[k].Iterate?
    && ConditionOf(r.evs[k].obs, x).ParentAbsent()
    && r.decisions[k].selfAction != Stop
  }

  predicate RemovedAt(r: Run, k: nat, x: string)
    requires k < |r.evs|
  {
    x in r.decisions[k].removes
  }

  /** `x` waits, with a deadline not after `limit`. */
  predicate Waiting(mem: Memory, x: string, limit: int) {
    Deadline(mem, x).Some? && Deadline(mem, x).value <= limit
  }

  lemma CollectStep(m: Memory, obs: Observation, grace: int, cp: CheckpointerPod, x: string, limit: int)
    requires RepOk(m, cp) && Tracks(m, x) && !Entry(m, x).state.StateNone?
    requires ConditionOf(obs, x).ParentAbsent() && SelfAction(m, obs, grace) != Stop
    requires Entry(m, x).state.Due(obs.now, grace) <= limit
    ensures var d := Processed(m, obs, grace);
            x in d.removes || (Waiting(d.mem, x, limit) && obs.now < limit)
  {
    AbsentParentStep(Entry(m, x).state, obs.now, grace, ConditionOf(obs, x));
    DecisionFollows(m, obs, grace, cp, x);
    CollectFollows(Processed(m, obs, grace), SelfName(cp), x, Entry(m, x), NextState(Entry(m, x), obs, grace), obs.now, limit);
  }

  lemma CollectFollows(d: Decision, self: string, x: string, c: Checkpoint, s: State, now: int, limit: int)
    requires Follows(d, self, x, c, s) && d.selfAction != Stop && c.state.Act() != NoAction
    requires s.StateRemove? || (s.HasDeadline() && now < s.gracePeriodEnd <= limit)
    ensures x in d.removes || (Waiting(d.mem, x, limit) && now < limit)
  {
  }

  lemma WaitingStep(r: Run, k: nat, x: string, limit: int)
    requires k < |r.evs| && CollectsAt(r, k, x) && Waiting(r.ws[k].mem, x, limit)
    ensures RemovedAt(r, k, x) || (Waiting(r.ws[k + 1].mem, x, limit) && r.evs[k].obs.now < limit)
  {
    RunDecision(r, k);
    RunUpdate(r, k, x);
    CollectStep(r.mids[k], r.evs[k].obs, r.cfg.grace, r.cfg.pod, x, limit);
  }

  /** No deadline is more than a grace period ahead. */
  lemma DeadlineBound(r: Run, k: nat, x: string)
    requires k < |r.evs| && NondecreasingClock(r) && Deadline(r.ws[k].mem, x).Some?
    ensures Deadline(r.ws[k].mem, x).value <= r.evs[k].obs.now + r.cfg.grace
  {
    RunJustified(r, k, x);
  }

  /** The first iteration with the parent absent, also for a name that is already waiting. */
  lemma FirstAbsence(r: Run, k: nat, x: string)
    requires k < |r.evs| && CollectsAt(r, k, x) && NondecreasingClock(r)
    requires Tracks(r.mids[k], x) && !Entry(r.mids[k], x).state.StateNone?
    ensures var limit := r.evs[k].obs.now + r.cfg.grace;
            RemovedAt(r, k, x) || (Waiting(r.ws[k + 1].mem, x, limit) && r.evs[k].obs.now < limit)
  {
    RunDecision(r, k);
    RunUpdate(r, k, x);
    if Deadline(r.ws[k].mem, x).Some? { DeadlineBound(r, k, x); }
    CollectStep(r.mids[k], r.evs[k].obs, r.cfg.grace, r.cfg.pod, x, r.evs[k].obs.now + r.cfg.grace);
  }

  /** If from event `i` on every iteration sees the parent of a tracked `x` absent, `x` is removed at
      the latest by the first iteration a grace period after `i`. */
  lemma RemovedInTime(r: Run, i: nat, n: nat, x: string)
    requires i <= n < |r.evs| && NondecreasingClock(r)
    requires forall k :: i <= k <= n ==> CollectsAt(r, k, x)
    requires Tracks(r.mids[i], x) && !Entry(r.mids[i], x).state.StateNone?
    requires r.evs[n].obs.now >= r.evs[i].obs.now + r.cfg.grace
    ensures exists k :: i <= k <= n && RemovedAt(r, k, x)
  {
    var limit := r.evs[i].obs.now + r.cfg.grace;
    FirstAbsence(r, i, x);
    var k := i;
    while k < n && !RemovedAt(r, k, x)
      invariant i <= k <= n
      invariant RemovedAt(r, k, x) || (Waiting(r.ws[k + 1].mem, x, limit) && r.evs[k].obs.now < limit)
    {
      k := k + 1;
      assert CollectsAt(r, k, x);
      WaitingStep(r, k, x, limit);
    }
    assert RemovedAt(r, k, x);
  }

  /** A completed iteration without the API server in which a running grace period of `x` goes on. */
  predicate WaitsAt(r: Run, k: nat, x: string)
    requires k < |r.evs|
  {
    && r.evs[k].Iterate? && !r.evs[k].obs.apiAvailable
    && Deadline(r.ws[k].mem, x).Some? && r.evs[k].obs.now < Deadline(r.ws[k].mem, x).value
    && (x in r.evs[k].obs.localRunning <==> Entry(r.ws[k].mem, x).state.Act() == Stop)
  }

  /** An iteration that keeps a deadline keeps it exactly, or the checkpointer removes everything. */
  lemma WaitFollows(d: Decision, self: string, x: string, c: Checkpoint, s: State)
    requires Follows(d, self, x, c, s) && c.state.HasDeadline() && s == c.state
    ensures x in d.removes || (Tracks(d.mem, x) && Entry(d.mem, x).state == c.state)
  {
  }

  lemma DeadlineSurvives(r: Run, k: nat, x: string)
    requires k < |r.evs| && WaitsAt(r, k, x)
    ensures RemovedAt(r, k, x) || Deadline(r.ws[k + 1].mem, x) == Deadline(r.ws[k].mem, x)
  {
    RunDecision(r, k);
    RunUpdate(r, k, x);
    var m, obs := r.mids[k], r.evs[k].obs;
    KeepsDeadline(Entry(m, x).state, obs.now, r.cfg.grace, ConditionOf(obs, x));
    DecisionFollows(m, obs, r.cfg.grace, r.cfg.pod, x);
    WaitFollows(r.decisions[k], r.cfg.Self(), x, Entry(m, x), NextState(Entry(m, x), obs, r.cfg.grace));
  }

  /** A deadline once set survives every iteration without the API server until it passes or the action
      changes. */
  lemma DeadlineOutlastsOutage(r: Run, i: nat, n: nat, x: string)
    requires i <= n <= |r.evs| && Deadline(r.ws[i].mem, x).Some?
    requires forall k :: i <= k < n ==> WaitsAt(r, k, x) && !RemovedAt(r, k, x)
    ensures Deadline(r.ws[n].mem, x) == Deadline(r.ws[i].mem, x)
  {
    for k := i to n
      invariant Deadline(r.ws[k].mem, x) == Deadline(r.ws[i].mem, x)
    {
      assert WaitsAt(r, k, x) && !RemovedAt(r, k, x);
      DeadlineSurvives(r, k, x);
    }
  }

  /** Bounded garbage collection with an API server that comes and goes: if from event `i` on every
      iteration sees the parent absent, or goes on with the grace period without the API server, then `x` is
      removed at the latest by the first absence a grace period after `i`. */
  lemma RemovedDespiteOutages(r: Run, i: nat, n: nat, x: string)
    requires i <= n < |r.evs| && NondecreasingClock(r)
    requires forall k :: i <= k <= n ==> CollectsAt(r, k, x) || WaitsAt(r, k, x)
    requires CollectsAt(r, i, x) && CollectsAt(r, n, x)
    requires Tracks(r.mids[i], x) && !Entry(r.mids[i], x).state.StateNone?
    requires r.evs[n].obs.now >= r.evs[i].obs.now + r.cfg.grace
    ensures exists k :: i <= k <= n && RemovedAt(r, k, x)
  {
    var limit := r.evs[i].obs.now + r.cfg.grace;
    FirstAbsence(r, i, x);
    var k := i;
    while k < n && !RemovedAt(r, k, x)
      invariant i <= k <= n
      invariant RemovedAt(r, k, x) || Waiting(r.ws[k + 1].mem, x, limit)
      invariant !RemovedAt(r, k, x) && CollectsAt(r, k, x) ==> r.evs[k].obs.now < limit
    {
      k := k + 1;
      if CollectsAt(r, k, x) {
        WaitingStep(r, k, x, limit);
      } else {
        assert WaitsAt(r, k, x);
        DeadlineSurvives(r, k, x);
      }
    }
    assert RemovedAt(r, k, x);
  }

  /** And it is off the disk then, if nothing fails. */
  lemma DeletedInTime(r: Run, i: nat, n: nat, x: string)
    requires i <= n < |r.evs| && NondecreasingClock(r) && Injective(r.names) && FaultFreeBetween(r, i, n + 1)
    requires forall k :: i <= k <= n ==> CollectsAt(r, k, x)
    requires Tracks(r.mids[i], x) && !Entry(r.mids[i], x).state.StateNone?
    requires r.evs[n].obs.now >= r.evs[i].obs.now + r.cfg.grace
    ensures exists k :: i <= k <= n && RemovedAt(r, k, x) && x !in Active(r.ws[k + 1].disk) && x !in Inactive(r.ws[k + 1].disk)
  {
    RemovedInTime(r, i, n, x);
    var k :| i <= k <= n && RemovedAt(r, k, x);
    assert CollectsAt(r, k, x);
    RemovalDeletes(r, k, x);
  }

  /** An iteration without failures takes what it removes off the disk. */
  lemma RemovalDeletes(r: Run, k: nat, x: string)
    requires k < |r.evs| && r.evs[k].Iterate? && r.evs[k].io.faults == {} && Injective(r.names) && RemovedAt(r, k, x)
    ensures x !in Active(r.ws[k + 1].disk) && x !in Inactive(r.ws[k + 1].disk)
  {
    RunFound(r, k + 1, x);
    if x in r.names {
      RunEvent(r, k);
      var d0, io := Cleaned(r.ws[k].disk, r.evs[k].io.lingering), r.evs[k].io;
      DiskAfter(r.cfg, r.names, d0, r.mids[k], r.evs[k].obs, io, x);
      LitteredStores(Replay(d0, Operations(r.mids[k], io)), io.litter, x);
    }
  }
}
