/** Over whole runs, crashes and failing operations included: nothing is garbage collected before a
    full grace period of an absent parent, and with an absent parent everything is, in time. */
module GracePeriod {
  import opened Wrappers
  import opened Pods
  import opened CheckpointState
  import opened Checkpoints
  import opened Runs

  /** Whether an iteration lets the machine of `x` take a step. */
  predicate Fed(m: Memory, d: Decision, self: string, x: string) {
    Tracks(m, x) && (x == self || d.selfAction !in {Stop, Remove})
  }

  lemma DecidedState(m: Memory, obs: Observation, grace: int, cp: CheckpointerPod, x: string)
    requires RepOk(m, cp)
    ensures var d := Processed(m, obs, grace);
            Tracks(d.mem, x) ==>
              && Tracks(m, x)
              && Entry(d.mem, x).state == if Fed(m, d, SelfName(cp), x) then NextState(Entry(m, x), obs, grace) else Entry(m, x).state
  {
    DecisionOnce(m, obs, grace, cp, x);
    if Tracks(m, x) { DecisionFollows(m, obs, grace, cp, x); }
  }

  /** The name whose machine decides the removal of `x`. */
  function Decider(d: Decision, self: string, x: string): string {
    if d.selfAction == Remove then self else x
  }

  /** A removal is decided by the name's own machine, or by the checkpointer's. */
  lemma RemovalDecided(m: Memory, obs: Observation, grace: int, cp: CheckpointerPod, x: string)
    requires RepOk(m, cp) && x in Processed(m, obs, grace).removes
    ensures var d := Processed(m, obs, grace);
            var y := Decider(d, SelfName(cp), x);
            Fed(m, d, SelfName(cp), y) && NextState(Entry(m, y), obs, grace).StateRemove?
  {
    if m.self.Some? { NextStateGood(m.self.value, obs, grace); }
    if x in m.checkpoints { NextStateGood(m.checkpoints[x], obs, grace); }
  }

  // ---------------------------------------------------------------------------------------------
  // The story of one machine.

  /** What one event means to the machine of one pod: when, whether the iteration was completed or cut
      off by a crash, whether the machine took a step, and the observation it would step on. */
  datatype Tick = Tick(now: int, completed: bool, fed: bool, seen: ApiCondition)
  {
    predicate FedAbsent() {
      fed && seen.ParentAbsent()
    }

    predicate FedPresent() {
      fed && seen.ParentPresent()
    }
  }

  function Story(r: Run, x: string): seq<Tick> {
    seq(|r.evs|, i requires 0 <= i < |r.evs| =>
      Tick(r.evs[i].obs.now, r.evs[i].Iterate?, Fed(r.mids[i], r.decisions[i], r.cfg.Self(), x), ConditionOf(r.evs[i].obs, x)))
  }

  function Deadline(mem: Memory, x: string): Option<int> {
    if Tracks(mem, x) && Entry(mem, x).state.HasDeadline() then Some(Entry(mem, x).state.gracePeriodEnd) else None
  }

  /** A deadline after an event was kept, with no parent seen, or is new. */
  predicate DeadlineStep(t: Tick, grace: int, before: Option<int>, after: Option<int>) {
    after.Some? ==>
      && t.completed
      && ((before == after && !t.FedPresent()) || (t.FedAbsent() && after == Some(t.now + grace)))
  }

  /** The parent was seen absent at `j`, and until `i` the memory survived and the parent was not seen. */
  ghost predicate AbsentSince(story: seq<Tick>, j: nat, i: nat) {
    && j < i <= |story|
    && story[j].FedAbsent()
    && forall k :: j <= k < i ==> story[k].completed && !story[k].FedPresent()
  }

  /** A full grace period passed from `j` to `i` without the parent being seen. */
  ghost predicate GraceElapsed(story: seq<Tick>, grace: int, j: nat, i: nat) {
    && j <= i < |story|
    && story[j].FedAbsent()
    && story[j].now + grace <= story[i].now
    && (forall k :: j <= k < i ==> story[k].completed)
    && (forall k :: j <= k <= i ==> !story[k].FedPresent())
  }

  /** Every pending deadline was set by an absent parent, one grace period before it. */
  lemma {:induction false} DeadlineJustified(story: seq<Tick>, grace: int, deadlines: seq<Option<int>>, i: nat)
    requires |deadlines| == |story| + 1 && deadlines[0].None?
    requires forall k :: 0 <= k < |story| ==> DeadlineStep(story[k], grace, deadlines[k], deadlines[k + 1])
    requires i <= |story| && deadlines[i].Some?
    ensures exists j :: 0 <= j < i && AbsentSince(story, j, i) && deadlines[i] == Some(story[j].now + grace)
    decreases i
  {
    var p := i - 1;
    assert DeadlineStep(story[p], grace, deadlines[p], deadlines[p + 1]);
    if deadlines[p] == deadlines[i] && !story[p].FedPresent() {
      DeadlineJustified(story, grace, deadlines, p);
      var j :| 0 <= j < p && AbsentSince(story, j, p) && deadlines[p] == Some(story[j].now + grace);
      assert AbsentSince(story, j, i);
    } else {
      assert AbsentSince(story, p, i);
    }
  }

  // ---------------------------------------------------------------------------------------------
  // The story of a run.

  lemma DecidedDeadline(m: Memory, obs: Observation, grace: int, cp: CheckpointerPod, x: string)
    requires RepOk(m, cp)
    ensures var d := Processed(m, obs, grace);
            DeadlineStep(Tick(obs.now, true, Fed(m, d, SelfName(cp), x), ConditionOf(obs, x)), grace, Deadline(m, x), Deadline(d.mem, x))
  {
    DecidedState(m, obs, grace, cp, x);
    if Tracks(m, x) {
      DeadlineOrigin(Entry(m, x).state, obs.now, grace, ConditionOf(obs, x));
    }
  }

  lemma RunDeadline(r: Run, k: nat, x: string)
    requires k < |r.evs|
    ensures DeadlineStep(Story(r, x)[k], r.cfg.grace, Deadline(r.ws[k].mem, x), Deadline(r.ws[k + 1].mem, x))
  {
    RunDecision(r, k);
    RunUpdate(r, k, x);
    DecidedDeadline(r.mids[k], r.evs[k].obs, r.cfg.grace, r.cfg.pod, x);
  }

  /** Every pending deadline of a run has its reason in the run. */
  lemma RunJustified(r: Run, i: nat, x: string)
    requires i <= |r.evs| && Deadline(r.ws[i].mem, x).Some?
    ensures var story := Story(r, x);
            exists j :: 0 <= j < i && AbsentSince(story, j, i) && Deadline(r.ws[i].mem, x) == Some(story[j].now + r.cfg.grace)
  {
    var deadlines := seq(|r.ws|, k requires 0 <= k < |r.ws| => Deadline(r.ws[k].mem, x));
    forall k | 0 <= k < |r.evs|
      ensures DeadlineStep(Story(r, x)[k], r.cfg.grace, deadlines[k], deadlines[k + 1])
    {
      RunDeadline(r, k, x);
    }
    DeadlineJustified(Story(r, x), r.cfg.grace, deadlines, i);
  }

  /** At a removal the deciding machine's deadline has passed and its parent is not reported. */
  lemma RemovalTick(r: Run, i: nat, x: string)
    requires i < |r.evs| && x in r.decisions[i].removes
    ensures var y := Decider(r.decisions[i], r.cfg.Self(), x);
            var t, deadline := Story(r, y)[i], Deadline(r.ws[i].mem, y);
            && t.fed && !t.FedPresent()
            && ((deadline.Some? && deadline.value <= t.now) || (t.FedAbsent() && t.now + r.cfg.grace <= t.now))
  {
    var y, m, obs := Decider(r.decisions[i], r.cfg.Self(), x), r.mids[i], r.evs[i].obs;
    RunDecision(r, i);
    RemovalDecided(m, obs, r.cfg.grace, r.cfg.pod, x);
    RunUpdate(r, i, y);
    RemovalOrigin(Entry(m, y).state, obs.now, r.cfg.grace, ConditionOf(obs, y));
  }

  /** Grace-period soundness. The machine that decides a removal, the name's own or the checkpointer's,
      saw the parent absent at least a grace period ago and present never since; between the two the
      checkpointer did not restart. */
  lemma NoEarlyRemoval(r: Run, i: nat, x: string)
    requires i < |r.evs| && x in r.decisions[i].removes
    ensures var story := Story(r, Decider(r.decisions[i], r.cfg.Self(), x));
            exists j :: 0 <= j <= i && GraceElapsed(story, r.cfg.grace, j, i)
  {
    var y := Decider(r.decisions[i], r.cfg.Self(), x);
    var story := Story(r, y);
    RemovalTick(r, i, x);
    if story[i].FedAbsent() && story[i].now + r.cfg.grace <= story[i].now {
      assert GraceElapsed(story, r.cfg.grace, i, i);
    } else {
      RunJustified(r, i, y);
      var j :| 0 <= j < i && AbsentSince(story, j, i) && Deadline(r.ws[i].mem, y) == Some(story[j].now + r.cfg.grace);
      assert GraceElapsed(story, r.cfg.grace, j, i);
    }
  }
}
