/** The state machine of one checkpoint (pkg/checkpoint/state.go).

    Times and the grace period are integers of one unit; the global grace period of the source is
    the explicit parameter `grace`, which may be zero or negative as the command line allows.
 */
module CheckpointState {
  /** What the API server, the kubelet and the container runtime say about one pod. */
  datatype ApiCondition = ApiCondition(apiAvailable: bool, apiParent: bool, localRunning: bool, localParent: bool)
  {
    predicate ParentAbsent() {
      apiAvailable && !apiParent
    }

    predicate ParentPresent() {
      apiAvailable && apiParent
    }
  }

  datatype Action = NoAction | Start | Stop | Remove

  datatype State =
    | StateSelfCheckpointActive
    | StateNone
    | StateInactive
    | StateInactiveGracePeriod(gracePeriodEnd: int)
    | StateActive
    | StateActiveGracePeriod(gracePeriodEnd: int)
    | StateRemove
  {
    function Act(): Action {
      match this
      case StateSelfCheckpointActive => Start
      case StateNone => NoAction
      case StateInactive => Stop
      case StateInactiveGracePeriod(_) => Stop
      case StateActive => Start
      case StateActiveGracePeriod(_) => Start
      case StateRemove => Remove
    }

    function Transition(now: int, grace: int, apis: ApiCondition): State {
      match this
      case StateSelfCheckpointActive =>
        if !apis.apiAvailable then this
        else if apis.apiParent then this
        else CheckActiveGracePeriod(now + grace, now, apis)
      case StateNone =>
        if apis.localRunning || apis.localParent then InactiveTransition(now, grace, apis) else this
      case StateInactive =>
        InactiveTransition(now, grace, apis)
      case StateInactiveGracePeriod(end) =>
        InactiveGracePeriodTransition(end, now, apis)
      case StateActive =>
        if !apis.apiAvailable then
          if apis.localRunning then StateInactive else this
        else if apis.apiParent then
          if apis.localRunning then StateInactive else this
        else
          CheckActiveGracePeriod(now + grace, now, apis)
      case StateActiveGracePeriod(end) =>
        if !apis.apiAvailable then
          if apis.localRunning then StateInactive else CheckActiveGracePeriod(end, now, apis)
        else if apis.apiParent then
          if apis.localRunning then StateInactive else StateActive
        else
          CheckActiveGracePeriod(end, now, apis)
      case StateRemove =>
        this
    }

    predicate HasDeadline() {
      StateInactiveGracePeriod? || StateActiveGracePeriod?
    }

    /** The deadline that governs removal: the running one, or the one an absent parent would set now. */
    function Due(now: int, grace: int): int {
      if HasDeadline() then gracePeriodEnd else now + grace
    }
  }

  function InactiveTransition(now: int, grace: int, apis: ApiCondition): State {
    if !apis.apiAvailable then
      if apis.localRunning then StateInactive else StateActive
    else if apis.apiParent then
      if apis.localRunning then StateInactive else StateActive
    else
      CheckInactiveGracePeriod(now + grace, now)
  }

  function InactiveGracePeriodTransition(end: int, now: int, apis: ApiCondition): State {
    if !apis.apiAvailable then
      if apis.localRunning then CheckInactiveGracePeriod(end, now) else StateActive
    else if apis.apiParent then
      if apis.localRunning then StateInactive else StateActive
    else
      CheckInactiveGracePeriod(end, now)
  }

  function CheckInactiveGracePeriod(end: int, now: int): State {
    if now >= end then StateRemove else StateInactiveGracePeriod(end)
  }

  /** An expired active grace period re-enters the inactive one with its deadline already reached. */
  function CheckActiveGracePeriod(end: int, now: int, apis: ApiCondition): State {
    if now >= end then InactiveGracePeriodTransition(now, now, apis) else StateActiveGracePeriod(end)
  }

  // ---------------------------------------------------------------------------------------------
  // One step, stated by what the observation means rather than by state.

  /** A new pod that neither the runtime nor the kubelet knows is not checkpointed yet. */
  predicate Dormant(s: State, c: ApiCondition) {
    s.StateNone? && !c.localRunning && !c.localParent
  }

  lemma TransitionActions(s: State, now: int, grace: int, c: ApiCondition)
    requires !s.StateRemove?
    ensures var s' := s.Transition(now, grace, c);
            && (s'.Act() == NoAction <==> Dormant(s, c))
            && (s'.StateRemove? <==>
                 && !Dormant(s, c)
                 && now >= s.Due(now, grace)
                 && (c.ParentAbsent() || (s.StateInactiveGracePeriod? && !c.apiAvailable && c.localRunning)))
            && (s'.Act() == Start <==>
                 && !Dormant(s, c)
                 && (if c.ParentAbsent() then s.Act() == Start && now < s.Due(now, grace)
                     else s.StateSelfCheckpointActive? || !c.localRunning))
  {
  }

  /** A deadline is only ever set by an absent parent, to one grace period ahead, and survives only
      observations in which the API server does not report the parent. */
  lemma DeadlineOrigin(s: State, now: int, grace: int, c: ApiCondition)
    ensures var s' := s.Transition(now, grace, c);
            s'.HasDeadline() ==>
              || (s.HasDeadline() && s'.gracePeriodEnd == s.gracePeriodEnd && !c.ParentPresent())
              || (s'.gracePeriodEnd == now + grace && c.ParentAbsent())
  {
  }

  /** Removal needs an elapsed deadline, and the API server not reporting the parent. */
  lemma RemovalOrigin(s: State, now: int, grace: int, c: ApiCondition)
    requires !s.StateRemove? && s.Transition(now, grace, c).StateRemove?
    ensures s.HasDeadline() ==> s.gracePeriodEnd <= now && !c.ParentPresent()
    ensures !s.HasDeadline() ==> now + grace <= now && c.ParentAbsent()
  {
  }

  /** Under an absent parent a tracked machine either removes or waits for its governing deadline. */
  lemma AbsentParentStep(s: State, now: int, grace: int, c: ApiCondition)
    requires c.ParentAbsent() && !s.StateRemove? && !s.StateNone?
    ensures var s' := s.Transition(now, grace, c);
            if now >= s.Due(now, grace) then s'.StateRemove?
            else s'.HasDeadline() && s'.gracePeriodEnd == s.Due(now, grace)
  {
  }

  /** The next state, by what is observed. With the parent reported only the running of the pod counts;
      without the API server running grace periods go on where the action stays the same; and an absent
      parent starts a grace period or lets it go on. */
  lemma NextByObservation(s: State, now: int, grace: int, c: ApiCondition)
    requires !s.StateRemove? && !Dormant(s, c)
    ensures var s' := s.Transition(now, grace, c);
            && (c.apiAvailable && c.apiParent ==>
                 s' == if s.StateSelfCheckpointActive? then s else if c.localRunning then StateInactive else StateActive)
            && (!c.apiAvailable && !s.HasDeadline() ==>
                 s' == if s.StateSelfCheckpointActive? then s else if c.localRunning then StateInactive else StateActive)
            && (!c.apiAvailable && s.StateActiveGracePeriod? ==>
                 s' == if c.localRunning then StateInactive else if now < s.gracePeriodEnd then s else StateActive)
            && (!c.apiAvailable && s.StateInactiveGracePeriod? ==>
                 s' == if !c.localRunning then StateActive else if now < s.gracePeriodEnd then s else StateRemove)
            && (c.apiAvailable && !c.apiParent && s.HasDeadline() ==>
                 s' == if now < s.gracePeriodEnd then s else StateRemove)
            && (c.apiAvailable && !c.apiParent && !s.HasDeadline() ==>
                 s' == if grace <= 0 then StateRemove
                       else if s.StateActive? || s.StateSelfCheckpointActive? then StateActiveGracePeriod(now + grace)
                       else StateInactiveGracePeriod(now + grace))
  {
  }

  /** A new pod that nothing local knows, and a removed one, stay what they are. */
  lemma DormantStays(s: State, now: int, grace: int, c: ApiCondition)
    requires s.StateRemove? || Dormant(s, c)
    ensures s.Transition(now, grace, c) == s
  {
  }

  /** The action stays what it is although the API server is away. */
  predicate ActionUnchanged(s: State, c: ApiCondition) {
    c.apiAvailable || (if s.Act() == Start then !c.localRunning else c.localRunning)
  }

  /** A grace period goes on, with its deadline, exactly while the clock is before it, the parent is not
      reported, and the pod's running does not change the action. */
  lemma KeepsDeadline(s: State, now: int, grace: int, c: ApiCondition)
    requires s.HasDeadline()
    ensures s.Transition(now, grace, c) == s <==> now < s.gracePeriodEnd && !c.ParentPresent() && ActionUnchanged(s, c)
  {
  }

  // ---------------------------------------------------------------------------------------------
  // Runs of one machine under a constant observation.

  ghost predicate IsTrajectory(states: seq<State>, times: seq<int>, grace: int, c: ApiCondition) {
    && |states| == |times| + 1
    && forall i :: 0 <= i < |times| ==> states[i + 1] == states[i].Transition(times[i], grace, c)
  }

  function Changes(states: seq<State>): nat {
    if |states| < 2 then 0
    else Changes(states[..|states| - 1]) + (if states[|states| - 1] == states[|states| - 2] then 0 else 1)
  }

  /** How many state changes the observation `c` still allows. */
  function Unrest(s: State, c: ApiCondition): nat {
    if s.StateRemove? || Dormant(s, c) then 0
    else if c.ParentAbsent() then if s.HasDeadline() then 1 else 2
    else if s.StateSelfCheckpointActive? then 0
    else if s == (if c.localRunning then StateInactive else StateActive) then 0
    else 1
  }

  /** Under the observation `c` a machine only moves down this order of actions. */
  function Rank(a: Action, c: ApiCondition): nat {
    match a
    case Remove => 0
    case NoAction => 3
    case Stop => if c.ParentAbsent() || c.localRunning then 1 else 2
    case Start => if c.ParentAbsent() || c.localRunning then 2 else 1
  }

  lemma StepSettles(s: State, now: int, grace: int, c: ApiCondition)
    ensures var s' := s.Transition(now, grace, c);
            && Unrest(s', c) + (if s' == s then 0 else 1) <= Unrest(s, c)
            && Rank(s'.Act(), c) <= Rank(s.Act(), c)
  {
  }

  lemma {:induction false} ChangesBounded(states: seq<State>, times: seq<int>, grace: int, c: ApiCondition)
    requires IsTrajectory(states, times, grace, c)
    ensures Changes(states) + Unrest(states[|states| - 1], c) <= Unrest(states[0], c)
  {
    if |times| > 0 {
      var n := |times| - 1;
      ChangesBounded(states[..n + 1], times[..n], grace, c);
      StepSettles(states[n], times[n], grace, c);
    }
  }

  lemma {:induction false} RankDescends(states: seq<State>, times: seq<int>, grace: int, c: ApiCondition, i: nat, j: nat)
    requires IsTrajectory(states, times, grace, c) && i <= j < |states|
    ensures Rank(states[j].Act(), c) <= Rank(states[i].Act(), c)
    decreases j - i
  {
    if i < j {
      StepSettles(states[i], times[i], grace, c);
      RankDescends(states, times, grace, c, i + 1, j);
    }
  }

  /** No oscillation, for a run of any length and any clock. */
  lemma NoOscillation(states: seq<State>, times: seq<int>, grace: int, c: ApiCondition)
    requires IsTrajectory(states, times, grace, c)
    ensures Changes(states) <= 2
    ensures forall i, j, k :: 0 <= i < j < k < |states| && states[j].Act() != states[i].Act() ==>
              states[k].Act() != states[i].Act()
  {
    ChangesBounded(states, times, grace, c);
    forall i, j, k | 0 <= i < j < k < |states| && states[j].Act() != states[i].Act()
      ensures states[k].Act() != states[i].Act()
    {
      RankDescends(states, times, grace, c, i, j);
      RankDescends(states, times, grace, c, j, k);
    }
  }
}
