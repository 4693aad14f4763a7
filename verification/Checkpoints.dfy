/** The in-memory checkpoints and the decisions taken on them (pkg/checkpoint/process.go:14-203). */
module Checkpoints {
  import opened Wrappers
  import opened Strings
  import opened Kubernetes
  import opened Pods
  import opened CheckpointState

  datatype Checkpoint = Checkpoint(name: string, pod: Pod, state: State)

  /** The value of a `CheckpointMap` object between calls. */
  datatype Memory = Memory(checkpoints: map<string, Checkpoint>, self: Option<Checkpoint>)

  const EMPTY_MEMORY := Memory(map[], None)

  /** What one iteration learns from the outside. The three sources are unreliable and unrelated. */
  datatype Observation = Observation(
    now: int,
    apiAvailable: bool,
    apiParents: map<string, Pod>,
    localParents: map<string, Pod>,
    localRunning: map<string, Pod>)

  function ConditionOf(obs: Observation, x: string): ApiCondition {
    ApiCondition(obs.apiAvailable, x in obs.apiParents, x in obs.localRunning, x in obs.localParents)
  }

  /** Every producer of pod maps keys them by full name. */
  ghost predicate Keyed(pods: map<string, Pod>) {
    forall x :: x in pods ==> ValidPod(pods[x]) && FullName(pods[x]) == x
  }

  // ---------------------------------------------------------------------------------------------
  // Updating.

  predicate Tracks(mem: Memory, x: string) {
    x in mem.checkpoints || (mem.self.Some? && mem.self.value.name == x)
  }

  function Entry(mem: Memory, x: string): Checkpoint
    requires Tracks(mem, x)
  {
    if x in mem.checkpoints then mem.checkpoints[x] else mem.self.value
  }

  function TrackedNames(mem: Memory): set<string> {
    mem.checkpoints.Keys + if mem.self.Some? then {mem.self.value.name} else {}
  }

  /** What is known about the pod `x` before any decision. */
  predicate Known(mem: Memory, obs: Observation, active: map<string, Pod>, inactive: map<string, Pod>, x: string) {
    Tracks(mem, x) || x in active || x in inactive || x in obs.localParents || x in obs.apiParents
  }

  /** Memory wins over the disk for the state. */
  function UpdatedState(mem: Memory, active: map<string, Pod>, inactive: map<string, Pod>, cp: CheckpointerPod, x: string): State {
    if Tracks(mem, x) then Entry(mem, x).state
    else if x == SelfName(cp) then StateSelfCheckpointActive
    else if x in active then StateActive
    else if x in inactive then StateInactive
    else StateNone
  }

  /** The parents win over memory and disk for the pod. */
  function UpdatedPod(mem: Memory, obs: Observation, active: map<string, Pod>, inactive: map<string, Pod>, x: string): Pod
    requires Known(mem, obs, active, inactive, x)
  {
    if x in obs.apiParents then obs.apiParents[x]
    else if x in obs.localParents then obs.localParents[x]
    else if Tracks(mem, x) then Entry(mem, x).pod
    else if x in active then active[x]
    else inactive[x]
  }

  function UpdatedEntry(mem: Memory, obs: Observation, active: map<string, Pod>, inactive: map<string, Pod>, cp: CheckpointerPod, x: string): Checkpoint
    requires Known(mem, obs, active, inactive, x)
  {
    Checkpoint(x, UpdatedPod(mem, obs, active, inactive, x), UpdatedState(mem, active, inactive, cp, x))
  }

  /** The memory after an update: one entry for every known name, the checkpointer's own set apart. */
  function Updated(mem: Memory, obs: Observation, active: map<string, Pod>, inactive: map<string, Pod>, cp: CheckpointerPod): Memory {
    var names := TrackedNames(mem) + active.Keys + inactive.Keys + obs.localParents.Keys + obs.apiParents.Keys;
    var self := SelfName(cp);
    Memory(map x | x in names && x != self :: UpdatedEntry(mem, obs, active, inactive, cp, x),
           if self in names then Some(UpdatedEntry(mem, obs, active, inactive, cp, self)) else None)
  }

  lemma UpdatedByName(mem: Memory, obs: Observation, active: map<string, Pod>, inactive: map<string, Pod>, cp: CheckpointerPod, x: string)
    ensures UpdatedAs(Updated(mem, obs, active, inactive, cp), mem, obs, active, inactive, cp, x)
  {
  }

  /** What `u` says about `x` is what an update makes of it. */
  ghost predicate UpdatedAs(u: Memory, mem: Memory, obs: Observation, active: map<string, Pod>, inactive: map<string, Pod>, cp: CheckpointerPod, x: string) {
    && (Tracks(u, x) <==> Known(mem, obs, active, inactive, x))
    && (Tracks(u, x) ==> Entry(u, x) == UpdatedEntry(mem, obs, active, inactive, cp, x))
    && (x in u.checkpoints <==> Tracks(u, x) && x != SelfName(cp))
  }

  /** What an update takes where: the pod from the API server, else the kubelet, else the memory, else the
      active and else the inactive directory; the state from the memory, else from the directory. */
  lemma UpdateSources(mem: Memory, obs: Observation, active: map<string, Pod>, inactive: map<string, Pod>, cp: CheckpointerPod, x: string)
    ensures var u, self := Updated(mem, obs, active, inactive, cp), SelfName(cp);
            && (Tracks(u, x) <==> x in obs.apiParents || x in obs.localParents || Tracks(mem, x) || x in active || x in inactive)
            && (Tracks(u, x) ==> Entry(u, x).name == x && (x in u.checkpoints <==> x != self))
            && (x in obs.apiParents ==> Entry(u, x).pod == obs.apiParents[x])
            && (x !in obs.apiParents && x in obs.localParents ==> Entry(u, x).pod == obs.localParents[x])
            && (x !in obs.apiParents && x !in obs.localParents ==>
                 && (Tracks(mem, x) ==> Entry(u, x).pod == Entry(mem, x).pod)
                 && (!Tracks(mem, x) && x in active ==> Entry(u, x).pod == active[x])
                 && (!Tracks(mem, x) && x !in active && x in inactive ==> Entry(u, x).pod == inactive[x]))
            && (Tracks(mem, x) ==> Entry(u, x).state == Entry(mem, x).state)
            && (Tracks(u, x) && !Tracks(mem, x) ==>
                 && (x == self ==> Entry(u, x).state == StateSelfCheckpointActive)
                 && (x != self && x in active ==> Entry(u, x).state == StateActive)
                 && (x != self && x !in active && x in inactive ==> Entry(u, x).state == StateInactive)
                 && (x != self && x !in active && x !in inactive ==> Entry(u, x).state == StateNone))
  {
    UpdatedByName(mem, obs, active, inactive, cp, x);
  }

  // ---------------------------------------------------------------------------------------------
  // Deciding.

  /** What the checkpointer's own checkpoint does in an iteration, the iteration's lists as sets, and
      the memory it leaves. */
  datatype Decision = Decision(selfAction: Action, mem: Memory, starts: set<string>, stops: set<string>, removes: set<string>)

  function NextState(c: Checkpoint, obs: Observation, grace: int): State {
    c.state.Transition(obs.now, grace, ConditionOf(obs, c.name))
  }

  function Acting(m: map<string, Checkpoint>): set<string> {
    set x | x in m && m[x].state.Act() != NoAction
  }

  function Turning(m: map<string, Checkpoint>, obs: Observation, grace: int, a: Action): set<string> {
    set x | x in m && m[x].state.Act() != a && NextState(m[x], obs, grace).Act() == a
  }

  function Advanced(m: map<string, Checkpoint>, obs: Observation, grace: int): map<string, Checkpoint> {
    map x | x in m && x !in Turning(m, obs, grace, Remove) :: m[x].(state := NextState(m[x], obs, grace))
  }

  /** The action the checkpointer's own checkpoint takes in this iteration, if there is one. */
  function SelfAction(mem: Memory, obs: Observation, grace: int): Action {
    if mem.self.Some? then NextState(mem.self.value, obs, grace).Act() else NoAction
  }

  function Processed(mem: Memory, obs: Observation, grace: int): Decision {
    var m := mem.checkpoints;
    var self := if mem.self.Some? then Some(mem.self.value.(state := NextState(mem.self.value, obs, grace))) else None;
    var selfNames := if mem.self.Some? then {mem.self.value.name} else {};
    var action := SelfAction(mem, obs, grace);
    match action
    case Stop => Decision(action, Memory(m, self), {}, Acting(m) + selfNames, {})
    case Remove => Decision(action, Memory(m - Acting(m) - selfNames, None), {}, {}, Acting(m) + selfNames)
    case _ => Decision(action, Memory(Advanced(m, obs, grace), self),
                       Turning(m, obs, grace, Start) + selfNames, Turning(m, obs, grace, Stop), Turning(m, obs, grace, Remove))
  }

  // ---------------------------------------------------------------------------------------------
  // Lists and invariants.

  ghost predicate Listing(ids: seq<string>, s: set<string>) {
    NoDuplicates(ids) && Elements(ids) == s
  }

  lemma ListingSnoc(ids: seq<string>, s: set<string>, x: string)
    requires Listing(ids, s) && x !in s
    ensures Listing(ids + [x], s + {x})
  {
    assert forall i :: 0 <= i < |ids| ==> ids[i] in Elements(ids);
    assert Elements(ids + [x]) == Elements(ids) + {x};
  }

  /** Visiting one more name extends the list of those turning to `a`, if it is one of them. */
  lemma VisitListing(m: map<string, Checkpoint>, obs: Observation, grace: int, a: Action, todo: set<string>, x: string, ids: seq<string>)
    requires x in todo && todo <= m.Keys
    requires Listing(ids, Turning(m, obs, grace, a) - todo)
    ensures Listing(if x in Turning(m, obs, grace, a) then ids + [x] else ids, Turning(m, obs, grace, a) - (todo - {x}))
  {
    var t := Turning(m, obs, grace, a);
    if x in t {
      ListingSnoc(ids, t - todo, x);
      assert t - (todo - {x}) == t - todo + {x};
    } else {
      assert t - (todo - {x}) == t - todo;
    }
  }

  /** The map when the names in `todo` have not been visited yet. */
  ghost predicate PartWay(before: map<string, Checkpoint>, obs: Observation, grace: int, todo: set<string>, m: map<string, Checkpoint>) {
    && todo <= before.Keys
    && m.Keys == before.Keys - (Turning(before, obs, grace, Remove) - todo)
    && forall x :: x in m ==> m[x] == if x in todo then before[x] else before[x].(state := NextState(before[x], obs, grace))
  }

  lemma VisitMap(before: map<string, Checkpoint>, obs: Observation, grace: int, todo: set<string>, m: map<string, Checkpoint>, x: string)
    requires PartWay(before, obs, grace, todo, m) && x in todo
    ensures x in m && m[x] == before[x]
    ensures PartWay(before, obs, grace, todo - {x},
                    if x in Turning(before, obs, grace, Remove) then m - {x}
                    else m[x := m[x].(state := NextState(m[x], obs, grace))])
    ensures NextState(m[x], obs, grace) == m[x].state ==> PartWay(before, obs, grace, todo - {x}, m)
  {
  }

  lemma VisitedAll(before: map<string, Checkpoint>, obs: Observation, grace: int, m: map<string, Checkpoint>)
    requires PartWay(before, obs, grace, {}, m)
    ensures m == Advanced(before, obs, grace)
  {
  }

  ghost predicate SelfLast(ids: seq<string>, self: string) {
    |ids| > 0 && ids[|ids| - 1] == self && Sorted(ids[..|ids| - 1])
  }

  /** The three lists are duplicate-free listings of the decision, with the order the source promises. */
  ghost predicate IsPlan(mem: Memory, obs: Observation, grace: int, starts: seq<string>, stops: seq<string>, removes: seq<string>) {
    var d := Processed(mem, obs, grace);
    && Listing(starts, d.starts) && Listing(stops, d.stops) && Listing(removes, d.removes)
    && (SelfAction(mem, obs, grace) == Stop ==> SelfLast(stops, mem.self.value.name))
    && (SelfAction(mem, obs, grace) == Remove ==> SelfLast(removes, mem.self.value.name))
  }

  ghost predicate GoodEntry(x: string, c: Checkpoint) {
    c.name == x && ValidPod(c.pod) && FullName(c.pod) == x
  }

  /** Keys are names are full names, no terminal state is kept, and the checkpointer's special state
      belongs to the checkpointer. */
  ghost predicate GoodMap(m: map<string, Checkpoint>, self: string) {
    forall x :: x in m ==>
      && GoodEntry(x, m[x])
      && !m[x].state.StateRemove?
      && (m[x].state.StateSelfCheckpointActive? ==> x == self)
  }

  /** Representation invariant of the object between calls. */
  ghost predicate RepOk(mem: Memory, cp: CheckpointerPod) {
    && GoodMap(mem.checkpoints, SelfName(cp))
    && SelfName(cp) !in mem.checkpoints
    && (mem.self.Some? ==> GoodEntry(SelfName(cp), mem.self.value) && mem.self.value.state.Act() in {Start, Stop})
  }

  lemma UpdatedRepOk(mem: Memory, obs: Observation, active: map<string, Pod>, inactive: map<string, Pod>, cp: CheckpointerPod)
    requires RepOk(mem, cp)
    requires Keyed(active) && Keyed(inactive) && Keyed(obs.localParents) && Keyed(obs.apiParents)
    ensures RepOk(Updated(mem, obs, active, inactive, cp), cp)
  {
    var m := Updated(mem, obs, active, inactive, cp);
    forall x | x in m.checkpoints
      ensures FitEntry(cp, x, m.checkpoints[x]) && x != SelfName(cp)
    {
      UpdatedEntryFit(mem, obs, active, inactive, cp, x);
    }
    if m.self.Some? { UpdatedEntryFit(mem, obs, active, inactive, cp, SelfName(cp)); }
    assert GoodMap(m.checkpoints, SelfName(cp));
  }

  ghost predicate FitEntry(cp: CheckpointerPod, x: string, c: Checkpoint) {
    && GoodEntry(x, c)
    && !c.state.StateRemove?
    && (c.state.StateSelfCheckpointActive? ==> x == SelfName(cp))
    && (x == SelfName(cp) ==> c.state.Act() in {Start, Stop})
  }

  lemma UpdatedEntryFit(mem: Memory, obs: Observation, active: map<string, Pod>, inactive: map<string, Pod>, cp: CheckpointerPod, x: string)
    requires RepOk(mem, cp) && Known(mem, obs, active, inactive, x)
    requires Keyed(active) && Keyed(inactive) && Keyed(obs.localParents) && Keyed(obs.apiParents)
    ensures FitEntry(cp, x, UpdatedEntry(mem, obs, active, inactive, cp, x))
  {
  }

  /** One step keeps an entry fit for the map, unless it is to be removed. */
  lemma NextStateGood(c: Checkpoint, obs: Observation, grace: int)
    requires !c.state.StateRemove?
    ensures var s' := NextState(c, obs, grace);
            && (s'.StateSelfCheckpointActive? ==> c.state.StateSelfCheckpointActive?)
            && (s'.StateRemove? <==> s'.Act() == Remove)
            && (s'.Act() == NoAction ==> c.state.StateNone?)
  {
  }

  lemma ProcessedRepOk(mem: Memory, obs: Observation, grace: int, cp: CheckpointerPod)
    requires RepOk(mem, cp)
    ensures RepOk(Processed(mem, obs, grace).mem, cp)
  {
    var m := Advanced(mem.checkpoints, obs, grace);
    forall x | x in m
      ensures GoodEntry(x, m[x]) && !m[x].state.StateRemove? && !m[x].state.StateSelfCheckpointActive?
    {
      NextStateGood(mem.checkpoints[x], obs, grace);
    }
    if mem.self.Some? { NextStateGood(mem.self.value, obs, grace); }
  }

  /** `process` in terms of the observation, for an iteration in which the checkpointer's own
      checkpoint is absent or active. */
  lemma DecisionMeaning(mem: Memory, obs: Observation, grace: int, cp: CheckpointerPod, x: string)
    requires RepOk(mem, cp)
    requires mem.self.None? || SelfAction(mem, obs, grace) == Start
    requires x in mem.checkpoints
    ensures var d, old_ := Processed(mem, obs, grace), mem.checkpoints[x].state;
            var absent, running := obs.apiAvailable && x !in obs.apiParents, x in obs.localRunning;
            var dormant := old_.StateNone? && !running && x !in obs.localParents;
            && (x in d.starts <==> old_.Act() in {Stop, NoAction} && !dormant && !running && !absent)
            && (x in d.removes <==>
                 && !dormant
                 && obs.now >= (if old_.HasDeadline() then old_.gracePeriodEnd else obs.now + grace)
                 && (absent || (old_.StateInactiveGracePeriod? && !obs.apiAvailable && running)))
            && (x in d.stops <==>
                 && !dormant
                 && x !in d.removes
                 && (if old_.Act() == Start then running && !absent
                     else old_.StateNone? && (running || absent)))
            && (x in d.mem.checkpoints <==> x !in d.removes)
  {
    TransitionActions(mem.checkpoints[x].state, obs.now, grace, ConditionOf(obs, x));
    OtherFollows(mem, obs, grace, cp, x);
  }

  lemma ListingConcat(a: seq<string>, s: set<string>, b: seq<string>, t: set<string>)
    requires Listing(a, s) && Listing(b, t) && s !! t
    ensures Listing(a + b, s + t)
  {
    assert forall i :: 0 <= i < |a| ==> a[i] in Elements(a);
    assert forall i :: 0 <= i < |b| ==> b[i] in Elements(b);
    assert Elements(a + b) == Elements(a) + Elements(b);
  }

  /** The lists for a checkpointer that stops or goes away: everything acting, itself last. */
  lemma SelfLastPlan(mem: Memory, obs: Observation, grace: int, cp: CheckpointerPod, names: seq<string>)
    requires RepOk(mem, cp) && mem.self.Some?
    requires Listing(names, Acting(mem.checkpoints)) && Sorted(names)
    ensures SelfAction(mem, obs, grace) == Stop ==> IsPlan(mem, obs, grace, [], names + [mem.self.value.name], [])
    ensures SelfAction(mem, obs, grace) == Remove ==> IsPlan(mem, obs, grace, [], [], names + [mem.self.value.name])
  {
    var self := mem.self.value.name;
    ListingSnoc(names, Acting(mem.checkpoints), self);
    assert (names + [self])[..|names|] == names;
  }

  /** The lists for a checkpointer that is absent or active. */
  lemma OthersPlan(mem: Memory, obs: Observation, grace: int, cp: CheckpointerPod,
                   first: seq<string>, starts: seq<string>, stops: seq<string>, removes: seq<string>)
    requires RepOk(mem, cp) && SelfAction(mem, obs, grace) in {Start, NoAction}
    requires first == if mem.self.Some? then [mem.self.value.name] else []
    requires Listing(starts, Turning(mem.checkpoints, obs, grace, Start))
    requires Listing(stops, Turning(mem.checkpoints, obs, grace, Stop))
    requires Listing(removes, Turning(mem.checkpoints, obs, grace, Remove))
    ensures IsPlan(mem, obs, grace, first + starts, stops, removes)
  {
    var self := if mem.self.Some? then {mem.self.value.name} else {};
    ListingConcat(first, self, starts, Turning(mem.checkpoints, obs, grace, Start));
    assert self + Turning(mem.checkpoints, obs, grace, Start) == Turning(mem.checkpoints, obs, grace, Start) + self;
  }

  /** The three lists share no name, and name only what was tracked. */
  lemma DecisionDisjoint(mem: Memory, obs: Observation, grace: int, cp: CheckpointerPod)
    requires RepOk(mem, cp)
    ensures var d := Processed(mem, obs, grace);
            && d.starts !! d.stops && d.starts !! d.removes && d.stops !! d.removes
            && (forall x :: x in d.starts + d.stops + d.removes ==> Tracks(mem, x))
            && (forall x :: Tracks(d.mem, x) <==> Tracks(mem, x) && x !in d.removes)
  {
    var d := Processed(mem, obs, grace);
    forall x ensures DecidedOnce(mem, d, x) {
      DecisionOnce(mem, obs, grace, cp, x);
    }
    DisjointByName(mem, d);
  }

  /** `x` is on at most one list, and is tracked afterwards unless it is removed. */
  ghost predicate DecidedOnce(mem: Memory, d: Decision, x: string) {
    && !(x in d.starts && x in d.stops) && !(x in d.starts && x in d.removes) && !(x in d.stops && x in d.removes)
    && (x in d.starts || x in d.stops || x in d.removes ==> Tracks(mem, x))
    && (Tracks(d.mem, x) <==> Tracks(mem, x) && x !in d.removes)
  }

  lemma DisjointByName(mem: Memory, d: Decision)
    requires forall x :: DecidedOnce(mem, d, x)
    ensures d.starts !! d.stops && d.starts !! d.removes && d.stops !! d.removes
    ensures forall x :: x in d.starts + d.stops + d.removes ==> Tracks(mem, x)
    ensures forall x :: Tracks(d.mem, x) <==> Tracks(mem, x) && x !in d.removes
  {
    forall x
      ensures !(x in d.starts && x in d.stops) && !(x in d.starts && x in d.removes) && !(x in d.stops && x in d.removes)
      ensures x in d.starts + d.stops + d.removes ==> Tracks(mem, x)
      ensures Tracks(d.mem, x) <==> Tracks(mem, x) && x !in d.removes
    {
      assert DecidedOnce(mem, d, x);
    }
  }

  /** What a decision makes of the entry `c` for `x`, which would step to `s`. */
  ghost predicate Follows(d: Decision, self: string, x: string, c: Checkpoint, s: State) {
    var others := d.selfAction !in {Stop, Remove};
    && (x in d.starts <==> if x == self then d.selfAction == Start else others && c.state.Act() != Start && s.Act() == Start)
    && (x in d.stops <==> if x == self then d.selfAction == Stop
                          else if d.selfAction == Stop then c.state.Act() != NoAction
                          else others && c.state.Act() != Stop && s.Act() == Stop)
    && (x in d.removes <==> if x == self then d.selfAction == Remove
                            else if d.selfAction == Remove then c.state.Act() != NoAction
                            else others && s.Act() == Remove)
    && (Tracks(d.mem, x) <==> x !in d.removes)
    && (Tracks(d.mem, x) ==> Entry(d.mem, x).state == if x == self || others then s else c.state)
    && (x == self ==> s.Act() == d.selfAction)
  }

  lemma DecisionFollows(mem: Memory, obs: Observation, grace: int, cp: CheckpointerPod, x: string)
    requires RepOk(mem, cp) && Tracks(mem, x)
    ensures Follows(Processed(mem, obs, grace), SelfName(cp), x, Entry(mem, x), NextState(Entry(mem, x), obs, grace))
  {
    if x !in mem.checkpoints {
      SelfFollows(mem, obs, grace, cp);
    } else if SelfAction(mem, obs, grace) == Stop {
      StopFollows(mem, obs, grace, cp, x);
    } else if SelfAction(mem, obs, grace) == Remove {
      RemoveFollows(mem, obs, grace, cp, x);
    } else {
      OtherFollows(mem, obs, grace, cp, x);
    }
  }

  lemma SelfFollows(mem: Memory, obs: Observation, grace: int, cp: CheckpointerPod)
    requires RepOk(mem, cp) && mem.self.Some?
    ensures Follows(Processed(mem, obs, grace), SelfName(cp), SelfName(cp), mem.self.value, NextState(mem.self.value, obs, grace))
  {
    NextStateGood(mem.self.value, obs, grace);
    match SelfAction(mem, obs, grace)
    case Stop =>
    case Remove =>
    case _ =>
  }

  lemma StopFollows(mem: Memory, obs: Observation, grace: int, cp: CheckpointerPod, x: string)
    requires RepOk(mem, cp) && x in mem.checkpoints && SelfAction(mem, obs, grace) == Stop
    ensures Follows(Processed(mem, obs, grace), SelfName(cp), x, mem.checkpoints[x], NextState(mem.checkpoints[x], obs, grace))
  {
  }

  lemma RemoveFollows(mem: Memory, obs: Observation, grace: int, cp: CheckpointerPod, x: string)
    requires RepOk(mem, cp) && x in mem.checkpoints && SelfAction(mem, obs, grace) == Remove
    ensures Follows(Processed(mem, obs, grace), SelfName(cp), x, mem.checkpoints[x], NextState(mem.checkpoints[x], obs, grace))
  {
  }

  lemma OtherFollows(mem: Memory, obs: Observation, grace: int, cp: CheckpointerPod, x: string)
    requires RepOk(mem, cp) && x in mem.checkpoints && SelfAction(mem, obs, grace) !in {Stop, Remove}
    ensures Follows(Processed(mem, obs, grace), SelfName(cp), x, mem.checkpoints[x], NextState(mem.checkpoints[x], obs, grace))
  {
    NextStateGood(mem.checkpoints[x], obs, grace);
  }

  lemma DecisionOnce(mem: Memory, obs: Observation, grace: int, cp: CheckpointerPod, x: string)
    requires RepOk(mem, cp)
    ensures DecidedOnce(mem, Processed(mem, obs, grace), x)
  {
    if Tracks(mem, x) {
      DecisionFollows(mem, obs, grace, cp, x);
      FollowsOnce(mem, Processed(mem, obs, grace), SelfName(cp), x, NextState(Entry(mem, x), obs, grace));
    } else {
      UntrackedStays(mem, obs, grace, x);
    }
  }

  lemma FollowsOnce(mem: Memory, d: Decision, self: string, x: string, s: State)
    requires Tracks(mem, x) && Follows(d, self, x, Entry(mem, x), s)
    ensures DecidedOnce(mem, d, x)
  {
  }

  lemma UntrackedStays(mem: Memory, obs: Observation, grace: int, x: string)
    requires !Tracks(mem, x)
    ensures DecidedOnce(mem, Processed(mem, obs, grace), x)
  {
  }

  /** Nothing about an iteration depends on the order in which maps are traversed, except the order
      of the start list and of lists without the checkpointer. */
  lemma PlansAgree(mem: Memory, obs: Observation, grace: int,
                   starts: seq<string>, stops: seq<string>, removes: seq<string>,
                   starts': seq<string>, stops': seq<string>, removes': seq<string>)
    requires IsPlan(mem, obs, grace, starts, stops, removes) && IsPlan(mem, obs, grace, starts', stops', removes')
    ensures Elements(starts) == Elements(starts') && Elements(stops) == Elements(stops') && Elements(removes) == Elements(removes')
    ensures SelfAction(mem, obs, grace) == Stop ==> stops == stops'
    ensures SelfAction(mem, obs, grace) == Remove ==> removes == removes'
  {
    if SelfAction(mem, obs, grace) == Stop { SelfLastUnique(stops, stops', mem.self.value.name); }
    if SelfAction(mem, obs, grace) == Remove { SelfLastUnique(removes, removes', mem.self.value.name); }
  }

  lemma SelfLastUnique(a: seq<string>, b: seq<string>, self: string)
    requires NoDuplicates(a) && NoDuplicates(b) && Elements(a) == Elements(b)
    requires SelfLast(a, self) && SelfLast(b, self)
    ensures a == b
  {
    var a', b' := a[..|a| - 1], b[..|b| - 1];
    assert a == a' + [self] && b == b' + [self];
    forall x ensures multiset(a')[x] == multiset(b')[x] {
      OnceInNoDuplicates(a', x);
      OnceInNoDuplicates(b', x);
      assert x in a' <==> x in Elements(a) && x != self;
      assert x in b' <==> x in Elements(b) && x != self;
      assert x in multiset(a') <==> x in multiset(b');
    }
    assert multiset(a') == multiset(b');
    SortedUnique(a', b');
  }

  // ---------------------------------------------------------------------------------------------
  // The steps of an update, one for each of its loops.

  function Merged(mem: Memory): map<string, Checkpoint> {
    if mem.self.Some? then mem.checkpoints[mem.self.value.name := mem.self.value] else mem.checkpoints
  }

  function AddFromDisk(m: map<string, Checkpoint>, pods: map<string, Pod>, state: State, cp: CheckpointerPod): (m': map<string, Checkpoint>)
    ensures m'.Keys == m.Keys + pods.Keys
  {
    map x | x in m.Keys + pods.Keys ::
      if x in m then m[x]
      else Checkpoint(x, pods[x], if IsPodCheckpointer(pods[x], cp) then StateSelfCheckpointActive else state)
  }

  /** The map when the pods in `todo` are still to be added. */
  ghost predicate PartAdded(before: map<string, Checkpoint>, pods: map<string, Pod>, state: State, cp: CheckpointerPod, todo: set<string>, m: map<string, Checkpoint>) {
    && m.Keys == before.Keys + (pods.Keys - todo)
    && forall x :: x in m ==> m[x] == AddFromDisk(before, pods, state, cp)[x]
  }

  lemma AddNext(before: map<string, Checkpoint>, pods: map<string, Pod>, state: State, cp: CheckpointerPod, todo: set<string>, m: map<string, Checkpoint>, name: string)
    requires PartAdded(before, pods, state, cp, todo, m) && name in todo && todo <= pods.Keys
    ensures PartAdded(before, pods, state, cp, todo - {name},
                      if name in m then m
                      else m[name := Checkpoint(name, pods[name], if IsPodCheckpointer(pods[name], cp) then StateSelfCheckpointActive else state)])
  {
  }

  function AddParents(m: map<string, Checkpoint>, pods: map<string, Pod>): (m': map<string, Checkpoint>)
    ensures m'.Keys == m.Keys + pods.Keys
  {
    map x | x in m.Keys + pods.Keys ::
      if x !in pods then m[x]
      else if x in m then m[x].(pod := pods[x])
      else Checkpoint(x, pods[x], StateNone)
  }

  /** Takes the checkpointer's own checkpoint out of the map; a new one starts out active. */
  function ExtractSelf(m: map<string, Checkpoint>, old_: Option<Checkpoint>, cp: CheckpointerPod): Memory {
    var s := SelfName(cp);
    if s in m then
      Memory(m - {s}, Some(if m[s].state.Act() == NoAction then m[s].(state := StateSelfCheckpointActive) else m[s]))
    else
      Memory(m, old_)
  }

  function OnDisk(mem: Memory, active: map<string, Pod>, inactive: map<string, Pod>, cp: CheckpointerPod): map<string, Checkpoint> {
    AddFromDisk(AddFromDisk(Merged(mem), active, StateActive, cp), inactive, StateInactive, cp)
  }

  /** All entries after reading the disk and the parents, the checkpointer's own still among them. */
  function Gathered(mem: Memory, obs: Observation, active: map<string, Pod>, inactive: map<string, Pod>, cp: CheckpointerPod): map<string, Checkpoint> {
    AddParents(AddParents(OnDisk(mem, active, inactive, cp), obs.localParents), obs.apiParents)
  }

  lemma AddFromDiskGood(m: map<string, Checkpoint>, pods: map<string, Pod>, state: State, cp: CheckpointerPod)
    requires GoodMap(m, SelfName(cp)) && Keyed(pods) && SlashFree(cp.podNamespace)
    requires state.StateActive? || state.StateInactive?
    ensures GoodMap(AddFromDisk(m, pods, state, cp), SelfName(cp))
  {
    var m' := AddFromDisk(m, pods, state, cp);
    forall x | x in m'
      ensures GoodEntry(x, m'[x]) && !m'[x].state.StateRemove? && (m'[x].state.StateSelfCheckpointActive? ==> x == SelfName(cp))
    {
      if x !in m { CheckpointerByName(pods[x], cp); }
    }
  }

  lemma AddParentsGood(m: map<string, Checkpoint>, pods: map<string, Pod>, self: string)
    requires GoodMap(m, self) && Keyed(pods)
    ensures GoodMap(AddParents(m, pods), self)
  {
    var m' := AddParents(m, pods);
    forall x | x in m'
      ensures GoodEntry(x, m'[x]) && !m'[x].state.StateRemove? && (m'[x].state.StateSelfCheckpointActive? ==> x == self)
    {
      ParentGood(m, pods, self, x);
    }
  }

  lemma ParentGood(m: map<string, Checkpoint>, pods: map<string, Pod>, self: string, x: string)
    requires GoodMap(m, self) && Keyed(pods) && x in AddParents(m, pods)
    ensures var c := AddParents(m, pods)[x];
            GoodEntry(x, c) && !c.state.StateRemove? && (c.state.StateSelfCheckpointActive? ==> x == self)
  {
  }

  lemma GatheredGood(mem: Memory, obs: Observation, active: map<string, Pod>, inactive: map<string, Pod>, cp: CheckpointerPod)
    requires RepOk(mem, cp) && SlashFree(cp.podNamespace)
    requires Keyed(active) && Keyed(inactive) && Keyed(obs.localParents) && Keyed(obs.apiParents)
    ensures GoodMap(Gathered(mem, obs, active, inactive, cp), SelfName(cp))
    ensures mem.self.Some? ==> SelfName(cp) in Gathered(mem, obs, active, inactive, cp)
  {
    assert GoodMap(Merged(mem), SelfName(cp));
    var m1 := AddFromDisk(Merged(mem), active, StateActive, cp);
    AddFromDiskGood(Merged(mem), active, StateActive, cp);
    var m2 := AddFromDisk(m1, inactive, StateInactive, cp);
    AddFromDiskGood(m1, inactive, StateInactive, cp);
    AddParentsGood(m2, obs.localParents, SelfName(cp));
    AddParentsGood(AddParents(m2, obs.localParents), obs.apiParents, SelfName(cp));
  }

  lemma GatheredEntry(mem: Memory, obs: Observation, active: map<string, Pod>, inactive: map<string, Pod>, cp: CheckpointerPod, x: string)
    requires RepOk(mem, cp) && SlashFree(cp.podNamespace) && Keyed(active) && Keyed(inactive)
    ensures GatheredAs(Gathered(mem, obs, active, inactive, cp), mem, obs, active, inactive, cp, x)
  {
    OnDiskEntry(mem, active, inactive, cp, x);
    ParentsEntry(OnDisk(mem, active, inactive, cp), obs.localParents, obs.apiParents, x);
  }

  lemma OnDiskEntry(mem: Memory, active: map<string, Pod>, inactive: map<string, Pod>, cp: CheckpointerPod, x: string)
    requires RepOk(mem, cp) && SlashFree(cp.podNamespace) && Keyed(active) && Keyed(inactive)
    ensures var m := OnDisk(mem, active, inactive, cp);
            && (x in m <==> Tracks(mem, x) || x in active || x in inactive)
            && (x in m ==> m[x] == if Tracks(mem, x) then Entry(mem, x)
                                   else Checkpoint(x, if x in active then active[x] else inactive[x], UpdatedState(mem, active, inactive, cp, x)))
  {
    var m0 := Merged(mem);
    var m1 := AddFromDisk(m0, active, StateActive, cp);
    assert x in m0 <==> Tracks(mem, x);
    assert x in m0 ==> m0[x] == Entry(mem, x);
    if x in active { CheckpointerByName(active[x], cp); }
    if x in inactive { CheckpointerByName(inactive[x], cp); }
    assert x in m1 && x !in m0 ==> m1[x] == Checkpoint(x, active[x], UpdatedState(mem, active, inactive, cp, x));
  }

  lemma ParentsEntry(m: map<string, Checkpoint>, local: map<string, Pod>, api: map<string, Pod>, x: string)
    ensures var m' := AddParents(AddParents(m, local), api);
            && (x in m' <==> x in m || x in local || x in api)
            && (x in m' ==>
                 && m'[x].state == (if x in m then m[x].state else StateNone)
                 && m'[x].pod == if x in api then api[x] else if x in local then local[x] else m[x].pod)
  {
  }

  /** The loops of `update` amount to the update by name. */
  lemma UpdateSteps(mem: Memory, obs: Observation, active: map<string, Pod>, inactive: map<string, Pod>, cp: CheckpointerPod)
    requires RepOk(mem, cp) && SlashFree(cp.podNamespace)
    requires Keyed(active) && Keyed(inactive) && Keyed(obs.localParents) && Keyed(obs.apiParents)
    ensures ExtractSelf(Gathered(mem, obs, active, inactive, cp), mem.self, cp) == Updated(mem, obs, active, inactive, cp)
  {
    var m := Gathered(mem, obs, active, inactive, cp);
    GatheredGood(mem, obs, active, inactive, cp);
    forall x ensures GatheredAs(m, mem, obs, active, inactive, cp, x) {
      GatheredEntry(mem, obs, active, inactive, cp, x);
    }
    StepsByName(m, mem, obs, active, inactive, cp);
  }

  lemma RebuildSteps(mem: Memory, obs: Observation, active: map<string, Pod>, inactive: map<string, Pod>, cp: CheckpointerPod)
    requires RepOk(mem, cp) && SlashFree(cp.podNamespace)
    requires Keyed(active) && Keyed(inactive) && Keyed(obs.localParents) && Keyed(obs.apiParents)
    ensures GoodMap(Gathered(mem, obs, active, inactive, cp), SelfName(cp))
    ensures ExtractSelf(Gathered(mem, obs, active, inactive, cp), mem.self, cp) == Updated(mem, obs, active, inactive, cp)
  {
    GatheredGood(mem, obs, active, inactive, cp);
    UpdateSteps(mem, obs, active, inactive, cp);
  }

  ghost predicate GatheredAs(m: map<string, Checkpoint>, mem: Memory, obs: Observation, active: map<string, Pod>, inactive: map<string, Pod>, cp: CheckpointerPod, x: string) {
    && (x in m <==> Known(mem, obs, active, inactive, x))
    && (x in m ==>
         && m[x].pod == UpdatedPod(mem, obs, active, inactive, x)
         && (m[x].state == UpdatedState(mem, active, inactive, cp, x)
             || (x == SelfName(cp) && m[x].state.StateNone? && !Tracks(mem, x))))
  }

  lemma StepsByName(m: map<string, Checkpoint>, mem: Memory, obs: Observation, active: map<string, Pod>, inactive: map<string, Pod>, cp: CheckpointerPod)
    requires GoodMap(m, SelfName(cp)) && (mem.self.Some? ==> SelfName(cp) in m) && RepOk(mem, cp)
    requires forall x :: GatheredAs(m, mem, obs, active, inactive, cp, x)
    ensures ExtractSelf(m, mem.self, cp) == Updated(mem, obs, active, inactive, cp)
  {
    var u, e := Updated(mem, obs, active, inactive, cp), ExtractSelf(m, mem.self, cp);
    assert GatheredAs(m, mem, obs, active, inactive, cp, SelfName(cp));
    StepSelf(m, mem, obs, active, inactive, cp);
    forall x ensures SameAt(u.checkpoints, e.checkpoints, x) {
      assert GatheredAs(m, mem, obs, active, inactive, cp, x);
      StepName(m, mem, obs, active, inactive, cp, x);
    }
    SameMaps(u.checkpoints, e.checkpoints);
  }

  ghost predicate SameAt(m: map<string, Checkpoint>, m': map<string, Checkpoint>, x: string) {
    (x in m <==> x in m') && (x in m ==> m[x] == m'[x])
  }

  lemma SameMaps(m: map<string, Checkpoint>, m': map<string, Checkpoint>)
    requires forall x :: SameAt(m, m', x)
    ensures m == m'
  {
    assert forall x :: x in m ==> SameAt(m, m', x);
    forall x ensures x in m <==> x in m' { assert SameAt(m, m', x); }
  }

  lemma StepSelf(m: map<string, Checkpoint>, mem: Memory, obs: Observation, active: map<string, Pod>, inactive: map<string, Pod>, cp: CheckpointerPod)
    requires GatheredAs(m, mem, obs, active, inactive, cp, SelfName(cp)) && RepOk(mem, cp)
    requires SelfName(cp) in m ==> GoodEntry(SelfName(cp), m[SelfName(cp)])
    requires mem.self.Some? ==> SelfName(cp) in m
    ensures ExtractSelf(m, mem.self, cp).self == Updated(mem, obs, active, inactive, cp).self
  {
  }

  lemma StepName(m: map<string, Checkpoint>, mem: Memory, obs: Observation, active: map<string, Pod>, inactive: map<string, Pod>, cp: CheckpointerPod, x: string)
    requires GatheredAs(m, mem, obs, active, inactive, cp, x) && (x in m ==> GoodEntry(x, m[x]))
    ensures var u, e := Updated(mem, obs, active, inactive, cp), ExtractSelf(m, mem.self, cp);
            && (x in u.checkpoints <==> x in e.checkpoints)
            && (x in u.checkpoints ==> u.checkpoints[x] == e.checkpoints[x])
  {
  }

  // ---------------------------------------------------------------------------------------------
  // The object.

  class CheckpointMap {
    var checkpoints: map<string, Checkpoint>
    var selfCheckpoint: Option<Checkpoint>

    ghost function View(): Memory
      reads this
    {
      Memory(checkpoints, selfCheckpoint)
    }

    constructor ()
      ensures View() == EMPTY_MEMORY
    {
      checkpoints, selfCheckpoint := map[], None;
    }

    method AddOnDisk(pods: map<string, Pod>, state: State, cp: CheckpointerPod)
      modifies this`checkpoints
      ensures checkpoints == AddFromDisk(old(checkpoints), pods, state, cp)
    {
      var todo := pods.Keys;
      ghost var before := checkpoints;
      while todo != {}
        invariant todo <= pods.Keys
        invariant PartAdded(before, pods, state, cp, todo, checkpoints)
      {
        var name :| name in todo;
        AddNext(before, pods, state, cp, todo, checkpoints, name);
        if name !in checkpoints {
          var c := Checkpoint(name, pods[name], state);
          if IsPodCheckpointer(pods[name], cp) {
            c := c.(state := StateSelfCheckpointActive);
          }
          checkpoints := checkpoints[name := c];
        }
        todo := todo - {name};
      }
    }

    method AddFromParents(pods: map<string, Pod>)
      modifies this`checkpoints
      ensures checkpoints == AddParents(old(checkpoints), pods)
    {
      var todo := pods.Keys;
      ghost var before := checkpoints;
      while todo != {}
        invariant todo <= pods.Keys
        invariant checkpoints.Keys == before.Keys + (pods.Keys - todo)
        invariant forall x :: x in checkpoints ==>
                    checkpoints[x] == if x in todo then before[x] else AddParents(before, pods)[x]
      {
        var name :| name in todo;
        if name !in checkpoints {
          checkpoints := checkpoints[name := Checkpoint(name, pods[name], StateNone)];
        }
        checkpoints := checkpoints[name := checkpoints[name].(pod := pods[name])];
        todo := todo - {name};
      }
    }

    /** At most one entry can be the checkpointer, so the order of the search does not matter. */
    method SeparateSelf(cp: CheckpointerPod)
      requires SlashFree(cp.podNamespace)
      requires GoodMap(checkpoints, SelfName(cp))
      modifies this
      ensures View() == ExtractSelf(old(checkpoints), old(selfCheckpoint), cp)
    {
      ghost var before, self := checkpoints, SelfName(cp);
      var todo := checkpoints.Keys;
      while todo != {}
        invariant todo <= before.Keys
        invariant checkpoints == if self in todo then before else before - {self}
        invariant selfCheckpoint == if self in todo || self !in before then old(selfCheckpoint) else ExtractSelf(before, old(selfCheckpoint), cp).self
      {
        var name :| name in todo;
        var c := checkpoints[name];
        CheckpointerByName(c.pod, cp);
        if IsPodCheckpointer(c.pod, cp) {
          checkpoints := checkpoints - {c.name};
          selfCheckpoint := Some(c);
          if c.state.Act() == NoAction {
            selfCheckpoint := Some(c.(state := StateSelfCheckpointActive));
          }
        }
        todo := todo - {name};
      }
    }

    method Update(obs: Observation, active: map<string, Pod>, inactive: map<string, Pod>, cp: CheckpointerPod)
      requires RepOk(View(), cp) && SlashFree(cp.podNamespace)
      requires Keyed(active) && Keyed(inactive) && Keyed(obs.localParents) && Keyed(obs.apiParents)
      modifies this
      ensures View() == Updated(old(View()), obs, active, inactive, cp)
      ensures RepOk(View(), cp)
    {
      UpdatedRepOk(View(), obs, active, inactive, cp);
      RebuildSteps(View(), obs, active, inactive, cp);
      Rebuild(obs, active, inactive, cp);
    }

    /** The loops of the update, one after the other. */
    method Rebuild(obs: Observation, active: map<string, Pod>, inactive: map<string, Pod>, cp: CheckpointerPod)
      requires SlashFree(cp.podNamespace) && GoodMap(Gathered(View(), obs, active, inactive, cp), SelfName(cp))
      modifies this
      ensures View() == ExtractSelf(Gathered(old(View()), obs, active, inactive, cp), old(selfCheckpoint), cp)
    {
      Gather(obs, active, inactive, cp);
      SeparateSelf(cp);
    }

    method Gather(obs: Observation, active: map<string, Pod>, inactive: map<string, Pod>, cp: CheckpointerPod)
      modifies this`checkpoints
      ensures checkpoints == Gathered(old(View()), obs, active, inactive, cp)
    {
      // The checkpointer's own checkpoint is put into the map so that it is updated as well.
      if selfCheckpoint.Some? {
        checkpoints := checkpoints[selfCheckpoint.value.name := selfCheckpoint.value];
      }
      AddOnDisk(active, StateActive, cp);
      AddOnDisk(inactive, StateInactive, cp);
      AddFromParents(obs.localParents);
      AddFromParents(obs.apiParents);
    }

    /** Names whose state has an action, in the order of `sort.Strings`. */
    method SortedActing() returns (names: seq<string>)
      ensures Listing(names, Acting(checkpoints)) && Sorted(names)
    {
      names := [];
      var todo := checkpoints.Keys;
      while todo != {}
        invariant todo <= checkpoints.Keys
        invariant Listing(names, Acting(checkpoints) - todo)
      {
        var name :| name in todo;
        if checkpoints[name].state.Act() != NoAction {
          ListingSnoc(names, Acting(checkpoints) - todo, name);
          names := names + [name];
          assert Acting(checkpoints) - (todo - {name}) == Acting(checkpoints) - todo + {name};
        } else {
          assert Acting(checkpoints) - (todo - {name}) == Acting(checkpoints) - todo;
        }
        todo := todo - {name};
      }
      SortedKeepsSet(names);
      SortStringsCorrect(names);
      names := SortStrings(names);
    }

    method Process(obs: Observation, grace: int, ghost cp: CheckpointerPod)
      returns (starts: seq<string>, stops: seq<string>, removes: seq<string>)
      requires RepOk(View(), cp)
      modifies this
      ensures View() == Processed(old(View()), obs, grace).mem
      ensures IsPlan(old(View()), obs, grace, starts, stops, removes)
      ensures RepOk(View(), cp)
    {
      starts, stops, removes := [], [], [];
      ghost var mem := View();
      ProcessedRepOk(mem, obs, grace, cp);
      if selfCheckpoint.Some? {
        var self := selfCheckpoint.value;
        var state := NextState(self, obs, grace);
        NextStateGood(self, obs, grace);
        if state != self.state {
          selfCheckpoint := Some(self.(state := state));
        }
        match state.Act() {
          case NoAction =>
            assert false;
          case Start =>
            starts := [self.name];
          case Stop =>
            stops := SortedActing();
            SelfLastPlan(mem, obs, grace, cp, stops);
            stops := stops + [self.name];
            return;
          case Remove =>
            removes := SortedActing();
            SelfLastPlan(mem, obs, grace, cp, removes);
            checkpoints := checkpoints - Acting(checkpoints);
            removes := removes + [self.name];
            checkpoints := checkpoints - {self.name};
            selfCheckpoint := None;
            return;
        }
      }
      var starts', stops', removes' := ProcessOthers(obs, grace, cp);
      OthersPlan(mem, obs, grace, cp, starts, starts', stops', removes');
      starts, stops, removes := starts + starts', stops', removes';
    }

    method ProcessOthers(obs: Observation, grace: int, ghost cp: CheckpointerPod)
      returns (starts: seq<string>, stops: seq<string>, removes: seq<string>)
      requires RepOk(Memory(checkpoints, None), cp)
      modifies this`checkpoints
      ensures checkpoints == Advanced(old(checkpoints), obs, grace)
      ensures Listing(starts, Turning(old(checkpoints), obs, grace, Start))
      ensures Listing(stops, Turning(old(checkpoints), obs, grace, Stop))
      ensures Listing(removes, Turning(old(checkpoints), obs, grace, Remove))
    {
      starts, stops, removes := [], [], [];
      ghost var before := checkpoints;
      var todo := checkpoints.Keys;
      while todo != {}
        invariant PartWay(before, obs, grace, todo, checkpoints)
        invariant Listing(starts, Turning(before, obs, grace, Start) - todo)
        invariant Listing(stops, Turning(before, obs, grace, Stop) - todo)
        invariant Listing(removes, Turning(before, obs, grace, Remove) - todo)
      {
        var name :| name in todo;
        VisitMap(before, obs, grace, todo, checkpoints, name);
        VisitListing(before, obs, grace, Start, todo, name, starts);
        VisitListing(before, obs, grace, Stop, todo, name, stops);
        VisitListing(before, obs, grace, Remove, todo, name, removes);
        var c := checkpoints[name];
        var state := NextState(c, obs, grace);
        NextStateGood(c, obs, grace);
        if state != c.state {
          if c.state.Act() != state.Act() {
            match state.Act() {
              case NoAction => assert false;
              case Start => starts := starts + [c.name];
              case Stop => stops := stops + [c.name];
              case Remove =>
                removes := removes + [c.name];
                checkpoints := checkpoints - {c.name};
            }
          }
          if c.name in checkpoints {
            checkpoints := checkpoints[name := c.(state := state)];
          }
        }
        todo := todo - {name};
      }
      VisitedAll(before, obs, grace, checkpoints);
    }
  }
}
