/** The discovery cache (pkg/bootkube/create.go).

    Callers of resourceInfo interleave at the two locked sections, at the discovery request between
    them and at their returns; the API server may start to serve more kinds at any time.
 */
module ResourceMapper {
  import opened Wrappers

  datatype APIResource = APIResource(kind: string, name: string, namespaced: bool)

  /** The resource lists by group version. */
  type Lists = map<string, seq<APIResource>>

  /** The first entry of a kind. */
  function Find(l: seq<APIResource>, kind: string): (r: Option<APIResource>)
    ensures r.Some? <==> exists e :: e in l && e.kind == kind
    ensures r.Some? ==> r.value in l && r.value.kind == kind
  {
    if l == [] then None
    else if l[0].kind == kind then Some(l[0])
    else Find(l[1..], kind)
  }

  /** No entry before the one found has the kind. */
  lemma {:induction false} FindFirst(l: seq<APIResource>, kind: string)
    requires Find(l, kind).Some?
    ensures exists k :: 0 <= k < |l| && l[k] == Find(l, kind).value && forall j :: 0 <= j < k ==> l[j].kind != kind
  {
    if l[0].kind != kind {
      FindFirst(l[1..], kind);
      var k :| 0 <= k < |l[1..]| && l[1..][k] == Find(l[1..], kind).value && forall j :: 0 <= j < k ==> l[1..][j].kind != kind;
      assert l[k + 1] == Find(l, kind).value;
      forall j | 0 <= j < k + 1 ensures l[j].kind != kind {
        if j > 0 { assert l[1..][j - 1] == l[j]; }
      }
    }
  }

  datatype Answer = Found(resource: APIResource) | NotFound | DiscoveryFailed

  function AnswerFrom(l: seq<APIResource>, kind: string): Answer {
    match Find(l, kind) case Some(r) => Found(r) case None => NotFound
  }

  /** What discovery without a cache answers. */
  function Uncached(server: Lists, gv: string, kind: string): Answer {
    if gv in server then AnswerFrom(server[gv], kind) else DiscoveryFailed
  }

  // ---------------------------------------------------------------------------------------------
  // Growth.

  /** Every kind of `l` has the same first entry in `l'`. */
  ghost predicate Extends(l': seq<APIResource>, l: seq<APIResource>) {
    forall kind :: Find(l, kind).Some? ==> Find(l', kind) == Find(l, kind)
  }

  /** The lists of `snapshot` are earlier versions of those of `server`. */
  ghost predicate Snapshot(snapshot: Lists, server: Lists) {
    forall gv :: gv in snapshot ==> gv in server && Extends(server[gv], snapshot[gv])
  }

  lemma SnapshotTransitive(a: Lists, b: Lists, c: Lists)
    requires Snapshot(a, b) && Snapshot(b, c)
    ensures Snapshot(a, c)
  {
    forall gv | gv in a ensures Extends(c[gv], a[gv]) {
      assert Extends(b[gv], a[gv]) && Extends(c[gv], b[gv]);
    }
  }

  // ---------------------------------------------------------------------------------------------
  // One undisturbed call.

  class Mapper {
    var cache: Lists

    constructor ()
      ensures cache == map[]
    {
      cache := map[];
    }

    /** The loop over a resource list. */
    method FindKind(l: seq<APIResource>, kind: string) returns (r: Option<APIResource>)
      ensures r == Find(l, kind)
    {
      for i := 0 to |l|
        invariant Find(l, kind) == Find(l[i..], kind)
      {
        assert l[i..][1..] == l[i + 1..];
        if l[i].kind == kind {
          return Some(l[i]);
        }
      }
      return None;
    }

    /** resourceInfo; discovery answers from `server` or, if not `reachable`, not at all. A cache of
        snapshots stays one, and the answer is the uncached one whenever discovery would have succeeded. */
    method ResourceInfo(gv: string, kind: string, server: Lists, reachable: bool) returns (a: Answer)
      requires Snapshot(cache, server)
      modifies this
      ensures Snapshot(cache, server)
      ensures a == Uncached(server, gv, kind) || (a.DiscoveryFailed? && !reachable)
      ensures Resolves(old(cache), server, reachable, gv, kind, a, cache)
      ensures !a.DiscoveryFailed? ==> gv in cache && a == AnswerFrom(cache[gv], kind)
    {
      if gv in cache {
        var hit := FindKind(cache[gv], kind);
        if hit.Some? {
          return Found(hit.value);
        }
      }
      if !reachable || gv !in server {
        return DiscoveryFailed;
      }
      cache := cache[gv := server[gv]];
      var r := FindKind(server[gv], kind);
      a := match r case Some(e) => Found(e) case None => NotFound;
    }
  }

  // ---------------------------------------------------------------------------------------------
  // Interleaved calls.

  /** Where a caller is: before the first locked section, holding what it read there, holding what
      discovery returned, past the second locked section, or back with an answer. */
  datatype Phase =
    | Calling
    | Holding(cached: Option<seq<APIResource>>)
    | Fetched(list: seq<APIResource>)
    | Stored(list: seq<APIResource>)
    | Returned(answer: Answer)

  datatype Call = Call(gv: string, kind: string, phase: Phase)

  datatype State = State(server: Lists, cache: Lists, calls: map<nat, Call>)

  /** What one caller does next: its phase and the cache afterwards. */
  ghost predicate CallerStep(s: State, c: Call, c': Call, cache': Lists) {
    && c'.gv == c.gv && c'.kind == c.kind
    && match c.phase
       case Calling =>
         c'.phase == Holding(if c.gv in s.cache then Some(s.cache[c.gv]) else None) && cache' == s.cache
       case Holding(cached) =>
         cache' == s.cache &&
         if cached.Some? && Find(cached.value, c.kind).Some?
         then c'.phase == Returned(AnswerFrom(cached.value, c.kind))
         else
           || c'.phase == Returned(DiscoveryFailed)
           || (c.gv in s.server && c'.phase == Fetched(s.server[c.gv]))
       case Fetched(l) => c'.phase == Stored(l) && cache' == s.cache[c.gv := l]
       case Stored(l) => c'.phase == Returned(AnswerFrom(l, c.kind)) && cache' == s.cache
       case Returned(_) => false
  }

  ghost predicate Step(s: State, s': State) {
    // The server comes to serve more.
    || (s' == s.(server := s'.server) && Snapshot(s.server, s'.server))
    // A call begins.
    || (exists id: nat, gv, kind ::
          && (id !in s.calls || s.calls[id].phase.Returned?)
          && s' == s.(calls := s.calls[id := Call(gv, kind, Calling)]))
    // A call goes on.
    || (exists id, c' ::
          && id in s.calls && CallerStep(s, s.calls[id], c', s'.cache)
          && s' == s.(cache := s'.cache, calls := s.calls[id := c']))
  }

  /** What one undisturbed call of `resourceInfo` answers, and the cache it leaves. */
  ghost predicate Resolves(cache: Lists, server: Lists, reachable: bool, gv: string, kind: string, a: Answer, cache': Lists) {
    if gv in cache && Find(cache[gv], kind).Some? then a == Found(Find(cache[gv], kind).value) && cache' == cache
    else if reachable && gv in server then a == AnswerFrom(server[gv], kind) && cache' == cache[gv := server[gv]]
    else a == DiscoveryFailed && cache' == cache
  }

  /** An undisturbed call is one way to interleave: the steps of a call without others in between lead to what
      `ResourceInfo` does. */
  lemma UndisturbedCall(s: State, id: nat, gv: string, kind: string, reachable: bool, a: Answer, cache': Lists) returns (run: seq<State>)
    requires id !in s.calls || s.calls[id].phase.Returned?
    requires Resolves(s.cache, s.server, reachable, gv, kind, a, cache')
    ensures |run| > 1 && run[0] == s && forall i :: 0 < i < |run| ==> Step(run[i - 1], run[i])
    ensures run[|run| - 1] == State(s.server, cache', s.calls[id := Call(gv, kind, Returned(a))])
  {
    var cached := if gv in s.cache then Some(s.cache[gv]) else None;
    var begun, held, end := At(s, s.cache, id, gv, kind, Calling), At(s, s.cache, id, gv, kind, Holding(cached)), At(s, cache', id, gv, kind, Returned(a));
    assert Step(s, begun);
    Moves(s, s.cache, id, gv, kind, Calling, s.cache, Holding(cached));
    if (cached.Some? && Find(cached.value, kind).Some?) || a.DiscoveryFailed? {
      Moves(s, s.cache, id, gv, kind, Holding(cached), cache', Returned(a));
      run := [s, begun, held, end];
    } else {
      var l := s.server[gv];
      Moves(s, s.cache, id, gv, kind, Holding(cached), s.cache, Fetched(l));
      Moves(s, s.cache, id, gv, kind, Fetched(l), cache', Stored(l));
      Moves(s, cache', id, gv, kind, Stored(l), cache', Returned(a));
      run := [s, begun, held, At(s, s.cache, id, gv, kind, Fetched(l)), At(s, cache', id, gv, kind, Stored(l)), end];
    }
  }

  /** A state with one caller where given. */
  function At(s: State, cache: Lists, id: nat, gv: string, kind: string, phase: Phase): State {
    State(s.server, cache, s.calls[id := Call(gv, kind, phase)])
  }

  lemma Moves(s: State, cache: Lists, id: nat, gv: string, kind: string, phase: Phase, cache': Lists, phase': Phase)
    requires CallerStep(At(s, cache, id, gv, kind, phase), Call(gv, kind, phase), Call(gv, kind, phase'), cache')
    ensures Step(At(s, cache, id, gv, kind, phase), At(s, cache', id, gv, kind, phase'))
  {
    var from, to := At(s, cache, id, gv, kind, phase), At(s, cache', id, gv, kind, phase');
    assert to.calls == from.calls[id := Call(gv, kind, phase')];
    assert id in from.calls && CallerStep(from, from.calls[id], Call(gv, kind, phase'), to.cache)
        && to == from.(cache := to.cache, calls := from.calls[id := Call(gv, kind, phase')]);
  }

  /** A list that a caller holds. */
  ghost predicate HeldOk(server: Lists, c: Call) {
    match c.phase
    case Holding(Some(l)) => c.gv in server && Extends(server[c.gv], l)
    case Fetched(l) => c.gv in server && Extends(server[c.gv], l)
    case Stored(l) => c.gv in server && Extends(server[c.gv], l)
    case Returned(Found(r)) => c.gv in server && Find(server[c.gv], c.kind) == Some(r)
    case _ => true
  }

  /** The cache and every list in a caller's hands are earlier versions of what the server now has, and
      so is every entry returned. */
  ghost predicate Inv(s: State) {
    Snapshot(s.cache, s.server) && forall id :: id in s.calls ==> HeldOk(s.server, s.calls[id])
  }

  lemma StepKeepsInv(s: State, s': State)
    requires Inv(s) && Step(s, s')
    ensures Inv(s') && Snapshot(s.server, s'.server)
  {
    if s' == s.(server := s'.server) && Snapshot(s.server, s'.server) {
      SnapshotTransitive(s.cache, s.server, s'.server);
      forall id | id in s'.calls ensures HeldOk(s'.server, s'.calls[id]) {
        HeldGrows(s.server, s'.server, s.calls[id]);
      }
    } else if id, c' :| id in s.calls && CallerStep(s, s.calls[id], c', s'.cache)
                         && s' == s.(cache := s'.cache, calls := s.calls[id := c']) {
      CallerKeepsInv(s, s.calls[id], c', s'.cache);
    }
  }

  lemma HeldGrows(server: Lists, server': Lists, c: Call)
    requires Snapshot(server, server') && HeldOk(server, c)
    ensures HeldOk(server', c)
  {
    if c.gv in server {
      assert Extends(server'[c.gv], server[c.gv]);
    }
  }

  lemma CallerKeepsInv(s: State, c: Call, c': Call, cache': Lists)
    requires Snapshot(s.cache, s.server) && HeldOk(s.server, c) && CallerStep(s, c, c', cache')
    ensures Snapshot(cache', s.server) && HeldOk(s.server, c')
  {
  }

  /** A run of any interleaving from an empty cache without callers. */
  ghost predicate IsRun(run: seq<State>) {
    && run != [] && run[0].cache == map[] && run[0].calls == map[]
    && forall i :: 0 < i < |run| ==> Step(run[i - 1], run[i])
  }

  lemma {:induction false} RunInv(run: seq<State>, k: nat)
    requires IsRun(run) && k < |run|
    ensures Inv(run[k])
  {
    if k > 0 {
      RunInv(run, k - 1);
      StepKeepsInv(run[k - 1], run[k]);
    }
  }

  lemma {:induction false} RunGrows(run: seq<State>, i: nat, k: nat)
    requires IsRun(run) && i <= k < |run|
    ensures Snapshot(run[i].server, run[k].server)
  {
    if i < k {
      RunGrows(run, i, k - 1);
      RunInv(run, k - 1);
      StepKeepsInv(run[k - 1], run[k]);
      SnapshotTransitive(run[i].server, run[k - 1].server, run[k].server);
    }
  }

  /** The call that `id` begins in state `i` is still under way or has just returned in state `k`. */
  ghost predicate Span(run: seq<State>, id: nat, gv: string, kind: string, i: nat, k: nat) {
    && i <= k < |run|
    && id in run[i].calls && run[i].calls[id] == Call(gv, kind, Calling)
    && forall n :: i <= n < k ==> id in run[n].calls && !run[n].calls[id].phase.Returned?
  }

  /** A caller's step leaves the other callers alone; only the server's steps change what it serves. */
  lemma OneCall(s: State, s': State, id: nat)
    requires Step(s, s') && id in s.calls && !s.calls[id].phase.Returned?
    ensures id in s'.calls
    ensures s'.calls[id] == s.calls[id] || (CallerStep(s, s.calls[id], s'.calls[id], s'.cache) && s'.server == s.server)
  {
  }

  /** A list fetched during the call was the server's at some moment of the call. */
  ghost predicate FetchedWithin(run: seq<State>, gv: string, i: nat, k: nat, l: seq<APIResource>) {
    exists n :: i <= n <= k < |run| && gv in run[n].server && run[n].server[gv] == l
  }

  ghost predicate Progress(run: seq<State>, gv: string, kind: string, i: nat, k: nat, c: Call) {
    && c.gv == gv && c.kind == kind
    && match c.phase
       case Fetched(l) => FetchedWithin(run, gv, i, k, l)
       case Stored(l) => FetchedWithin(run, gv, i, k, l)
       case Returned(NotFound) => exists l :: FetchedWithin(run, gv, i, k, l) && Find(l, kind).None?
       case _ => true
  }

  lemma {:induction false} SpanProgress(run: seq<State>, id: nat, gv: string, kind: string, i: nat, k: nat)
    requires IsRun(run) && Span(run, id, gv, kind, i, k)
    ensures id in run[k].calls && Progress(run, gv, kind, i, k, run[k].calls[id])
    decreases k
  {
    if i < k {
      SpanProgress(run, id, gv, kind, i, k - 1);
      OneCall(run[k - 1], run[k], id);
      var c, c' := run[k - 1].calls[id], run[k].calls[id];
      forall l | FetchedWithin(run, gv, i, k - 1, l) ensures FetchedWithin(run, gv, i, k, l) {
      }
      if c' != c && c'.phase.Fetched? {
        assert run[k].server[gv] == c'.phase.list;
        assert FetchedWithin(run, gv, i, k, c'.phase.list);
      }
    }
  }

  /** Whenever discovery itself succeeds, the answer is the one discovery without a cache gives at some
      moment between the call and its return; an entry found is moreover right at the return. */
  lemma CacheAgreesWithDiscovery(run: seq<State>, id: nat, gv: string, kind: string, i: nat, k: nat)
    requires IsRun(run) && Span(run, id, gv, kind, i, k)
    requires id in run[k].calls && run[k].calls[id].phase.Returned?
    ensures var a := run[k].calls[id].phase.answer;
      && (a.DiscoveryFailed? || exists n :: i <= n <= k && a == Uncached(run[n].server, gv, kind))
      && (a.Found? ==> a == Uncached(run[k].server, gv, kind))
  {
    var a := run[k].calls[id].phase.answer;
    RunInv(run, k);
    SpanProgress(run, id, gv, kind, i, k);
    assert HeldOk(run[k].server, run[k].calls[id]);
    if a.NotFound? {
      var l :| FetchedWithin(run, gv, i, k, l) && Find(l, kind).None?;
      var n :| i <= n <= k && gv in run[n].server && run[n].server[gv] == l;
      assert a == Uncached(run[n].server, gv, kind);
    }
  }

  /** A kind served when the call begins is found, however the callers interleave. */
  lemma ServedKindIsFound(run: seq<State>, id: nat, gv: string, kind: string, i: nat, k: nat)
    requires IsRun(run) && Span(run, id, gv, kind, i, k)
    requires id in run[k].calls && run[k].calls[id].phase.Returned?
    requires gv in run[i].server && Find(run[i].server[gv], kind).Some?
    ensures var a := run[k].calls[id].phase.answer;
      a.DiscoveryFailed? || a == Found(Find(run[i].server[gv], kind).value)
  {
    var a := run[k].calls[id].phase.answer;
    CacheAgreesWithDiscovery(run, id, gv, kind, i, k);
    if !a.DiscoveryFailed? {
      var n :| i <= n <= k && a == Uncached(run[n].server, gv, kind);
      RunGrows(run, i, n);
      assert Extends(run[n].server[gv], run[i].server[gv]);
    }
  }
}
