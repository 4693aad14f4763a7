/** Creating the self-hosted manifests in order (pkg/bootkube/create.go).

    What the API server answers is an oracle: the n-th request of a run succeeds exactly if `outcome(n)`.
 */
module Creater {
  import opened Strings

  datatype Manifest = Manifest(kind: string, apiVersion: string, namespace: string, name: string, raw: string, filepath: string)

  datatype Class = Namespace | Definition | Resource | Empty

  /** How createManifests treats a manifest; an empty document of a multi-document file is read as "null". */
  function ClassOf(m: Manifest): Class {
    if m.kind == "CustomResourceDefinition" && HasPrefix(m.apiVersion, "apiextensions.k8s.io/") then Definition
    else if m.kind == "Namespace" && m.apiVersion == "v1" then Namespace
    else if m.raw == "null" then Empty
    else Resource
  }

  /** A request to the API server: create an object, or wait until a custom resource is served. */
  datatype Event = Create(m: Manifest) | Wait(m: Manifest)

  // ---------------------------------------------------------------------------------------------
  // Sorting by file.

  ghost predicate ByPath(s: seq<Manifest>) {
    forall i, j :: 0 <= i < j < |s| ==> Leq(s[i].filepath, s[j].filepath)
  }

  /** `t` is one of the results sort.Slice may give for `s`: the sort is not stable. */
  ghost predicate Sorting(s: seq<Manifest>, t: seq<Manifest>) {
    ByPath(t) && multiset(t) == multiset(s)
  }

  method InsertByPath(s: seq<Manifest>, m: Manifest) returns (t: seq<Manifest>)
    requires ByPath(s)
    ensures Sorting(s + [m], t)
  {
    var k := |s|;
    while k > 0 && !Leq(s[k - 1].filepath, m.filepath)
      invariant 0 <= k <= |s|
      invariant forall i :: k <= i < |s| ==> Leq(m.filepath, s[i].filepath)
    {
      LeqTotal(s[k - 1].filepath, m.filepath);
      k := k - 1;
    }
    t := s[..k] + [m] + s[k..];
    InsertedSorting(s, m, k);
  }

  lemma InsertedSorting(s: seq<Manifest>, m: Manifest, k: nat)
    requires ByPath(s) && k <= |s| && (k > 0 ==> Leq(s[k - 1].filepath, m.filepath))
    requires forall i :: k <= i < |s| ==> Leq(m.filepath, s[i].filepath)
    ensures Sorting(s + [m], s[..k] + [m] + s[k..])
  {
    var t := s[..k] + [m] + s[k..];
    forall i, j | 0 <= i < j < |t| ensures Leq(t[i].filepath, t[j].filepath) {
      if i == k {
      } else if j == k {
        if i < k - 1 { LeqTransitive(s[i].filepath, s[k - 1].filepath, m.filepath); }
      } else {
        assert t[i] == s[if i < k then i else i - 1] && t[j] == s[if j < k then j else j - 1];
      }
    }
    InsertedKeeps(s, m, k);
  }

  lemma InsertedKeeps(s: seq<Manifest>, m: Manifest, k: nat)
    requires k <= |s|
    ensures multiset(s[..k] + [m] + s[k..]) == multiset(s + [m])
  {
    assert s == s[..k] + s[k..];
  }

  /** sort.Slice by file path, in place. */
  method SortSlice(a: array<Manifest>)
    modifies a
    ensures Sorting(old(a[..]), a[..])
  {
    var t := [];
    for i := 0 to a.Length
      invariant Sorting(a[..i], t)
      invariant a[..] == old(a[..])
    {
      assert a[..i + 1] == a[..i] + [a[i]];
      t := InsertByPath(t, a[i]);
    }
    assert a[..a.Length] == a[..];
    assert |t| == |multiset(t)| == |multiset(a[..])| == a.Length;
    forall i | 0 <= i < a.Length { a[i] := t[i]; }
    assert a[..] == t;
  }

  // ---------------------------------------------------------------------------------------------
  // The requests of a run.

  function Select(s: seq<Manifest>, c: Class): seq<Manifest> {
    if s == [] then []
    else Select(s[..|s| - 1], c) + if ClassOf(s[|s| - 1]) == c then [s[|s| - 1]] else []
  }

  function Creates(s: seq<Manifest>): (r: seq<Event>)
    ensures |r| == |s|
  {
    seq(|s|, i requires 0 <= i < |s| => Create(s[i]))
  }

  function Waits(s: seq<Manifest>): (r: seq<Event>)
    ensures |r| == |s|
  {
    seq(|s|, i requires 0 <= i < |s| => Wait(s[i]))
  }

  /** Namespaces, definitions, the waits for them, and everything else. */
  function Trace(s: seq<Manifest>): seq<Event> {
    Creates(Select(s, Namespace)) + Creates(Select(s, Definition)) + Waits(Select(s, Definition)) + Creates(Select(s, Resource))
  }

  /** `done` is what runs of `trace` when request number `start` is its first: all of it, or in strict
      mode the part up to and including the first failure. */
  ghost predicate Ran(trace: seq<Event>, strict: bool, outcome: nat -> bool, start: nat, done: seq<Event>) {
    && done <= trace
    && (strict ==> AllSucceed(outcome, start, |done| - 1))
    && (|done| < |trace| ==> strict && done != [] && !outcome(start + |done| - 1))
  }

  ghost predicate AllSucceed(outcome: nat -> bool, start: nat, count: int) {
    forall n: nat :: start <= n < start + count ==> outcome(n)
  }

  /** `done` ran, and `ok` tells whether all of it succeeded. */
  ghost predicate Sent(batch: seq<Event>, strict: bool, outcome: nat -> bool, start: nat, done: seq<Event>, ok: bool) {
    && Ran(batch, strict, outcome, start, done)
    && (ok <==> AllSucceed(outcome, start, |done|))
    && (strict && !ok ==> done != [] && !outcome(start + |done| - 1))
  }

  /** A failed batch of a strict run is the end of the run. */
  lemma SentHalts(a: seq<Event>, b: seq<Event>, outcome: nat -> bool, start: nat, done: seq<Event>)
    requires Sent(a, true, outcome, start, done, false)
    ensures Sent(a + b, true, outcome, start, done, false)
  {
  }

  /** Any other batch is followed by the next. */
  lemma SentContinues(a: seq<Event>, b: seq<Event>, strict: bool, outcome: nat -> bool, start: nat, done: seq<Event>, ok1: bool, ok2: bool)
    requires Sent(a, strict, outcome, start, a, ok1) && (strict ==> ok1)
    requires Sent(b, strict, outcome, start + |a|, done, ok2)
    ensures Sent(a + b, strict, outcome, start, a + done, ok1 && ok2)
  {
    assert a + done <= a + b;
  }

  class Creater {
    const strict: bool
    const outcome: nat -> bool
    /** The requests sent so far. */
    var events: seq<Event>

    constructor (strict: bool, outcome: nat -> bool)
      ensures this.strict == strict && this.outcome == outcome && events == []
    {
      this.strict, this.outcome, events := strict, outcome, [];
    }

    method Send(e: Event) returns (ok: bool)
      modifies this
      ensures events == old(events) + [e]
      ensures ok == outcome(old(|events|))
    {
      ok := outcome(|events|);
      events := events + [e];
    }

    /** One of the loops: send a batch, in strict mode up to the first failure. */
    method SendAll(batch: seq<Event>) returns (ok: bool)
      modifies this
      ensures old(events) <= events
      ensures Sent(batch, strict, outcome, old(|events|), events[old(|events|)..], ok)
    {
      ok := true;
      for i := 0 to |batch|
        invariant events == old(events) + batch[..i]
        invariant strict ==> ok
        invariant ok <==> AllSucceed(outcome, old(|events|), i)
      {
        var sent := Send(batch[i]);
        assert batch[..i + 1] == batch[..i] + [batch[i]];
        if !sent {
          ok := false;
          if strict {
            assert events[old(|events|)..] == batch[..i + 1];
            return;
          }
        }
      }
      assert events[old(|events|)..] == batch;
    }

    /** createManifests: sorts its argument, sends the trace of the sorted manifests, and answers whether
        every request it sent succeeded. */
    method CreateManifests(manifests: array<Manifest>) returns (ok: bool)
      modifies this, manifests
      ensures Sorting(old(manifests[..]), manifests[..])
      ensures old(events) <= events
      ensures Sent(Trace(manifests[..]), strict, outcome, old(|events|), events[old(|events|)..], ok)
    {
      SortSlice(manifests);
      var namespaces, crds, other := Partition(manifests);
      ok := SendInOrder(Creates(namespaces), Creates(crds), Waits(crds), Creates(Select(other, Resource)));
    }

    /** The four loops. */
    method SendInOrder(a: seq<Event>, b: seq<Event>, c: seq<Event>, d: seq<Event>) returns (ok: bool)
      modifies this
      ensures old(events) <= events
      ensures Sent(a + b + c + d, strict, outcome, old(|events|), events[old(|events|)..], ok)
    {
      ok := SendAll(a);
      ok := SendNext(a, b, ok, old(events));
      ok := SendNext(a + b, c, ok, old(events));
      ok := SendNext(a + b + c, d, ok, old(events));
    }

    /** A loop after the loops that have sent `a`. */
    method SendNext(ghost a: seq<Event>, b: seq<Event>, soFar: bool, ghost before: seq<Event>) returns (ok: bool)
      requires before <= events && Sent(a, strict, outcome, |before|, events[|before|..], soFar)
      modifies this
      ensures before <= events && Sent(a + b, strict, outcome, |before|, events[|before|..], ok)
    {
      ghost var done := events[|before|..];
      if strict && !soFar {
        SentHalts(a, b, outcome, |before|, done);
        return false;
      }
      assert done == a;
      ok := SendAll(b);
      ghost var more := events[|before| + |a|..];
      SentContinues(a, b, strict, outcome, |before|, more, soFar, ok);
      assert events[|before|..] == a + more;
      ok := soFar && ok;
    }
  }

  /** The loop that sorts the manifests into three lists. */
  method Partition(manifests: array<Manifest>) returns (namespaces: seq<Manifest>, crds: seq<Manifest>, other: seq<Manifest>)
    ensures namespaces == Select(manifests[..], Namespace)
    ensures crds == Select(manifests[..], Definition)
    ensures Select(other, Resource) == Select(manifests[..], Resource)
  {
    namespaces, crds, other := [], [], [];
    for i := 0 to manifests.Length
      invariant namespaces == Select(manifests[..i], Namespace)
      invariant crds == Select(manifests[..i], Definition)
      invariant Select(other, Resource) == Select(manifests[..i], Resource)
    {
      var m := manifests[i];
      assert manifests[..i + 1][..i] == manifests[..i];
      assert (other + [m])[..|other|] == other;
      match ClassOf(m)
      case Definition => crds := crds + [m];
      case Namespace => namespaces := namespaces + [m];
      case _ => other := other + [m];
    }
    assert manifests[..manifests.Length] == manifests[..];
  }

  // ---------------------------------------------------------------------------------------------
  // What the order of the requests means.

  function Rank(e: Event): nat {
    match e
    case Create(m) => (match ClassOf(m) case Namespace => 0 case Definition => 1 case _ => 3)
    case Wait(_) => 2
  }

  /** Namespaces before definitions before waits before the rest, and by file among equals. */
  predicate Before(e: Event, f: Event) {
    Rank(e) < Rank(f) || (Rank(e) == Rank(f) && Leq(e.m.filepath, f.m.filepath))
  }

  ghost predicate Ordered(t: seq<Event>) {
    forall i, j :: 0 <= i < j < |t| ==> Before(t[i], t[j])
  }

  /** How often a request belongs to a run over these manifests. */
  function Wanted(s: multiset<Manifest>, e: Event): nat {
    match e
    case Create(m) => if ClassOf(m) == Empty then 0 else s[m]
    case Wait(m) => if ClassOf(m) == Definition then s[m] else 0
  }

  lemma {:induction false} SelectOrdered(s: seq<Manifest>, c: Class)
    requires ByPath(s)
    ensures ByPath(Select(s, c))
    ensures forall m :: m in Select(s, c) ==> ClassOf(m) == c && m in s
  {
    if s != [] {
      var n := |s| - 1;
      SelectOrdered(s[..n], c);
      forall m | m in Select(s[..n], c) ensures Leq(m.filepath, s[n].filepath) {
        assert m in s[..n];
      }
    }
  }

  lemma {:induction false} SelectCount(s: seq<Manifest>, c: Class, m: Manifest)
    ensures multiset(Select(s, c))[m] == if ClassOf(m) == c then multiset(s)[m] else 0
  {
    if s != [] {
      var n := |s| - 1;
      SelectCount(s[..n], c, m);
      assert s == s[..n] + [s[n]];
    }
  }

  lemma {:induction false} CreatesCount(s: seq<Manifest>, e: Event)
    ensures multiset(Creates(s))[e] == if e.Create? then multiset(s)[e.m] else 0
  {
    if s != [] {
      var n := |s| - 1;
      CreatesCount(s[..n], e);
      assert Creates(s) == Creates(s[..n]) + [Create(s[n])];
      assert s == s[..n] + [s[n]];
    }
  }

  lemma {:induction false} WaitsCount(s: seq<Manifest>, e: Event)
    ensures multiset(Waits(s))[e] == if e.Wait? then multiset(s)[e.m] else 0
  {
    if s != [] {
      var n := |s| - 1;
      WaitsCount(s[..n], e);
      assert Waits(s) == Waits(s[..n]) + [Wait(s[n])];
      assert s == s[..n] + [s[n]];
    }
  }

  /** Each request is made exactly as often as the given manifests call for. */
  lemma TraceComplete(given: seq<Manifest>, s: seq<Manifest>, e: Event)
    requires Sorting(given, s)
    ensures multiset(Trace(s))[e] == Wanted(multiset(given), e)
  {
    CreatesCount(Select(s, Namespace), e);
    CreatesCount(Select(s, Definition), e);
    WaitsCount(Select(s, Definition), e);
    CreatesCount(Select(s, Resource), e);
    SelectCount(s, Namespace, e.m);
    SelectCount(s, Definition, e.m);
    SelectCount(s, Resource, e.m);
  }

  lemma OrderedJoin(t: seq<Event>, u: seq<Event>, r: nat)
    requires Ordered(t) && Ordered(u)
    requires (forall e :: e in t ==> Rank(e) < r) && (forall e :: e in u ==> Rank(e) == r)
    ensures Ordered(t + u) && forall e :: e in t + u ==> Rank(e) < r + 1
  {
    forall i, j | 0 <= i < j < |t + u| ensures Before((t + u)[i], (t + u)[j]) {
      if i < |t| <= j {
        assert t[i] in t && u[j - |t|] in u;
      }
    }
  }

  /** The requests come in the documented order. */
  lemma TraceOrdered(given: seq<Manifest>, s: seq<Manifest>)
    requires Sorting(given, s)
    ensures Ordered(Trace(s))
  {
    SelectOrdered(s, Namespace);
    SelectOrdered(s, Definition);
    SelectOrdered(s, Resource);
    var a, b, c, d := Creates(Select(s, Namespace)), Creates(Select(s, Definition)), Waits(Select(s, Definition)), Creates(Select(s, Resource));
    OrderedJoin(a, b, 1);
    OrderedJoin(a + b, c, 2);
    OrderedJoin(a + b + c, d, 3);
  }

  lemma FirstIsLeast(t: seq<Event>, e: Event)
    requires Ordered(t) && e in t
    ensures Before(t[0], e)
  {
    var i :| 0 <= i < |t| && t[i] == e;
    if i == 0 { LeqReflexive(e.m.filepath); }
  }

  lemma SameFirst(t: seq<Event>, u: seq<Event>)
    requires Ordered(t) && Ordered(u) && t != [] && u != [] && t[0] in u && u[0] in t
    ensures Rank(t[0]) == Rank(u[0]) && t[0].m.filepath == u[0].m.filepath
  {
    FirstIsLeast(t, u[0]);
    FirstIsLeast(u, t[0]);
    LeqAntisymmetric(t[0].m.filepath, u[0].m.filepath);
  }

  ghost predicate OneFileEach(t: seq<Event>) {
    forall e, f :: e in t && f in t && e.m.filepath == f.m.filepath ==> e.m == f.m
  }

  lemma SplitFirst(t: seq<Event>)
    requires t != []
    ensures multiset(t[1..]) == multiset(t) - multiset{t[0]}
  {
    assert t == [t[0]] + t[1..];
  }

  lemma RestOrdered(t: seq<Event>)
    requires Ordered(t) && t != []
    ensures Ordered(t[1..])
  {
  }

  /** Unless two different manifests come from one file, nothing but the manifests decides the order:
      any ordered sequence of the requests is the trace. */
  lemma {:induction false} OrderDetermined(t: seq<Event>, u: seq<Event>)
    requires Ordered(t) && Ordered(u) && multiset(t) == multiset(u) && OneFileEach(t)
    ensures t == u
  {
    assert |t| == |multiset(t)| == |u|;
    if t != [] {
      FirstAgree(t, u);
      SplitFirst(t);
      SplitFirst(u);
      RestOrdered(t);
      RestOrdered(u);
      RestOneFile(t);
      OrderDetermined(t[1..], u[1..]);
      assert t == [t[0]] + t[1..] && u == [u[0]] + u[1..];
    }
  }

  lemma FirstAgree(t: seq<Event>, u: seq<Event>)
    requires Ordered(t) && Ordered(u) && multiset(t) == multiset(u) && OneFileEach(t) && t != [] && u != []
    ensures t[0] == u[0]
  {
    assert t[0] in multiset(u) && u[0] in multiset(t);
    SameFirst(t, u);
    assert t[0].m == u[0].m;
  }

  lemma RestOneFile(t: seq<Event>)
    requires OneFileEach(t) && t != []
    ensures OneFileEach(t[1..])
  {
  }

  /** A namespace, as the API server knows it. */
  predicate NamespaceObject(m: Manifest) {
    m.kind == "Namespace" && m.apiVersion == "v1"
  }

  predicate DefinitionObject(m: Manifest) {
    m.kind == "CustomResourceDefinition" && "apiextensions.k8s.io/" <= m.apiVersion
  }

  /** The order of any two requests, in terms of the manifests' kinds and files. */
  lemma RequestOrder(given: seq<Manifest>, s: seq<Manifest>, i: nat, j: nat)
    requires Sorting(given, s) && i < j < |Trace(s)|
    ensures var e, f := Trace(s)[i], Trace(s)[j];
            && (f.Create? && NamespaceObject(f.m) ==> e.Create? && NamespaceObject(e.m))
            && (f.Create? && DefinitionObject(f.m) ==> e.Create? && (NamespaceObject(e.m) || DefinitionObject(e.m)))
            && (f.Wait? ==> e.Wait? || NamespaceObject(e.m) || DefinitionObject(e.m))
            && (e.Create? && f.Create? && (NamespaceObject(e.m) <==> NamespaceObject(f.m)) && (DefinitionObject(e.m) <==> DefinitionObject(f.m)) ==>
                 Leq(e.m.filepath, f.m.filepath))
            && (e.Wait? && f.Wait? ==> Leq(e.m.filepath, f.m.filepath))
  {
    TraceOrdered(given, s);
    assert Before(Trace(s)[i], Trace(s)[j]);
    TraceComplete(given, s, Trace(s)[i]);
    TraceComplete(given, s, Trace(s)[j]);
    assert Trace(s)[i] in multiset(Trace(s)) && Trace(s)[j] in multiset(Trace(s));
  }

  /** How often each request is made: a creation for every manifest but empty ones that are neither, and a
      wait for every definition. */
  lemma RequestCount(given: seq<Manifest>, s: seq<Manifest>, m: Manifest)
    requires Sorting(given, s)
    ensures multiset(Trace(s))[Create(m)] == if m.raw == "null" && !NamespaceObject(m) && !DefinitionObject(m) then 0 else multiset(given)[m]
    ensures multiset(Trace(s))[Wait(m)] == if DefinitionObject(m) then multiset(given)[m] else 0
  {
    TraceComplete(given, s, Create(m));
    TraceComplete(given, s, Wait(m));
  }

  /** A strict run creates an ordinary resource only after every namespace and definition of the given
      manifests has been created, and every definition waited for, each with success. */
  lemma StrictSafety(given: seq<Manifest>, s: seq<Manifest>, outcome: nat -> bool, start: nat, done: seq<Event>, k: nat, e: Event)
    requires Sorting(given, s) && Ran(Trace(s), true, outcome, start, done)
    requires k < |done| && Rank(done[k]) == 3
    requires Rank(e) < 3 && Wanted(multiset(given), e) > 0
    ensures exists i :: 0 <= i < k && done[i] == e && outcome(start + i)
  {
    TraceComplete(given, s, e);
    TraceOrdered(given, s);
    var t := Trace(s);
    assert e in multiset(t);
    var i :| 0 <= i < |t| && t[i] == e;
    assert done[k] == t[k];
    assert i > k ==> Before(t[k], t[i]);
    assert i < k && done[i] == t[i];
    assert outcome(start + i);
  }

  /** A run that does not stop at failures makes every request of the trace. */
  lemma LenientRunsAll(given: seq<Manifest>, s: seq<Manifest>, outcome: nat -> bool, start: nat, done: seq<Event>, e: Event)
    requires Sorting(given, s) && Ran(Trace(s), false, outcome, start, done)
    ensures multiset(done)[e] == Wanted(multiset(given), e)
  {
    assert done == Trace(s);
    TraceComplete(given, s, e);
  }
}
