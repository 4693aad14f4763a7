/** What holds at every single disk operation, so that a crash between any two of them is harmless. */
module CrashSafety {
  import opened Strings
  import opened Kubernetes
  import opened Pods
  import opened CheckpointState
  import opened Checkpoints
  import opened Disk
  import opened DiskEffects
  import opened Runs
  import opened Agreement

  // ---------------------------------------------------------------------------------------------
  // The checkpointer outlives all other checkpoints when it removes itself.

  ghost predicate Spares(ops: seq<DiskOp>, file: string) {
    forall k :: 0 <= k < |ops| ==> ops[k] != RemoveActive(file)
  }

  lemma {:induction false} SparedStays(d: Disk, ops: seq<DiskOp>, file: string)
    requires Spares(ops, file) && file in d.active
    ensures file in Replay(d, ops).active
  {
    if ops != [] {
      SparedStays(d, ops[..|ops| - 1], file);
    }
  }

  lemma {:induction false} RemovesSpare(ids: seq<string>, torn: set<Path>, file: string)
    requires file !in Files(ids)
    ensures Spares(RemoveOps(ids, {}, torn), file)
  {
    if ids != [] {
      FilesSnoc(ids);
      RemovesSpare(ids[..|ids| - 1], torn, file);
    }
  }

  /** Removing a list without duplicates deletes the active manifest of its last name at the very end. */
  lemma LastGoesLast(ids: seq<string>, torn: set<Path>, names: set<string>)
    requires |ids| > 0 && NoDuplicates(ids) && Elements(ids) <= names && Injective(names)
    ensures var ops, file := RemoveOps(ids, {}, torn), ManifestFile(ids[|ids| - 1]);
            |ops| > 0 && Spares(ops[..|ops| - 1], file)
  {
    var n := |ids| - 1;
    var file, ops := ManifestFile(ids[n]), RemoveOps(ids, {}, torn);
    assert file !in Files(ids[..n]) by {
      forall x | x in ids[..n] ensures ManifestFile(x) != file {
        assert x in Elements(ids) && ids[n] in Elements(ids);
      }
    }
    RemovesSpare(ids[..n], torn, file);
    assert ops == RemoveOps(ids[..n], {}, torn) + RemoveOneOps(ids[n], {}, torn);
    assert RemoveOneOps(ids[n], {}, torn)[|RemoveOneOps(ids[n], {}, torn)| - 1] == RemoveActive(file);
  }

  /** Nothing is left of a name on disk. */
  ghost predicate Gone(d: Disk, x: string) {
    && ManifestFile(x) !in d.active
    && ManifestFile(x) !in d.inactive
    && forall p :: p in d.data ==> !(FullNameToSecretPath(x) <= p) && !(FullNameToConfigMapPath(x) <= p)
  }

  /** The list of a checkpointer that removes itself: everything with an action, sorted, itself last. */
  lemma SelfRemovalPlan(m: Memory, obs: Observation, grace: int, cp: CheckpointerPod,
                        starts: seq<string>, stops: seq<string>, removes: seq<string>)
    requires RepOk(m, cp)
    requires SelfAction(m, obs, grace) == Remove && IsPlan(m, obs, grace, starts, stops, removes)
    ensures starts == [] && stops == []
    ensures SelfLast(removes, SelfName(cp)) && NoDuplicates(removes)
    ensures forall x :: x in removes <==> Tracks(m, x) && !Entry(m, x).state.StateNone?
  {
    assert Elements(removes) == Acting(m.checkpoints) + {SelfName(cp)};
    assert forall x :: x in removes <==> x in Elements(removes);
    EmptyListing(starts);
    EmptyListing(stops);
  }

  /** The active manifest of the last name is there, or nothing of any name is. */
  ghost predicate LastStands(d: Disk, ids: seq<string>)
    requires ids != []
  {
    ManifestFile(ids[|ids| - 1]) in d.active || forall x :: x in ids ==> Gone(d, x)
  }

  /** At every prefix of the removals the last name's active manifest, if it was there, is still there,
      unless every listed checkpoint is gone completely. */
  lemma LastOutlives(ids: seq<string>, torn: set<Path>, names: set<string>, d: Disk, done: nat)
    requires |ids| > 0 && NoDuplicates(ids) && Elements(ids) <= names && Injective(names)
    requires ManifestFile(ids[|ids| - 1]) in d.active && done <= |RemoveOps(ids, {}, torn)|
    ensures LastStands(Replay(d, RemoveOps(ids, {}, torn)[..done]), ids)
  {
    LastGoesLast(ids, torn, names);
    var ops, file := RemoveOps(ids, {}, torn), ManifestFile(ids[|ids| - 1]);
    if done < |ops| {
      assert forall k :: 0 <= k < done ==> ops[..done][k] == ops[..|ops| - 1][k];
      SparedStays(d, ops[..done], file);
    } else {
      assert ops[..done] == ops;
      RemoveEffect(d, ids, torn);
    }
  }

  lemma HeadListed(ids: seq<string>, s: set<string>)
    requires Listing(ids, s) && ids != []
    ensures ids[0] in s
  {
  }

  lemma EmptyListing(ids: seq<string>)
    requires Listing(ids, {})
    ensures ids == []
  {
    if ids != [] { HeadListed(ids, {}); }
  }

  // ---------------------------------------------------------------------------------------------
  // No secret outlives the checkpoint it was stored for.

  /** The pod in whose directory a data file lies. */
  function Owner(p: Path): string {
    if |p| >= 5 then p[3] + "/" + p[4] else ""
  }

  predicate DataPath(p: Path) {
    && |p| >= 5
    && (CHECKPOINT_SECRET_PATH <= p || CHECKPOINT_CONFIG_MAP_PATH <= p)
    && ValidName(p[3]) && ValidName(p[4])
  }

  /** A data file of `x` lies in one of the two directories that removing `x` deletes. */
  lemma OwnerDirectory(p: Path, pod: Pod)
    requires ValidPod(pod)
    ensures FullNameToSecretPath(FullName(pod)) <= p || FullNameToConfigMapPath(FullName(pod)) <= p <==>
            DataPath(p) && Owner(p) == FullName(pod)
  {
    DataPaths(pod, "");
    var ns, name := pod.meta.namespace, pod.meta.name;
    var secrets, maps := CHECKPOINT_SECRET_PATH + [ns, name], CHECKPOINT_CONFIG_MAP_PATH + [ns, name];
    if DataPath(p) && Owner(p) == FullName(pod) {
      FullNameInjective(p[3], p[4], ns, name);
      PrefixByParts(CHECKPOINT_SECRET_PATH, ns, name, p);
      PrefixByParts(CHECKPOINT_CONFIG_MAP_PATH, ns, name, p);
    } else if secrets <= p || maps <= p {
      PrefixByParts(CHECKPOINT_SECRET_PATH, ns, name, p);
      PrefixByParts(CHECKPOINT_CONFIG_MAP_PATH, ns, name, p);
    }
  }

  lemma PrefixByParts(root: Path, a: string, b: string, p: Path)
    requires |root| == 3
    ensures root + [a, b] <= p <==> |p| >= 5 && root <= p && p[3] == a && p[4] == b
  {
    var q := root + [a, b];
    if q <= p {
      assert p[..5] == q && q[..3] == root && q[3] == a && q[4] == b;
      assert p[..3] == p[..5][..3];
    }
    if |p| >= 5 && root <= p && p[3] == a && p[4] == b {
      assert p[..3] == root;
      assert p[..5] == q;
    }
  }

  /** Every data file belongs to a pod whose checkpoint a restart finds. */
  ghost predicate NoOrphans(d: Disk) {
    forall p :: p in d.data ==> DataPath(p) && (Stored(d.active, Owner(p)) || Stored(d.inactive, Owner(p)))
  }

  /** No orphan at the start, in between, or at the end. */
  ghost predicate SafeOps(d: Disk, ops: seq<DiskOp>) {
    NoOrphans(Replay(d, ops)) && (ops != [] ==> SafeOps(d, ops[..|ops| - 1]))
  }

  lemma {:induction false} SafePrefix(d: Disk, ops: seq<DiskOp>, k: nat)
    requires SafeOps(d, ops) && k <= |ops|
    ensures NoOrphans(Replay(d, ops[..k]))
    decreases |ops|
  {
    if k < |ops| {
      SafePrefix(d, ops[..|ops| - 1], k);
      assert ops[..|ops| - 1][..k] == ops[..k];
    } else {
      assert ops[..k] == ops;
    }
  }

  lemma {:induction false} SafeConcat(d: Disk, a: seq<DiskOp>, b: seq<DiskOp>)
    requires SafeOps(d, a) && SafeOps(Replay(d, a), b)
    ensures SafeOps(d, a + b)
    decreases |b|
  {
    if b == [] {
      assert a + b == a;
    } else {
      SafeConcat(d, a, b[..|b| - 1]);
      assert (a + b)[..|a + b| - 1] == a + b[..|b| - 1];
      ReplayConcat(d, a, b);
    }
  }

  lemma SafeOne(d: Disk, op: DiskOp)
    requires NoOrphans(d) && NoOrphans(Apply(d, op))
    ensures SafeOps(d, [op])
  {
    assert [op][..0] == [];
    assert Replay(d, [op]) == Apply(d, op);
    assert SafeOps(d, []);
  }

  lemma SafeEnd(d: Disk, ops: seq<DiskOp>)
    requires SafeOps(d, ops)
    ensures NoOrphans(Replay(d, ops))
  {
  }

  /** The owners stored before are stored after. */
  ghost predicate KeepsOwners(d: Disk, d': Disk) {
    && d'.data == d.data
    && forall x :: Stored(d.active, x) || Stored(d.inactive, x) ==> Stored(d'.active, x) || Stored(d'.inactive, x)
  }

  lemma OwnersKept(d: Disk, d': Disk)
    requires NoOrphans(d) && KeepsOwners(d, d')
    ensures NoOrphans(d')
  {
  }

  // One operation of each kind.

  lemma SameFileSameName(d: Disk, names: set<string>, x: string, y: string)
    requires PlacedDisk(d, names) && Injective(names) && x in names
    requires (Stored(d.active, y) || Stored(d.inactive, y)) && ManifestFile(x) == ManifestFile(y)
    ensures x == y
  {
    StoredIsFound(d.active, names, y);
    StoredIsFound(d.inactive, names, y);
  }

  lemma WriteSafe(d: Disk, names: set<string>, pod: Pod)
    requires PlacedDisk(d, names) && Injective(names) && NoOrphans(d)
    requires ValidPod(pod) && FullName(pod) in names
    ensures var d' := Apply(d, InactiveWrite(pod));
            NoOrphans(d') && PlacedDisk(d', names) && Stored(d'.inactive, FullName(pod))
  {
    var d', x := Apply(d, InactiveWrite(pod)), FullName(pod);
    WrittenIsStored(d'.inactive, pod, x);
    forall y | Stored(d.active, y) || Stored(d.inactive, y) ensures Stored(d'.active, y) || Stored(d'.inactive, y) {
      if ManifestFile(x) == ManifestFile(y) { SameFileSameName(d, names, x, y); }
    }
    OwnersKept(d, d');
    ApplyPlaced(d, InactiveWrite(pod), names);
  }

  lemma StopSafe(d: Disk, names: set<string>, x: string)
    requires PlacedDisk(d, names) && Injective(names) && NoOrphans(d) && Stored(d.inactive, x)
    ensures var d' := Apply(d, RemoveActive(ManifestFile(x)));
            NoOrphans(d') && PlacedDisk(d', names) && d'.inactive == d.inactive
  {
    var d' := Apply(d, RemoveActive(ManifestFile(x)));
    StoredIsFound(d.inactive, names, x);
    forall y | Stored(d.active, y) || Stored(d.inactive, y) ensures Stored(d'.active, y) || Stored(d'.inactive, y) {
      if ManifestFile(x) == ManifestFile(y) { SameFileSameName(d, names, x, y); }
    }
    OwnersKept(d, d');
    ApplyPlaced(d, RemoveActive(ManifestFile(x)), names);
  }

  lemma StartSafe(d: Disk, names: set<string>, x: string)
    requires PlacedDisk(d, names) && Injective(names) && NoOrphans(d) && Stored(d.inactive, x)
    ensures var d' := Apply(d, Activate(ManifestFile(x)));
            NoOrphans(d') && PlacedDisk(d', names) && d'.inactive == d.inactive
  {
    var d' := Apply(d, Activate(ManifestFile(x)));
    StoredIsFound(d.inactive, names, x);
    forall y | Stored(d.active, y) || Stored(d.inactive, y) ensures Stored(d'.active, y) || Stored(d'.inactive, y) {
      if ManifestFile(x) == ManifestFile(y) { SameFileSameName(d, names, x, y); }
    }
    OwnersKept(d, d');
    ApplyPlaced(d, Activate(ManifestFile(x)), names);
  }

  lemma RemoveFileSafe(d: Disk, names: set<string>, x: string, op: DiskOp)
    requires PlacedDisk(d, names) && Injective(names) && NoOrphans(d) && x in names
    requires forall p :: p in d.data ==> Owner(p) != x
    requires op == RemoveActive(ManifestFile(x)) || op == RemoveInactive(ManifestFile(x))
    ensures NoOrphans(Apply(d, op)) && PlacedDisk(Apply(d, op), names) && Apply(d, op).data == d.data
  {
    var d' := Apply(d, op);
    forall y | y != x && (Stored(d.active, y) || Stored(d.inactive, y)) ensures Stored(d'.active, y) || Stored(d'.inactive, y) {
      if ManifestFile(x) == ManifestFile(y) { SameFileSameName(d, names, x, y); }
    }
    OthersOwn(d, d', x);
    ApplyPlaced(d, op, names);
  }

  lemma OthersOwn(d: Disk, d': Disk, x: string)
    requires NoOrphans(d) && d'.data == d.data && (forall p :: p in d.data ==> Owner(p) != x)
    requires forall y :: y != x && (Stored(d.active, y) || Stored(d.inactive, y)) ==> Stored(d'.active, y) || Stored(d'.inactive, y)
    ensures NoOrphans(d')
  {
  }

  // The operations of the handlers.

  lemma {:induction false} StopsSafe(d: Disk, names: set<string>, ids: seq<string>)
    requires PlacedDisk(d, names) && Injective(names) && NoOrphans(d)
    requires forall x :: x in ids ==> Stored(d.inactive, x)
    ensures var d' := Replay(d, StopOps(ids, {}));
            SafeOps(d, StopOps(ids, {})) && PlacedDisk(d', names) && d'.inactive == d.inactive && NoOrphans(d')
    decreases |ids|
  {
    if ids != [] {
      var n := |ids| - 1;
      var a, op := StopOps(ids[..n], {}), RemoveActive(ManifestFile(ids[n]));
      StopsSafe(d, names, ids[..n]);
      StopSafe(Replay(d, a), names, ids[n]);
      SafeOne(Replay(d, a), op);
      SafeConcat(d, a, [op]);
      ReplayConcat(d, a, [op]);
    }
  }

  lemma {:induction false} StartsSafe(d: Disk, names: set<string>, ids: seq<string>)
    requires PlacedDisk(d, names) && Injective(names) && NoOrphans(d)
    requires forall x :: x in ids ==> Stored(d.inactive, x)
    ensures var d' := Replay(d, StartOps(ids, {}));
            SafeOps(d, StartOps(ids, {})) && PlacedDisk(d', names) && d'.inactive == d.inactive && NoOrphans(d')
    decreases |ids|
  {
    if ids != [] {
      var n := |ids| - 1;
      var a, op := StartOps(ids[..n], {}), Activate(ManifestFile(ids[n]));
      StartsSafe(d, names, ids[..n]);
      StartSafe(Replay(d, a), names, ids[n]);
      SafeOne(Replay(d, a), op);
      SafeConcat(d, a, [op]);
      ReplayConcat(d, a, [op]);
    }
  }

  /** Deleting a tree of data, half-way or completely. */
  lemma RemoveAllSafe(d: Disk, names: set<string>, dir: Path, torn: set<Path>)
    requires PlacedDisk(d, names) && NoOrphans(d)
    ensures var d' := Apply(d, RemoveTree(dir));
            && SafeOps(d, RemoveAllOps(dir, {}, torn)) && Replay(d, RemoveAllOps(dir, {}, torn)) == d'
            && NoOrphans(d') && PlacedDisk(d', names)
  {
    var half := Apply(d, TearTree(dir, torn));
    LessData(d, half);
    LessData(d, Apply(half, RemoveTree(dir)));
    SafeOne(d, TearTree(dir, torn));
    SafeOne(half, RemoveTree(dir));
    ReplayOne(d, TearTree(dir, torn));
    SafeConcat(d, [TearTree(dir, torn)], [RemoveTree(dir)]);
    RemoveAllEffect(d, dir, torn);
    LessData(d, Apply(d, RemoveTree(dir)));
  }

  lemma LessData(d: Disk, d': Disk)
    requires NoOrphans(d) && d'.active == d.active && d'.inactive == d.inactive && d'.data.Keys <= d.data.Keys
    ensures NoOrphans(d')
  {
  }

  lemma RemoveOneSafe(d: Disk, names: set<string>, pod: Pod, torn: set<Path>)
    requires PlacedDisk(d, names) && Injective(names) && NoOrphans(d)
    requires ValidPod(pod) && FullName(pod) in names
    ensures var ops := RemoveOneOps(FullName(pod), {}, torn);
            SafeOps(d, ops) && PlacedDisk(Replay(d, ops), names) && NoOrphans(Replay(d, ops))
  {
    var x := FullName(pod);
    var a, b := RemoveAllOps(FullNameToSecretPath(x), {}, torn), RemoveAllOps(FullNameToConfigMapPath(x), {}, torn);
    var c, e := RemoveInactive(ManifestFile(x)), RemoveActive(ManifestFile(x));
    TreesSafe(d, names, pod, torn);
    FilesSafe(Replay(Replay(d, a), b), names, x);
    FourSafe(d, a, b, c, e);
    RemoveOneReplay(d, x, torn);
    SafeEnd(d, RemoveOneOps(x, {}, torn));
  }

  /** Deleting both data directories of a pod leaves no data of it. */
  lemma TreesSafe(d: Disk, names: set<string>, pod: Pod, torn: set<Path>)
    requires PlacedDisk(d, names) && NoOrphans(d) && ValidPod(pod)
    ensures var x := FullName(pod);
            var a, b := RemoveAllOps(FullNameToSecretPath(x), {}, torn), RemoveAllOps(FullNameToConfigMapPath(x), {}, torn);
            var d2 := Replay(Replay(d, a), b);
            && SafeOps(d, a) && SafeOps(Replay(d, a), b)
            && NoOrphans(d2) && PlacedDisk(d2, names)
            && forall p :: p in d2.data ==> Owner(p) != FullName(pod)
  {
    var x := FullName(pod);
    var secrets, configMaps := FullNameToSecretPath(x), FullNameToConfigMapPath(x);
    RemoveAllSafe(d, names, secrets, torn);
    RemoveAllSafe(Apply(d, RemoveTree(secrets)), names, configMaps, torn);
    TreesCleared(d, pod);
  }

  lemma TreesCleared(d: Disk, pod: Pod)
    requires ValidPod(pod)
    ensures var x := FullName(pod);
            forall p :: p in Apply(Apply(d, RemoveTree(FullNameToSecretPath(x))), RemoveTree(FullNameToConfigMapPath(x))).data && DataPath(p) ==> Owner(p) != x
  {
    var x := FullName(pod);
    forall p | p in Apply(Apply(d, RemoveTree(FullNameToSecretPath(x))), RemoveTree(FullNameToConfigMapPath(x))).data && DataPath(p)
      ensures Owner(p) != x
    {
      OwnerDirectory(p, pod);
    }
  }

  /** Deleting both manifests of a pod without data. */
  lemma FilesSafe(d: Disk, names: set<string>, x: string)
    requires PlacedDisk(d, names) && Injective(names) && NoOrphans(d) && x in names
    requires forall p :: p in d.data ==> Owner(p) != x
    ensures var c, e := RemoveInactive(ManifestFile(x)), RemoveActive(ManifestFile(x));
            SafeOps(d, [c]) && SafeOps(Apply(d, c), [e]) && PlacedDisk(Apply(Apply(d, c), e), names)
  {
    var c, e := RemoveInactive(ManifestFile(x)), RemoveActive(ManifestFile(x));
    RemoveFileSafe(d, names, x, c);
    SafeOne(d, c);
    RemoveFileSafe(Apply(d, c), names, x, e);
    SafeOne(Apply(d, c), e);
  }

  lemma FourSafe(d: Disk, a: seq<DiskOp>, b: seq<DiskOp>, c: DiskOp, e: DiskOp)
    requires SafeOps(d, a) && SafeOps(Replay(d, a), b) && SafeOps(Replay(Replay(d, a), b), [c])
    requires SafeOps(Apply(Replay(Replay(d, a), b), c), [e])
    ensures SafeOps(d, a + b + ([c] + [e]))
  {
    var d2 := Replay(Replay(d, a), b);
    ReplayOne(d2, c);
    SafeConcat(d2, [c], [e]);
    SafeConcat(d, a, b);
    ReplayConcat(d, a, b);
    SafeConcat(d, a + b, [c] + [e]);
  }

  lemma {:induction false} RemovesSafe(d: Disk, names: set<string>, pods: map<string, Pod>, ids: seq<string>, torn: set<Path>)
    requires PlacedDisk(d, names) && Injective(names) && NoOrphans(d)
    requires forall x :: x in ids ==> x in pods && x in names && ValidPod(pods[x]) && FullName(pods[x]) == x
    ensures SafeOps(d, RemoveOps(ids, {}, torn)) && PlacedDisk(Replay(d, RemoveOps(ids, {}, torn)), names)
    decreases |ids|
  {
    if ids != [] {
      var n := |ids| - 1;
      var a, b := RemoveOps(ids[..n], {}, torn), RemoveOneOps(ids[n], {}, torn);
      RemovesSafe(d, names, pods, ids[..n], torn);
      SafeEnd(d, a);
      RemoveOneSafe(Replay(d, a), names, pods[ids[n]], torn);
      SafeConcat(d, a, b);
      ReplayConcat(d, a, b);
    }
  }

  lemma DataOneSafe(d: Disk, pod: Pod, op: DiskOp)
    requires NoOrphans(d) && ValidPod(pod) && Stored(d.inactive, FullName(pod)) && OwnData(FullName(pod), op)
    ensures var d' := Apply(d, op);
            NoOrphans(d') && d'.active == d.active && d'.inactive == d.inactive
  {
    OwnerDirectory(op.path, pod);
  }

  /** Data files of a pod whose manifest is in place. */
  lemma {:induction false} DataSafe(d: Disk, names: set<string>, pod: Pod, c: Chunk)
    requires PlacedDisk(d, names) && NoOrphans(d) && ValidPod(pod) && c.name == FullName(pod) && Stored(d.inactive, c.name)
    requires forall k :: 0 <= k < |c.data| ==> OwnData(c.name, c.data[k])
    ensures var d' := Replay(d, c.data);
            SafeOps(d, c.data) && NoOrphans(d') && d'.active == d.active && d'.inactive == d.inactive
    decreases |c.data|
  {
    if c.data != [] {
      var n := |c.data| - 1;
      var a, op := c.data[..n], c.data[n];
      DataSafe(d, names, pod, c.(data := a));
      assert OwnData(c.name, c.data[n]);
      DataOneSafe(Replay(d, a), pod, op);
      SafeOne(Replay(d, a), op);
      SafeConcat(d, a, [op]);
      ReplayConcat(d, a, [op]);
      assert c.data == a + [op];
    }
  }

  predicate OwnData(x: string, op: DiskOp) {
    op.WriteData? && (FullNameToSecretPath(x) <= op.path || FullNameToConfigMapPath(x) <= op.path)
  }

  lemma ChunkSafe(d: Disk, names: set<string>, pod: Pod, c: Chunk)
    requires PlacedDisk(d, names) && Injective(names) && NoOrphans(d)
    requires ValidPod(pod) && c.name == FullName(pod) && c.name in names
    requires forall k :: 0 <= k < |c.data| ==> OwnData(c.name, c.data[k])
    ensures var ops := [InactiveWrite(pod)] + c.data;
            SafeOps(d, ops) && PlacedDisk(Replay(d, ops), names) && NoOrphans(Replay(d, ops))
  {
    var op := InactiveWrite(pod);
    WriteSafe(d, names, pod);
    SafeOne(d, op);
    DataSafe(Apply(d, op), names, pod, c);
    assert Replay(d, [op]) == Apply(d, op);
    SafeConcat(d, [op], c.data);
    ReplayConcat(d, [op], c.data);
  }

  lemma {:induction false} CreateSafe(d: Disk, names: set<string>, pods: map<string, Pod>, chunks: seq<Chunk>)
    requires PlacedDisk(d, names) && Injective(names) && NoOrphans(d)
    requires forall c :: c in chunks ==> c.name in pods && c.written && ChunkOf(pods, c)
    requires forall x :: x in pods ==> x in names && ValidPod(pods[x]) && FullName(pods[x]) == x
    ensures var ops := CreateOps(pods, chunks);
            SafeOps(d, ops) && PlacedDisk(Replay(d, ops), names) && NoOrphans(Replay(d, ops))
    decreases |chunks|
  {
    if chunks != [] {
      var n := |chunks| - 1;
      var a, c := CreateOps(pods, chunks[..n]), chunks[n];
      var b := [InactiveWrite(pods[c.name])] + c.data;
      CreateSafe(d, names, pods, chunks[..n]);
      assert ChunkOf(pods, c);
      ChunkSafe(Replay(d, a), names, pods[c.name], c);
      SafeConcat(d, a, b);
      ReplayConcat(d, a, b);
    }
  }

  // ---------------------------------------------------------------------------------------------
  // Whole runs.

  lemma OperationsSafe(cfg: Config, names: set<string>, d: Disk, m: Memory, obs: Observation, io: Io)
    requires PlacedDisk(d, names) && Injective(names) && NoOrphans(d)
    requires RepOk(m, cfg.pod) && TracksWithin(m, names) && ValidIo(cfg, m, obs, io) && io.faults == {}
    ensures SafeOps(d, Operations(m, io))
  {
    PodsOfGood(m, cfg.pod, names);
    ListedAreTracked(cfg, m, obs, io);
    ListedNames(io.chunks, PodsOf(m).Keys);
    assert forall c :: c in io.chunks ==> ChunkOf(PodsOf(m), c);
    PlanSafe(names, d, PodsOf(m), io);
  }

  lemma PlanSafe(names: set<string>, d: Disk, pods: map<string, Pod>, io: Io)
    requires PlacedDisk(d, names) && Injective(names) && NoOrphans(d)
    requires forall c :: c in io.chunks ==> c.name in pods && c.written && ChunkOf(pods, c)
    requires NoDuplicates(ChunkNames(io.chunks)) && forall x :: x in pods ==> x in ChunkNames(io.chunks)
    requires forall x :: x in pods ==> x in names && ValidPod(pods[x]) && FullName(pods[x]) == x
    requires forall x :: x in io.stops || x in io.starts || x in io.removes ==> x in pods
    ensures SafeOps(d, CreateOps(pods, io.chunks) + StopOps(io.stops, {}) + StartOps(io.starts, {}) + RemoveOps(io.removes, {}, io.torn))
  {
    var create := CreateOps(pods, io.chunks);
    var stop, start, remove := StopOps(io.stops, {}), StartOps(io.starts, {}), RemoveOps(io.removes, {}, io.torn);
    CreatedSafe(names, d, pods, io.chunks);
    HandlersSafe(Replay(d, create), names, pods, io);
    SafeConcat(d, create, stop + (start + remove));
    Regroup(create, stop, start, remove);
  }

  lemma Regroup(a: seq<DiskOp>, b: seq<DiskOp>, c: seq<DiskOp>, e: seq<DiskOp>)
    ensures a + (b + (c + e)) == a + b + c + e
  {
  }

  lemma CreatedSafe(names: set<string>, d: Disk, pods: map<string, Pod>, chunks: seq<Chunk>)
    requires PlacedDisk(d, names) && Injective(names) && NoOrphans(d)
    requires forall c :: c in chunks ==> c.name in pods && c.written && ChunkOf(pods, c)
    requires NoDuplicates(ChunkNames(chunks)) && forall x :: x in pods ==> x in ChunkNames(chunks)
    requires forall x :: x in pods ==> x in names && ValidPod(pods[x]) && FullName(pods[x]) == x
    ensures var d' := Replay(d, CreateOps(pods, chunks));
            && SafeOps(d, CreateOps(pods, chunks)) && PlacedDisk(d', names) && NoOrphans(d')
            && forall x :: x in pods ==> Stored(d'.inactive, x)
  {
    CreateSafe(d, names, pods, chunks);
    AllWritten(names, d, pods, chunks);
  }

  lemma AllWritten(names: set<string>, d: Disk, pods: map<string, Pod>, chunks: seq<Chunk>)
    requires Injective(names)
    requires forall c :: c in chunks ==> c.name in pods && c.written && ChunkOf(pods, c)
    requires NoDuplicates(ChunkNames(chunks)) && forall x :: x in pods ==> x in ChunkNames(chunks)
    requires forall x :: x in pods ==> x in names && ValidPod(pods[x]) && FullName(pods[x]) == x
    ensures forall x :: x in pods ==> Stored(Replay(d, CreateOps(pods, chunks)).inactive, x)
  {
    var d1 := Replay(d, CreateOps(pods, chunks));
    CreateEffect(d, pods, chunks, names);
    forall x | x in pods ensures Stored(d1.inactive, x) {
      WrittenIsStored(d1.inactive, pods[x], x);
    }
  }

  lemma HandlersSafe(d: Disk, names: set<string>, pods: map<string, Pod>, io: Io)
    requires PlacedDisk(d, names) && Injective(names) && NoOrphans(d)
    requires forall x :: x in pods ==> x in names && ValidPod(pods[x]) && FullName(pods[x]) == x
    requires forall x :: x in io.stops || x in io.starts ==> Stored(d.inactive, x)
    requires forall x :: x in io.removes ==> x in pods
    ensures SafeOps(d, StopOps(io.stops, {}) + (StartOps(io.starts, {}) + RemoveOps(io.removes, {}, io.torn)))
  {
    var stop, start, remove := StopOps(io.stops, {}), StartOps(io.starts, {}), RemoveOps(io.removes, {}, io.torn);
    StopsSafe(d, names, io.stops);
    var d2 := Replay(d, stop);
    StartsSafe(d2, names, io.starts);
    RemovesSafe(Replay(d2, start), names, pods, io.removes, io.torn);
    SafeConcat(d2, start, remove);
    SafeConcat(d, stop, start + remove);
  }

  lemma ListedAreTracked(cfg: Config, m: Memory, obs: Observation, io: Io)
    requires RepOk(m, cfg.pod) && ValidIo(cfg, m, obs, io)
    ensures forall x :: x in io.stops || x in io.starts || x in io.removes ==> Tracks(m, x)
  {
    DecisionDisjoint(m, obs, cfg.grace, cfg.pod);
    assert forall x :: x in io.stops ==> x in Elements(io.stops);
    assert forall x :: x in io.starts ==> x in Elements(io.starts);
    assert forall x :: x in io.removes ==> x in Elements(io.removes);
  }

  lemma CleanedOrphans(d: Disk, lingering: set<string>)
    requires NoOrphans(d)
    ensures NoOrphans(Cleaned(d, lingering))
  {
    forall x
      ensures Stored(d.active, x) <==> Stored(Cleaned(d, lingering).active, x)
      ensures Stored(d.inactive, x) <==> Stored(Cleaned(d, lingering).inactive, x)
    {
      CleanedStores(d, lingering, x);
    }
  }

  lemma LitteredOrphans(d: Disk, litter: Litter)
    requires NoOrphans(d) && OnlyTemporary(litter.active) && OnlyTemporary(litter.inactive)
    ensures NoOrphans(Littered(d, litter))
  {
    forall x
      ensures Stored(d.active, x) <==> Stored(Littered(d, litter).active, x)
      ensures Stored(d.inactive, x) <==> Stored(Littered(d, litter).inactive, x)
    {
      LitteredStores(d, litter, x);
    }
  }

  lemma StepOrphans(cfg: Config, names: set<string>, d: Disk, m: Memory, after: Memory, ev: Event, w': World)
    requires PlacedDisk(d, names) && Injective(names) && NoOrphans(d)
    requires RepOk(m, cfg.pod) && TracksWithin(m, names)
    requires Step(cfg, d, m, after, ev, w') && ev.io.faults == {}
    ensures NoOrphans(w'.disk)
  {
    var d0, ops := Cleaned(d, ev.io.lingering), Operations(m, ev.io);
    CleanedOrphans(d, ev.io.lingering);
    CleanedPlaced(d, ev.io.lingering, names);
    OperationsSafe(cfg, names, d0, m, ev.obs, ev.io);
    SafePrefix(d0, ops, |ev.Performed(ops)|);
    assert ops[..|ev.Performed(ops)|] == ev.Performed(ops);
    LitteredOrphans(Replay(d0, ev.Performed(ops)), ev.io.litter);
  }

  lemma RunOrphansStep(r: Run, i: nat)
    requires i < |r.evs| && Injective(r.names) && r.evs[i].io.faults == {} && NoOrphans(r.ws[i].disk)
    ensures NoOrphans(r.ws[i + 1].disk)
  {
    RunEvent(r, i);
    StepOrphans(r.cfg, r.names, r.ws[i].disk, r.mids[i], r.decisions[i].mem, r.evs[i], r.ws[i + 1]);
  }

  /** In every run without failing operations, crashes at any operation included, each stored secret and
      config map belongs to a pod whose checkpoint is on disk, so that removing the pod removes it. */
  lemma NoOrphanedData(r: Run, i: nat)
    requires Injective(r.names) && FaultFree(r) && NoOrphans(r.ws[0].disk) && i <= |r.evs|
    ensures NoOrphans(r.ws[i].disk)
  {
    for j := 0 to i
      invariant NoOrphans(r.ws[j].disk)
    {
      RunOrphansStep(r, j);
    }
  }

  /** Nothing is left of any tracked checkpoint, but for new ones that never had a state. */
  ghost predicate AllGone(d: Disk, m: Memory) {
    forall x :: Tracks(m, x) && !Entry(m, x).state.StateNone? ==> Gone(d, x)
  }

  /** The crash-safe self-removal as part of a run: cut off anywhere, it keeps the checkpointer's active
      manifest until nothing else of what it tracks is left, neither manifests nor stored data. */
  lemma SelfRemovalInRun(r: Run, i: nat)
    requires i < |r.evs| && r.evs[i].io.faults == {} && Injective(r.names)
    requires r.decisions[i].selfAction == Remove
    requires ManifestFile(r.cfg.Self()) in r.ws[i].disk.active
    ensures ManifestFile(r.cfg.Self()) in r.ws[i + 1].disk.active || AllGone(r.ws[i + 1].disk, r.mids[i])
  {
    RunEvent(r, i);
    SelfRemovalStep(r.cfg, r.names, r.ws[i].disk, r.mids[i], r.decisions[i].mem, r.evs[i], r.ws[i + 1]);
  }

  lemma SelfRemovalStep(cfg: Config, names: set<string>, d: Disk, m: Memory, after: Memory, ev: Event, w': World)
    requires Injective(names) && RepOk(m, cfg.pod) && TracksWithin(m, names)
    requires Step(cfg, d, m, after, ev, w') && ev.io.faults == {} && SelfAction(m, ev.obs, cfg.grace) == Remove
    requires ManifestFile(cfg.Self()) in d.active
    ensures ManifestFile(cfg.Self()) in w'.disk.active || AllGone(w'.disk, m)
  {
    var d0, ops := Cleaned(d, ev.io.lingering), Operations(m, ev.io);
    TrackedNotTemporary(m, cfg.pod);
    SelfOutlives(cfg, names, d0, m, ev.obs, ev.io, |ev.Performed(ops)|);
    assert ops[..|ev.Performed(ops)|] == ev.Performed(ops);
    var d1 := Replay(d0, ev.Performed(ops));
    forall x | Tracks(m, x) && Gone(d1, x) ensures Gone(w'.disk, x) {
      assert !IsTemporary(ManifestFile(x));
    }
  }

  lemma TrackedNotTemporary(m: Memory, cp: CheckpointerPod)
    requires RepOk(m, cp)
    ensures forall x :: Tracks(m, x) ==> !IsTemporary(ManifestFile(x))
  {
    forall x | Tracks(m, x) ensures !IsTemporary(ManifestFile(x)) {
      ManifestFileOfPod(Entry(m, x).pod);
    }
  }

  lemma SelfOutlives(cfg: Config, names: set<string>, d: Disk, m: Memory, obs: Observation, io: Io, done: nat)
    requires Injective(names) && RepOk(m, cfg.pod) && TracksWithin(m, names)
    requires ValidIo(cfg, m, obs, io) && io.faults == {} && SelfAction(m, obs, cfg.grace) == Remove
    requires ManifestFile(cfg.Self()) in d.active && done <= |Operations(m, io)|
    ensures var d' := Replay(d, Operations(m, io)[..done]);
            ManifestFile(cfg.Self()) in d'.active || forall x :: x in io.removes ==> Gone(d', x)
    ensures forall x :: x in io.removes <==> Tracks(m, x) && !Entry(m, x).state.StateNone?
  {
    SelfRemovalPlan(m, obs, cfg.grace, cfg.pod, io.starts, io.stops, io.removes);
    CreateSpares(PodsOf(m), io.chunks, ManifestFile(cfg.Self()));
    RemovalOperations(m, io);
    RemovalPrefix(names, d, CreateOps(PodsOf(m), io.chunks), io.removes, io.torn, done);
  }

  lemma RemovalOperations(m: Memory, io: Io)
    requires forall c :: c in io.chunks ==> c.name in PodsOf(m)
    requires io.starts == [] && io.stops == [] && io.faults == {}
    ensures Operations(m, io) == CreateOps(PodsOf(m), io.chunks) + RemoveOps(io.removes, {}, io.torn)
  {
  }

  lemma RemovalPrefix(names: set<string>, d: Disk, create: seq<DiskOp>, ids: seq<string>, torn: set<Path>, done: nat)
    requires |ids| > 0 && NoDuplicates(ids) && Injective(names) && forall x :: x in ids ==> x in names
    requires ManifestFile(ids[|ids| - 1]) in d.active && Spares(create, ManifestFile(ids[|ids| - 1]))
    requires done <= |create + RemoveOps(ids, {}, torn)|
    ensures LastStands(Replay(d, (create + RemoveOps(ids, {}, torn))[..done]), ids)
  {
    if done <= |create| {
      var d' := BeforeRemovals(d, create, RemoveOps(ids, {}, torn), done, ManifestFile(ids[|ids| - 1]));
    } else {
      AfterCreate(d, create, RemoveOps(ids, {}, torn), done);
      DuringRemovals(names, d, create, ids, torn, done - |create|);
    }
  }

  lemma DuringRemovals(names: set<string>, d: Disk, create: seq<DiskOp>, ids: seq<string>, torn: set<Path>, done: nat)
    requires |ids| > 0 && NoDuplicates(ids) && Injective(names) && forall x :: x in ids ==> x in names
    requires ManifestFile(ids[|ids| - 1]) in d.active && Spares(create, ManifestFile(ids[|ids| - 1]))
    requires done <= |RemoveOps(ids, {}, torn)|
    ensures LastStands(Replay(Replay(d, create), RemoveOps(ids, {}, torn)[..done]), ids)
  {
    SparedStays(d, create, ManifestFile(ids[|ids| - 1]));
    LastOutlives(ids, torn, names, Replay(d, create), done);
  }

  lemma BeforeRemovals(d: Disk, create: seq<DiskOp>, remove: seq<DiskOp>, done: nat, file: string) returns (d': Disk)
    requires done <= |create| && Spares(create, file) && file in d.active
    ensures d' == Replay(d, (create + remove)[..done]) && file in d'.active
  {
    assert (create + remove)[..done] == create[..done];
    SparedStays(d, create[..done], file);
    d' := Replay(d, create[..done]);
  }

  lemma AfterCreate(d: Disk, create: seq<DiskOp>, remove: seq<DiskOp>, done: nat)
    requires |create| <= done <= |create + remove|
    ensures Replay(d, (create + remove)[..done]) == Replay(Replay(d, create), remove[..done - |create|])
  {
    assert (create + remove)[..done] == create + remove[..done - |create|];
    ReplayConcat(d, create, remove[..done - |create|]);
  }

  lemma {:induction false} CreateSpares(pods: map<string, Pod>, chunks: seq<Chunk>, file: string)
    requires forall c :: c in chunks ==> c.name in pods && ChunkOf(pods, c)
    ensures Spares(CreateOps(pods, chunks), file)
    decreases |chunks|
  {
    if chunks != [] {
      var n := |chunks| - 1;
      CreateSpares(pods, chunks[..n], file);
      assert ChunkOf(pods, chunks[n]);
      assert forall k :: 0 <= k < |chunks[n].data| ==> chunks[n].data[k] in chunks[n].data;
    }
  }
}
