/** Why a manifest or a data file comes, changes or goes, whatever operations fail and wherever an
    iteration is cut off. */
module Causes {
  import opened Wrappers
  import opened Strings
  import opened Kubernetes
  import opened Pods
  import opened CheckpointState
  import opened Checkpoints
  import opened Disk
  import opened DiskEffects
  import opened Runs
  import opened Agreement
  import opened GracePeriod
  import opened CrashSafety

  // ---------------------------------------------------------------------------------------------
  // Operations and the one file they concern.

  /** Writes into the inactive directory are checkpoints in their places. */
  ghost predicate Genuine(ops: seq<DiskOp>, names: set<string>) {
    PlacedOps(ops, names) && forall op :: op in ops && op.WriteInactive? ==> CheckpointFile(op.content)
  }

  ghost predicate WritesFile(ops: seq<DiskOp>, file: string) {
    exists op :: op in ops && op.WriteInactive? && op.file == file
  }

  lemma OpsPrefix(ops: seq<DiskOp>)
    requires ops != []
    ensures var n := |ops| - 1;
            forall o :: o in ops <==> o in ops[..n] || o == ops[n]
  {
    assert ops == ops[..|ops| - 1] + [ops[|ops| - 1]];
  }

  /** An inactive checkpoint that is there, or is written, and not removed. */
  lemma {:induction false} InactiveKept(d: Disk, ops: seq<DiskOp>, names: set<string>, x: string)
    requires Genuine(ops, names) && Injective(names) && x in names && !IsTemporary(ManifestFile(x))
    requires RemoveInactive(ManifestFile(x)) !in ops && (Stored(d.inactive, x) || WritesFile(ops, ManifestFile(x)))
    ensures Stored(Replay(d, ops).inactive, x)
    decreases |ops|
  {
    if ops != [] {
      var n := |ops| - 1;
      var op := ops[n];
      OpsPrefix(ops);
      assert PlacedOp(op, names);
      if op.WriteInactive? && op.file == ManifestFile(x) {
        assert FullName(op.content.pod) == x;
      } else {
        InactiveKept(d, ops[..n], names, x);
      }
    }
  }

  /** The inactive file after some operations is the old one or one that they wrote. */
  lemma {:induction false} InactiveOrigin(d: Disk, ops: seq<DiskOp>, file: string)
    requires file in Replay(d, ops).inactive
    ensures (file in d.inactive && Replay(d, ops).inactive[file] == d.inactive[file])
            || WriteInactive(file, Replay(d, ops).inactive[file]) in ops
    decreases |ops|
  {
    if ops != [] {
      var n := |ops| - 1;
      OpsPrefix(ops);
      if !(ops[n].WriteInactive? && ops[n].file == file) {
        InactiveOrigin(d, ops[..n], file);
      }
    }
  }

  /** Only an activation creates or changes an active file. */
  lemma {:induction false} ActiveOrigin(d: Disk, ops: seq<DiskOp>, file: string)
    requires Activate(file) !in ops && file in Replay(d, ops).active
    ensures file in d.active && Replay(d, ops).active[file] == d.active[file]
    decreases |ops|
  {
    if ops != [] {
      OpsPrefix(ops);
      ActiveOrigin(d, ops[..|ops| - 1], file);
    }
  }

  /** An active checkpoint whose inactive file is not one and is not touched: it is lost exactly if it is
      removed, or overwritten by that file. */
  lemma {:induction false} ActiveFate(d: Disk, ops: seq<DiskOp>, x: string)
    requires !WritesFile(ops, ManifestFile(x)) && RemoveInactive(ManifestFile(x)) !in ops
    requires Activate(ManifestFile(x)) !in ops || RemoveActive(ManifestFile(x)) !in ops
    requires Stored(d.active, x) && !Stored(d.inactive, x)
    ensures var d' := Replay(d, ops);
            && !Stored(d'.inactive, x) && (ManifestFile(x) in d'.inactive <==> ManifestFile(x) in d.inactive)
            && (Stored(d'.active, x) <==>
                 RemoveActive(ManifestFile(x)) !in ops && (Activate(ManifestFile(x)) in ops ==> ManifestFile(x) !in d.inactive))
    decreases |ops|
  {
    if ops != [] {
      OpsPrefix(ops);
      ActiveFate(d, ops[..|ops| - 1], x);
    }
  }

  lemma {:induction false} DataKept(d: Disk, ops: seq<DiskOp>, p: Path)
    requires p in d.data && forall op :: op in ops && (op.TearTree? || op.RemoveTree?) ==> !(op.dir <= p)
    ensures p in Replay(d, ops).data
    decreases |ops|
  {
    if ops != [] {
      OpsPrefix(ops);
      DataKept(d, ops[..|ops| - 1], p);
    }
  }

  // ---------------------------------------------------------------------------------------------
  // The operations of an iteration, by what they are about.

  lemma {:induction false} StopOpsAbout(ids: seq<string>, faults: set<DiskOp>, op: DiskOp)
    ensures op in StopOps(ids, faults) <==> op.RemoveActive? && op.file in Files(ids) && op !in faults
  {
    if ids != [] {
      FilesSnoc(ids);
      StopOpsAbout(ids[..|ids| - 1], faults, op);
    }
  }

  lemma {:induction false} StartOpsAbout(ids: seq<string>, faults: set<DiskOp>, op: DiskOp)
    ensures op in StartOps(ids, faults) <==> op.Activate? && op.file in Files(ids) && op !in faults
  {
    if ids != [] {
      FilesSnoc(ids);
      StartOpsAbout(ids[..|ids| - 1], faults, op);
    }
  }

  /** A removal of `id`: of one of its trees, or of one of its manifests. */
  predicate Removes(op: DiskOp, id: string) {
    match op
    case RemoveActive(file) => file == ManifestFile(id)
    case RemoveInactive(file) => file == ManifestFile(id)
    case TearTree(dir, _) => dir == FullNameToSecretPath(id) || dir == FullNameToConfigMapPath(id)
    case RemoveTree(dir) => dir == FullNameToSecretPath(id) || dir == FullNameToConfigMapPath(id)
    case _ => false
  }

  lemma RemoveOneOpsAbout(id: string, faults: set<DiskOp>, torn: set<Path>, op: DiskOp)
    requires op in RemoveOneOps(id, faults, torn)
    ensures Removes(op, id)
  {
  }

  lemma {:induction false} RemoveOpsAbout(ids: seq<string>, faults: set<DiskOp>, torn: set<Path>, op: DiskOp)
    requires op in RemoveOps(ids, faults, torn)
    ensures exists id :: id in ids && Removes(op, id)
  {
    if ids != [] {
      var n := |ids| - 1;
      if op in RemoveOps(ids[..n], faults, torn) {
        RemoveOpsAbout(ids[..n], faults, torn, op);
      } else {
        RemoveOneOpsAbout(ids[n], faults, torn, op);
        assert ids[n] in ids;
      }
    }
  }

  /** Which operations a removal performs, given the failing ones: the two trees independently, and the active
      manifest only after the inactive one is gone. */
  lemma RemoveOneExactly(id: string, faults: set<DiskOp>, torn: set<Path>)
    ensures var ops, file := RemoveOneOps(id, faults, torn), ManifestFile(id);
            && (RemoveTree(FullNameToSecretPath(id)) in ops <==> RemoveTree(FullNameToSecretPath(id)) !in faults)
            && (RemoveTree(FullNameToConfigMapPath(id)) in ops <==> RemoveTree(FullNameToConfigMapPath(id)) !in faults)
            && (RemoveInactive(file) in ops <==> RemoveInactive(file) !in faults)
            && (RemoveActive(file) in ops <==> RemoveInactive(file) !in faults && RemoveActive(file) !in faults)
  {
    var a, b := RemoveAllOps(FullNameToSecretPath(id), faults, torn), RemoveAllOps(FullNameToConfigMapPath(id), faults, torn);
    var file := ManifestFile(id);
    var c := if RemoveInactive(file) in faults then [] else [RemoveInactive(file)] + Attempt(RemoveActive(file), faults);
    InThree(a, b, c);
    assert RemoveOneOps(id, faults, torn) == a + b + c;
  }

  lemma InThree(a: seq<DiskOp>, b: seq<DiskOp>, c: seq<DiskOp>)
    ensures forall op :: op in a + b + c <==> op in a || op in b || op in c
  {
  }

  /** The same for a list: every name on it, and no other. */
  lemma {:induction false} RemoveOpsExactly(ids: seq<string>, faults: set<DiskOp>, torn: set<Path>, id: string)
    requires id in ids
    ensures forall op :: op in RemoveOneOps(id, faults, torn) ==> op in RemoveOps(ids, faults, torn)
  {
    var n := |ids| - 1;
    if ids[n] != id {
      assert id in ids[..n];
      RemoveOpsExactly(ids[..n], faults, torn, id);
    }
  }

  /** The chunk of `x` wrote its manifest, or found it in place. */
  ghost predicate Wrote(chunks: seq<Chunk>, x: string) {
    exists c :: c in chunks && c.name == x && c.written
  }

  /** A write of the manifest of a tracked pod. */
  ghost predicate ManifestOp(pods: map<string, Pod>, chunks: seq<Chunk>, op: DiskOp) {
    exists y :: y in pods && Wrote(chunks, y) && op == InactiveWrite(pods[y])
  }

  lemma {:induction false} CreateOpsAbout(pods: map<string, Pod>, chunks: seq<Chunk>, op: DiskOp)
    requires forall c :: c in chunks ==> c.name in pods && ChunkOf(pods, c)
    requires op in CreateOps(pods, chunks)
    ensures op.WriteData? || ManifestOp(pods, chunks, op)
    decreases |chunks|
  {
    if chunks != [] {
      var n := |chunks| - 1;
      var c := chunks[n];
      assert c in chunks && ChunkOf(pods, c);
      if op in CreateOps(pods, chunks[..n]) {
        CreateOpsAbout(pods, chunks[..n], op);
        if !op.WriteData? {
          var y :| y in pods && Wrote(chunks[..n], y) && op == InactiveWrite(pods[y]);
          assert Wrote(chunks, y);
        }
      } else if !op.WriteData? {
        assert op in ChunkOps(pods[c.name], c);
        assert Wrote(chunks, c.name);
      }
    }
  }

  lemma {:induction false} WroteInOps(pods: map<string, Pod>, chunks: seq<Chunk>, x: string)
    requires (forall c :: c in chunks ==> c.name in pods) && Wrote(chunks, x) && x in pods
    ensures InactiveWrite(pods[x]) in CreateOps(pods, chunks)
    decreases |chunks|
  {
    if chunks != [] {
      var n := |chunks| - 1;
      if !(chunks[n].name == x && chunks[n].written) {
        assert Wrote(chunks[..n], x);
        WroteInOps(pods, chunks[..n], x);
      }
    }
  }

  /** What an operation of an iteration says about the lists and the memory. */
  ghost predicate About(m: Memory, io: Io, op: DiskOp) {
    match op
    case WriteInactive(_, _) => ManifestOp(PodsOf(m), io.chunks, op)
    case WriteData(_, _) => true
    case Activate(file) => file in Files(io.starts) && op !in io.faults
    case RemoveActive(file) => (file in Files(io.stops) && op !in io.faults) || exists id :: id in io.removes && Removes(op, id)
    case _ => exists id :: id in io.removes && Removes(op, id)
  }

  lemma OperationAbout(cfg: Config, m: Memory, obs: Observation, io: Io, op: DiskOp)
    requires ValidIo(cfg, m, obs, io) && op in Operations(m, io)
    ensures About(m, io, op)
  {
    if op in CreateOps(PodsOf(m), io.chunks) {
      CreateOpsAbout(PodsOf(m), io.chunks, op);
    } else if op in StopOps(io.stops, io.faults) {
      StopOpsAbout(io.stops, io.faults, op);
    } else if op in StartOps(io.starts, io.faults) {
      StartOpsAbout(io.starts, io.faults, op);
    } else {
      RemoveOpsAbout(io.removes, io.faults, io.torn, op);
    }
  }

  /** Operations that say what those of an iteration say. */
  ghost predicate AllAbout(m: Memory, io: Io, ops: seq<DiskOp>) {
    forall op :: op in ops ==> About(m, io, op)
  }

  lemma PerformedAbout(cfg: Config, d: Disk, m: Memory, after: Memory, ev: Event, w': World)
    requires Step(cfg, d, m, after, ev, w')
    ensures AllAbout(m, ev.io, ev.Performed(Operations(m, ev.io)))
  {
    forall op | op in ev.Performed(Operations(m, ev.io)) ensures About(m, ev.io, op) {
      OperationAbout(cfg, m, ev.obs, ev.io, op);
    }
  }

  /** The operations come in the order of the loop: manifests and data are written before anything else, and
      no tree or inactive manifest is removed before the last activation; no manifest is deactivated after an
      activation but by a removal. */
  lemma OperationsInOrder(cfg: Config, m: Memory, obs: Observation, io: Io, i: nat, j: nat)
    requires ValidIo(cfg, m, obs, io) && i < j < |Operations(m, io)|
    ensures var a, b := Operations(m, io)[i], Operations(m, io)[j];
            && (b.WriteInactive? || b.WriteData? ==> a.WriteInactive? || a.WriteData?)
            && (b.Activate? ==> !a.TearTree? && !a.RemoveTree? && !a.RemoveInactive?)
            && (a.Activate? && b.RemoveActive? ==> exists id :: id in io.removes && Removes(b, id))
  {
    var create, stop, start := CreateOps(PodsOf(m), io.chunks), StopOps(io.stops, io.faults), StartOps(io.starts, io.faults);
    var remove := RemoveOps(io.removes, io.faults, io.torn);
    PhaseOf(create, stop, start, remove, i, j);
    PhaseAbout(cfg, m, obs, io, Operations(m, io)[i]);
    PhaseAbout(cfg, m, obs, io, Operations(m, io)[j]);
  }

  lemma PhaseOf<T>(a: seq<T>, b: seq<T>, c: seq<T>, d: seq<T>, i: nat, j: nat)
    requires i < j < |a + b + c + d|
    ensures var s := a + b + c + d;
            || (s[i] in a)
            || (s[i] in b && (s[j] in b || s[j] in c || s[j] in d))
            || (s[i] in c && (s[j] in c || s[j] in d))
            || (s[i] in d && s[j] in d)
    ensures var s := a + b + c + d; s[j] in a || s[j] in b || s[j] in c || s[j] in d
  {
  }

  lemma PhaseAbout(cfg: Config, m: Memory, obs: Observation, io: Io, op: DiskOp)
    requires ValidIo(cfg, m, obs, io)
    ensures op in CreateOps(PodsOf(m), io.chunks) ==> op.WriteInactive? || op.WriteData?
    ensures op in StopOps(io.stops, io.faults) ==> op.RemoveActive?
    ensures op in StartOps(io.starts, io.faults) ==> op.Activate?
    ensures op in RemoveOps(io.removes, io.faults, io.torn) ==> exists id :: id in io.removes && Removes(op, id)
  {
    if op in CreateOps(PodsOf(m), io.chunks) { CreateOpsAbout(PodsOf(m), io.chunks, op); }
    StopOpsAbout(io.stops, io.faults, op);
    StartOpsAbout(io.starts, io.faults, op);
    if op in RemoveOps(io.removes, io.faults, io.torn) { RemoveOpsAbout(io.removes, io.faults, io.torn, op); }
  }

  // ---------------------------------------------------------------------------------------------
  // The operations about one name, and the lists.

  /** The operations about the manifests of `x` show in the lists. */
  ghost predicate OpsListed(ops: seq<DiskOp>, dec: Decision, m: Memory, x: string) {
    && (Activate(ManifestFile(x)) in ops ==> x in dec.starts)
    && (RemoveActive(ManifestFile(x)) in ops ==> x in dec.stops || x in dec.removes)
    && (RemoveInactive(ManifestFile(x)) in ops ==> x in dec.removes)
    && (forall op :: op in ops && op.WriteInactive? && op.file == ManifestFile(x) ==> x in PodsOf(m) && op == InactiveWrite(PodsOf(m)[x]))
  }

  lemma RemovedFile(ids: seq<string>, s: set<string>, names: set<string>, x: string, op: DiskOp)
    requires Listing(ids, s) && s <= names && x in names && Injective(names)
    requires (exists id :: id in ids && Removes(op, id)) && (op.RemoveActive? || op.RemoveInactive?) && op.file == ManifestFile(x)
    ensures x in s
  {
    var id :| id in ids && Removes(op, id);
    assert id in Elements(ids);
  }

  lemma FilesDecide(cfg: Config, names: set<string>, m: Memory, obs: Observation, io: Io, ops: seq<DiskOp>, x: string)
    requires RepOk(m, cfg.pod) && TracksWithin(m, names) && Injective(names) && x in names
    requires IsPlan(m, obs, cfg.grace, io.starts, io.stops, io.removes) && AllAbout(m, io, ops)
    ensures OpsListed(ops, Processed(m, obs, cfg.grace), m, x)
  {
    var dec, file := Processed(m, obs, cfg.grace), ManifestFile(x);
    DecisionDisjoint(m, obs, cfg.grace, cfg.pod);
    InFiles(io.starts, dec.starts, names, x);
    InFiles(io.stops, dec.stops, names, x);
    if Activate(file) in ops { assert About(m, io, Activate(file)); }
    if RemoveActive(file) in ops && file !in Files(io.stops) {
      assert About(m, io, RemoveActive(file));
      RemovedFile(io.removes, dec.removes, names, x, RemoveActive(file));
    }
    if RemoveInactive(file) in ops {
      assert About(m, io, RemoveInactive(file));
      RemovedFile(io.removes, dec.removes, names, x, RemoveInactive(file));
    }
    WritesOwn(cfg, names, m, io, ops, x);
  }

  lemma WritesOwn(cfg: Config, names: set<string>, m: Memory, io: Io, ops: seq<DiskOp>, x: string)
    requires RepOk(m, cfg.pod) && TracksWithin(m, names) && Injective(names) && x in names && AllAbout(m, io, ops)
    ensures forall op :: op in ops && op.WriteInactive? && op.file == ManifestFile(x) ==>
              x in PodsOf(m) && Wrote(io.chunks, x) && op == InactiveWrite(PodsOf(m)[x])
  {
    PodsOfGood(m, cfg.pod, names);
    forall op | op in ops && op.WriteInactive? && op.file == ManifestFile(x)
      ensures x in PodsOf(m) && Wrote(io.chunks, x) && op == InactiveWrite(PodsOf(m)[x])
    {
      var y :| y in PodsOf(m) && Wrote(io.chunks, y) && op == InactiveWrite(PodsOf(m)[y]);
      assert y in names;
    }
  }

  lemma WritesGenuine(cfg: Config, names: set<string>, m: Memory, io: Io, ops: seq<DiskOp>)
    requires RepOk(m, cfg.pod) && TracksWithin(m, names) && AllAbout(m, io, ops)
    ensures Genuine(ops, names)
  {
    PodsOfGood(m, cfg.pod, names);
    forall op | op in ops && op.WriteInactive? ensures PlacedOp(op, names) && CheckpointFile(op.content) {
      var y :| y in PodsOf(m) && Wrote(io.chunks, y) && op == InactiveWrite(PodsOf(m)[y]);
      assert FullName(Sanitized(PodsOf(m)[y])) == y;
    }
  }

  // ---------------------------------------------------------------------------------------------
  // One event.

  /** The manifests of `x` before and after, against the decision. */
  ghost predicate Caused(before: Disk, after: Disk, m: Memory, dec: Decision, x: string) {
    var file := ManifestFile(x);
    && (Stored(before.inactive, x) && !Stored(after.inactive, x) ==> x in dec.removes)
    && (Stored(after.inactive, x) && !(Stored(before.inactive, x) && after.inactive[file] == before.inactive[file]) ==>
         Tracks(m, x) && after.inactive[file] == Manifest(Sanitized(Entry(m, x).pod)))
    && (Stored(after.active, x) && !(Stored(before.active, x) && after.active[file] == before.active[file]) ==> x in dec.starts)
    && (Stored(before.active, x) && !Stored(after.active, x) ==> x in dec.starts + dec.stops + dec.removes)
  }

  lemma OpsCause(d: Disk, ops: seq<DiskOp>, names: set<string>, m: Memory, dec: Decision, x: string)
    requires Genuine(ops, names) && Injective(names) && x in names && OpsListed(ops, dec, m, x)
    ensures Caused(d, Replay(d, ops), m, dec, x)
  {
    var d', file := Replay(d, ops), ManifestFile(x);
    if x !in dec.removes && Stored(d.inactive, x) { InactiveKept(d, ops, names, x); }
    if Stored(d'.inactive, x) { InactiveOrigin(d, ops, file); }
    if x !in dec.starts && Stored(d'.active, x) { ActiveOrigin(d, ops, file); }
    if x !in dec.starts + dec.stops + dec.removes && Stored(d.active, x) { ActiveKept(d, ops, file); }
  }

  lemma {:induction false} ActiveKept(d: Disk, ops: seq<DiskOp>, file: string)
    requires Activate(file) !in ops && RemoveActive(file) !in ops && file in d.active
    ensures file in Replay(d, ops).active && Replay(d, ops).active[file] == d.active[file]
    decreases |ops|
  {
    if ops != [] {
      OpsPrefix(ops);
      ActiveKept(d, ops[..|ops| - 1], file);
    }
  }

  lemma EventCaused(cfg: Config, names: set<string>, d: Disk, m: Memory, after: Memory, ev: Event, w': World, x: string)
    requires RepOk(m, cfg.pod) && TracksWithin(m, names) && Injective(names) && x in names
    requires Step(cfg, d, m, after, ev, w')
    ensures Caused(d, w'.disk, m, Processed(m, ev.obs, cfg.grace), x)
  {
    var d0, ops := Cleaned(d, ev.io.lingering), ev.Performed(Operations(m, ev.io));
    PerformedAbout(cfg, d, m, after, ev, w');
    FilesDecide(cfg, names, m, ev.obs, ev.io, ops, x);
    WritesGenuine(cfg, names, m, ev.io, ops);
    OpsCause(d0, ops, names, m, Processed(m, ev.obs, cfg.grace), x);
    FrameCaused(d, ev.io.lingering, Replay(d0, ops), ev.io.litter, m, Processed(m, ev.obs, cfg.grace), x);
  }

  /** Temporary files are neither here nor there. */
  lemma FrameCaused(d: Disk, lingering: set<string>, d1: Disk, litter: Litter, m: Memory, dec: Decision, x: string)
    requires OnlyTemporary(litter.active) && OnlyTemporary(litter.inactive)
    requires Caused(Cleaned(d, lingering), d1, m, dec, x)
    ensures Caused(d, Littered(d1, litter), m, dec, x)
  {
    CleanedStores(d, lingering, x);
    LitteredStores(d1, litter, x);
  }

  // ---------------------------------------------------------------------------------------------
  // Vanishing from both directories.

  ghost predicate Kept(d: Disk, x: string) {
    Stored(d.active, x) || Stored(d.inactive, x)
  }

  /** All manifests are written before the handlers start. */
  lemma WritesComeFirst(m: Memory, ev: Event, x: string)
    requires (forall c :: c in ev.io.chunks ==> c.name in PodsOf(m) && ChunkOf(PodsOf(m), c)) && x in PodsOf(m) && Wrote(ev.io.chunks, x)
    ensures var ops := ev.Performed(Operations(m, ev.io));
            InactiveWrite(PodsOf(m)[x]) in ops || (forall op :: op in ops ==> op.WriteInactive? || op.WriteData?)
  {
    var create, ops := CreateOps(PodsOf(m), ev.io.chunks), ev.Performed(Operations(m, ev.io));
    WroteInOps(PodsOf(m), ev.io.chunks, x);
    if |ops| >= |create| {
      assert create == ops[..|create|];
    } else {
      assert ops == create[..|ops|];
      forall op | op in ops ensures op.WriteInactive? || op.WriteData? {
        CreateOpsAbout(PodsOf(m), ev.io.chunks, op);
      }
    }
  }

  /** A checkpoint whose manifest gets written is not lost from both directories unless it is removed. */
  lemma WrittenNotLost(d: Disk, m: Memory, names: set<string>, ops: seq<DiskOp>, dec: Decision, x: string)
    requires Genuine(ops, names) && Injective(names) && x in names && OpsListed(ops, dec, m, x)
    requires Kept(d, x) && x !in dec.removes && !IsTemporary(ManifestFile(x))
    requires WritesFile(ops, ManifestFile(x)) || (forall op :: op in ops ==> op.WriteInactive? || op.WriteData?)
    ensures Kept(Replay(d, ops), x)
  {
    if Stored(d.inactive, x) || WritesFile(ops, ManifestFile(x)) {
      InactiveKept(d, ops, names, x);
    } else {
      ActiveKept(d, ops, ManifestFile(x));
    }
  }

  lemma EventKeeps(cfg: Config, names: set<string>, d: Disk, m: Memory, after: Memory, ev: Event, w': World, x: string)
    requires RepOk(m, cfg.pod) && TracksWithin(m, names) && Injective(names) && Tracks(m, x)
    requires Step(cfg, d, m, after, ev, w') && Wrote(ev.io.chunks, x)
    requires Kept(d, x) && x !in Processed(m, ev.obs, cfg.grace).removes
    ensures Kept(w'.disk, x)
  {
    var d0, ops := Cleaned(d, ev.io.lingering), ev.Performed(Operations(m, ev.io));
    PerformedAbout(cfg, d, m, after, ev, w');
    FilesDecide(cfg, names, m, ev.obs, ev.io, ops, x);
    WritesGenuine(cfg, names, m, ev.io, ops);
    WritesComeFirst(m, ev, x);
    PodsOfGood(m, cfg.pod, names);
    CleanedStores(d, ev.io.lingering, x);
    WrittenNotLost(d0, m, names, ops, Processed(m, ev.obs, cfg.grace), x);
    LitteredStores(Replay(d0, ops), ev.io.litter, x);
  }

  /** How an active checkpoint without an inactive one is lost although it is not removed. */
  ghost predicate LosesActive(d: Disk, dec: Decision, io: Io, x: string) {
    var file := ManifestFile(x);
    || (x in dec.stops && RemoveActive(file) !in io.faults)
    || (x in dec.starts && Activate(file) !in io.faults && file in d.inactive)
  }

  /** The operations of a completed iteration about the active manifest of a name that is not removed. */
  lemma ActiveOps(cfg: Config, names: set<string>, m: Memory, obs: Observation, io: Io, x: string)
    requires RepOk(m, cfg.pod) && TracksWithin(m, names) && Injective(names) && x in names && ValidIo(cfg, m, obs, io)
    requires x !in Processed(m, obs, cfg.grace).removes
    ensures var ops, dec, file := Operations(m, io), Processed(m, obs, cfg.grace), ManifestFile(x);
            && (Activate(file) in ops <==> x in dec.starts && Activate(file) !in io.faults)
            && (RemoveActive(file) in ops <==> x in dec.stops && RemoveActive(file) !in io.faults)
  {
    var ops, dec, file := Operations(m, io), Processed(m, obs, cfg.grace), ManifestFile(x);
    DecisionDisjoint(m, obs, cfg.grace, cfg.pod);
    InFiles(io.starts, dec.starts, names, x);
    InFiles(io.stops, dec.stops, names, x);
    StartOpsAbout(io.starts, io.faults, Activate(file));
    StopOpsAbout(io.stops, io.faults, RemoveActive(file));
    if Activate(file) in ops { OperationAbout(cfg, m, obs, io, Activate(file)); }
    if RemoveActive(file) in ops {
      OperationAbout(cfg, m, obs, io, RemoveActive(file));
      if exists id :: id in io.removes && Removes(RemoveActive(file), id) {
        RemovedFile(io.removes, dec.removes, names, x, RemoveActive(file));
      }
    }
  }

  lemma UnwrittenFate(cfg: Config, names: set<string>, d: Disk, m: Memory, obs: Observation, io: Io, x: string)
    requires RepOk(m, cfg.pod) && TracksWithin(m, names) && Injective(names) && x in names && ValidIo(cfg, m, obs, io)
    requires x !in Processed(m, obs, cfg.grace).removes && !Wrote(io.chunks, x)
    requires Stored(d.active, x) && !Stored(d.inactive, x)
    ensures Kept(Replay(d, Operations(m, io)), x) <==> !LosesActive(d, Processed(m, obs, cfg.grace), io, x)
  {
    var ops, dec := Operations(m, io), Processed(m, obs, cfg.grace);
    forall op | op in ops ensures About(m, io, op) {
      OperationAbout(cfg, m, obs, io, op);
    }
    FilesDecide(cfg, names, m, obs, io, ops, x);
    WritesOwn(cfg, names, m, io, ops, x);
    ActiveOps(cfg, names, m, obs, io, x);
    DecisionDisjoint(m, obs, cfg.grace, cfg.pod);
    ActiveFate(d, ops, x);
  }

  lemma IterationLoses(cfg: Config, names: set<string>, d: Disk, m: Memory, after: Memory, ev: Event, w': World, x: string)
    requires RepOk(m, cfg.pod) && TracksWithin(m, names) && Injective(names) && Tracks(m, x)
    requires Step(cfg, d, m, after, ev, w') && ev.Iterate?
    requires Kept(d, x) && x !in Processed(m, ev.obs, cfg.grace).removes
    ensures Kept(w'.disk, x) <==>
              Stored(d.inactive, x) || Wrote(ev.io.chunks, x) || !LosesActive(d, Processed(m, ev.obs, cfg.grace), ev.io, x)
  {
    if Stored(d.inactive, x) {
      EventCaused(cfg, names, d, m, after, ev, w', x);
    } else if Wrote(ev.io.chunks, x) {
      EventKeeps(cfg, names, d, m, after, ev, w', x);
    } else {
      var d0 := Cleaned(d, ev.io.lingering);
      CleanedStores(d, ev.io.lingering, x);
      UnwrittenFate(cfg, names, d0, m, ev.obs, ev.io, x);
      LitteredStores(Replay(d0, Operations(m, ev.io)), ev.io.litter, x);
    }
  }

  // ---------------------------------------------------------------------------------------------
  // Runs.

  /** In every run, with any failures and any crashes: a checkpoint is lost from the inactive directory
      only by being in the remove list, and appears or changes there only to the sanitized pod that is
      tracked; it becomes active or changes there only by being in the start list, and is lost there only
      by being in one of the lists. */
  lemma ManifestsHaveCauses(r: Run, i: nat, x: string)
    requires Injective(r.names) && i < |r.evs|
    ensures var before, after, dec, file := r.ws[i].disk, r.ws[i + 1].disk, r.decisions[i], ManifestFile(x);
      && (x in Inactive(before) && x !in Inactive(after) ==> x in dec.removes)
      && (x in Inactive(after) && !(x in Inactive(before) && after.inactive[file] == before.inactive[file]) ==>
           Tracks(r.mids[i], x) && after.inactive[file] == Manifest(Sanitized(Entry(r.mids[i], x).pod)))
      && (x in Active(after) && !(x in Active(before) && after.active[file] == before.active[file]) ==> x in dec.starts)
      && (x in Active(before) && x !in Active(after) ==> x in dec.starts + dec.stops + dec.removes)
  {
    RunFound(r, i, x);
    RunFound(r, i + 1, x);
    if x in r.names { RunCaused(r, i, x); }
  }

  lemma RunCaused(r: Run, i: nat, x: string)
    requires Injective(r.names) && i < |r.evs| && x in r.names
    ensures Caused(r.ws[i].disk, r.ws[i + 1].disk, r.mids[i], r.decisions[i], x)
  {
    RunEvent(r, i);
    EventCaused(r.cfg, r.names, r.ws[i].disk, r.mids[i], r.decisions[i].mem, r.evs[i], r.ws[i + 1], x);
  }

  lemma RunFound(r: Run, i: nat, x: string)
    requires i <= |r.evs|
    ensures x in Active(r.ws[i].disk) <==> Stored(r.ws[i].disk.active, x)
    ensures x in Inactive(r.ws[i].disk) <==> Stored(r.ws[i].disk.inactive, x)
    ensures Kept(r.ws[i].disk, x) ==> x in r.names
  {
    RunFit(r, i);
    StoredIsFound(r.ws[i].disk.active, r.names, x);
    StoredIsFound(r.ws[i].disk.inactive, r.names, x);
  }

  /** A checkpoint on disk is tracked after the update. */
  lemma KeptIsTracked(r: Run, i: nat, x: string)
    requires i < |r.evs| && Kept(r.ws[i].disk, x)
    ensures Tracks(r.mids[i], x) && x in r.names
  {
    RunFound(r, i, x);
    RunStep(r, i);
    var w := r.ws[i];
    UpdatedByName(w.mem, r.evs[i].obs, FileCheckpoints(w.disk.active), FileCheckpoints(w.disk.inactive), r.cfg.pod, x);
  }

  /** Whether an iteration keeps a checkpoint, which it does not remove, in at least one directory: exactly
      unless it was only active, its manifest is not written, and a stop deletes it or a start overwrites it
      with something unreadable. */
  lemma KeptExactly(r: Run, i: nat, x: string)
    requires Injective(r.names) && i < |r.evs| && r.evs[i].Iterate?
    requires Kept(r.ws[i].disk, x) && x !in r.decisions[i].removes
    ensures Kept(r.ws[i + 1].disk, x) <==>
              || x in Inactive(r.ws[i].disk)
              || Wrote(r.evs[i].io.chunks, x)
              || !LosesActive(r.ws[i].disk, r.decisions[i], r.evs[i].io, x)
  {
    KeptIsTracked(r, i, x);
    RunFound(r, i, x);
    RunEvent(r, i);
    IterationLoses(r.cfg, r.names, r.ws[i].disk, r.mids[i], r.decisions[i].mem, r.evs[i], r.ws[i + 1], x);
  }

  /** Writing the manifest of `x` does not fail. */
  ghost predicate WriteSucceeds(r: Run, i: nat, x: string)
    requires i < |r.evs|
  {
    x in PodsOf(r.mids[i]) ==> InactiveWrite(PodsOf(r.mids[i])[x]) !in r.evs[i].io.faults
  }

  lemma WriteSucceedsWrote(cfg: Config, m: Memory, obs: Observation, io: Io, x: string)
    requires ValidIo(cfg, m, obs, io) && x in PodsOf(m) && InactiveWrite(PodsOf(m)[x]) !in io.faults
    ensures Wrote(io.chunks, x)
  {
    ListedNames(io.chunks, PodsOf(m).Keys);
    var i :| 0 <= i < |ChunkNames(io.chunks)| && ChunkNames(io.chunks)[i] == x;
    assert io.chunks[i] in io.chunks && io.chunks[i].name == x;
  }

  /** Unless writing its manifest fails, a checkpoint is lost from both directories only by removal, with
      any other failures and wherever a crash comes. */
  lemma VanishesByRemoval(r: Run, i: nat, x: string)
    requires Injective(r.names) && i < |r.evs| && WriteSucceeds(r, i, x)
    requires Kept(r.ws[i].disk, x) && !Kept(r.ws[i + 1].disk, x)
    ensures x in r.decisions[i].removes
  {
    KeptIsTracked(r, i, x);
    RunEvent(r, i);
    WriteSucceedsWrote(r.cfg, r.mids[i], r.evs[i].obs, r.evs[i].io, x);
    if x !in r.decisions[i].removes {
      EventKeeps(r.cfg, r.names, r.ws[i].disk, r.mids[i], r.decisions[i].mem, r.evs[i], r.ws[i + 1], x);
    }
  }

  /** Grace-period soundness for files: with any failures and crashes a checkpoint is lost from the inactive
      directory, and unless writing its manifest fails from both directories, only after a full grace
      period of an absent parent. */
  lemma NoEarlyDeletion(r: Run, i: nat, x: string)
    requires Injective(r.names) && i < |r.evs|
    requires || (x in Inactive(r.ws[i].disk) && x !in Inactive(r.ws[i + 1].disk))
             || (Kept(r.ws[i].disk, x) && !Kept(r.ws[i + 1].disk, x) && WriteSucceeds(r, i, x))
    ensures var story := Story(r, Decider(r.decisions[i], r.cfg.Self(), x));
            exists j :: 0 <= j <= i && GraceElapsed(story, r.cfg.grace, j, i)
  {
    if x in Inactive(r.ws[i].disk) && x !in Inactive(r.ws[i + 1].disk) {
      ManifestsHaveCauses(r, i, x);
    } else {
      VanishesByRemoval(r, i, x);
    }
    NoEarlyRemoval(r, i, x);
  }

  // ---------------------------------------------------------------------------------------------
  // Which pod is on disk.

  /** A file that is written, always with one content, and not removed. */
  lemma {:induction false} WrittenContent(d: Disk, ops: seq<DiskOp>, file: string, content: Content)
    requires WriteInactive(file, content) in ops && RemoveInactive(file) !in ops
    requires forall op :: op in ops && op.WriteInactive? && op.file == file ==> op.content == content
    ensures file in Replay(d, ops).inactive && Replay(d, ops).inactive[file] == content
    decreases |ops|
  {
    if ops != [] {
      var n := |ops| - 1;
      OpsPrefix(ops);
      if ops[n] != WriteInactive(file, content) {
        WrittenContent(d, ops[..n], file, content);
      }
    }
  }

  lemma EventWrites(cfg: Config, names: set<string>, d: Disk, m: Memory, after: Memory, ev: Event, w': World, x: string)
    requires RepOk(m, cfg.pod) && TracksWithin(m, names) && Injective(names) && Tracks(m, x)
    requires Step(cfg, d, m, after, ev, w') && ev.Iterate? && Wrote(ev.io.chunks, x)
    requires x !in Processed(m, ev.obs, cfg.grace).removes
    ensures ManifestFile(x) in w'.disk.inactive && w'.disk.inactive[ManifestFile(x)] == Manifest(Sanitized(Entry(m, x).pod))
  {
    var d0, ops := Cleaned(d, ev.io.lingering), Operations(m, ev.io);
    PerformedAbout(cfg, d, m, after, ev, w');
    FilesDecide(cfg, names, m, ev.obs, ev.io, ops, x);
    PodsOfGood(m, cfg.pod, names);
    WroteInOps(PodsOf(m), ev.io.chunks, x);
    ManifestFileOfPod(Entry(m, x).pod);
    WrittenContent(d0, ops, ManifestFile(x), Manifest(Sanitized(Entry(m, x).pod)));
  }

  /** After an iteration in which writing its manifest does not fail, the inactive manifest of every tracked
      name that is not removed is its pod, sanitized: the one the API server reports, else the kubelet's. */
  lemma ManifestIsCurrent(r: Run, i: nat, x: string)
    requires Injective(r.names) && i < |r.evs| && r.evs[i].Iterate? && WriteSucceeds(r, i, x)
    requires Tracks(r.mids[i], x) && x !in r.decisions[i].removes
    ensures var dir, file, obs := r.ws[i + 1].disk.inactive, ManifestFile(x), r.evs[i].obs;
      && file in dir && dir[file] == Manifest(Sanitized(Entry(r.mids[i], x).pod))
      && (x in obs.apiParents ==> dir[file] == Manifest(Sanitized(obs.apiParents[x])))
      && (x !in obs.apiParents && x in obs.localParents ==> dir[file] == Manifest(Sanitized(obs.localParents[x])))
  {
    RunEvent(r, i);
    WriteSucceedsWrote(r.cfg, r.mids[i], r.evs[i].obs, r.evs[i].io, x);
    EventWrites(r.cfg, r.names, r.ws[i].disk, r.mids[i], r.decisions[i].mem, r.evs[i], r.ws[i + 1], x);
    RunSources(r, i, x);
  }

  /** An activation copies the inactive file as it is. */
  lemma {:induction false} ActivatedContent(d: Disk, ops: seq<DiskOp>, file: string)
    requires RemoveActive(file) !in ops && RemoveInactive(file) !in ops && !WritesFile(ops, file) && file in d.inactive
    ensures var d' := Replay(d, ops);
            && file in d'.inactive && d'.inactive[file] == d.inactive[file]
            && (Activate(file) in ops ==> file in d'.active && d'.active[file] == d.inactive[file])
    decreases |ops|
  {
    if ops != [] {
      OpsPrefix(ops);
      ActivatedContent(d, ops[..|ops| - 1], file);
    }
  }

  lemma EventStarts(cfg: Config, names: set<string>, d: Disk, m: Memory, ev: Event, x: string)
    requires RepOk(m, cfg.pod) && TracksWithin(m, names) && Injective(names) && Tracks(m, x)
    requires ValidIo(cfg, m, ev.obs, ev.io) && ev.Iterate? && Wrote(ev.io.chunks, x)
    requires x in Processed(m, ev.obs, cfg.grace).starts && Activate(ManifestFile(x)) !in ev.io.faults
    ensures var d', file := Replay(d, Operations(m, ev.io)), ManifestFile(x);
            file in d'.active && d'.active[file] == Manifest(Sanitized(Entry(m, x).pod))
  {
    var io, file := ev.io, ManifestFile(x);
    var create, rest := CreateOps(PodsOf(m), io.chunks), StopOps(io.stops, io.faults) + (StartOps(io.starts, io.faults) + RemoveOps(io.removes, io.faults, io.torn));
    CreateWrites(cfg, names, d, m, ev.obs, io, x);
    Regroup(create, StopOps(io.stops, io.faults), StartOps(io.starts, io.faults), RemoveOps(io.removes, io.faults, io.torn));
    assert Operations(m, io) == create + rest;
    ReplayConcat(d, create, rest);
    DecisionDisjoint(m, ev.obs, cfg.grace, cfg.pod);
    ActiveOps(cfg, names, m, ev.obs, io, x);
    RestOps(cfg, names, m, ev.obs, io, rest, x);
    ActivatedContent(Replay(d, create), rest, file);
  }

  lemma CreateWrites(cfg: Config, names: set<string>, d: Disk, m: Memory, obs: Observation, io: Io, x: string)
    requires RepOk(m, cfg.pod) && TracksWithin(m, names) && Injective(names) && Tracks(m, x)
    requires ValidIo(cfg, m, obs, io) && Wrote(io.chunks, x)
    ensures var d1, file := Replay(d, CreateOps(PodsOf(m), io.chunks)), ManifestFile(x);
            file in d1.inactive && d1.inactive[file] == Manifest(Sanitized(Entry(m, x).pod))
  {
    var create := CreateOps(PodsOf(m), io.chunks);
    forall op | op in create ensures About(m, io, op) && (op.WriteInactive? || op.WriteData?) {
      CreateOpsAbout(PodsOf(m), io.chunks, op);
    }
    WritesOwn(cfg, names, m, io, create, x);
    PodsOfGood(m, cfg.pod, names);
    WroteInOps(PodsOf(m), io.chunks, x);
    WrittenContent(d, create, ManifestFile(x), Manifest(Sanitized(Entry(m, x).pod)));
  }

  /** The handlers' operations about a name that is started. */
  lemma RestOps(cfg: Config, names: set<string>, m: Memory, obs: Observation, io: Io, rest: seq<DiskOp>, x: string)
    requires RepOk(m, cfg.pod) && TracksWithin(m, names) && Injective(names) && x in names && ValidIo(cfg, m, obs, io)
    requires rest == StopOps(io.stops, io.faults) + (StartOps(io.starts, io.faults) + RemoveOps(io.removes, io.faults, io.torn))
    requires x in Processed(m, obs, cfg.grace).starts && Activate(ManifestFile(x)) !in io.faults
    ensures var file := ManifestFile(x);
            && RemoveActive(file) !in rest && RemoveInactive(file) !in rest && !WritesFile(rest, file) && Activate(file) in rest
  {
    var dec, file := Processed(m, obs, cfg.grace), ManifestFile(x);
    DecisionDisjoint(m, obs, cfg.grace, cfg.pod);
    forall op | op in rest ensures op in Operations(m, io) && !op.WriteInactive? {
      if op in StopOps(io.stops, io.faults) {
        StopOpsAbout(io.stops, io.faults, op);
      } else if op in StartOps(io.starts, io.faults) {
        StartOpsAbout(io.starts, io.faults, op);
      } else {
        RemoveOpsAbout(io.removes, io.faults, io.torn, op);
      }
    }
    ActiveOps(cfg, names, m, obs, io, x);
    if RemoveInactive(file) in rest {
      OperationAbout(cfg, m, obs, io, RemoveInactive(file));
      RemovedFile(io.removes, dec.removes, names, x, RemoveInactive(file));
    }
    InFiles(io.starts, dec.starts, names, x);
    StartOpsAbout(io.starts, io.faults, Activate(file));
  }

  /** What is started is the tracked pod, sanitized, as it was written in the same iteration. */
  lemma StartedIsCurrent(r: Run, i: nat, x: string)
    requires Injective(r.names) && i < |r.evs| && r.evs[i].Iterate? && WriteSucceeds(r, i, x)
    requires x in r.decisions[i].starts && Activate(ManifestFile(x)) !in r.evs[i].io.faults
    ensures Tracks(r.mids[i], x)
    ensures var dir, file := r.ws[i + 1].disk.active, ManifestFile(x);
      file in dir && dir[file] == Manifest(Sanitized(Entry(r.mids[i], x).pod))
  {
    RunEvent(r, i);
    var m, ev := r.mids[i], r.evs[i];
    DecisionDisjoint(m, ev.obs, r.cfg.grace, r.cfg.pod);
    WriteSucceedsWrote(r.cfg, m, ev.obs, ev.io, x);
    EventStarts(r.cfg, r.names, Cleaned(r.ws[i].disk, ev.io.lingering), m, ev, x);
    ManifestFileOfPod(Entry(m, x).pod);
  }

  lemma RunSources(r: Run, i: nat, x: string)
    requires i < |r.evs| && Tracks(r.mids[i], x)
    ensures x in r.evs[i].obs.apiParents ==> Entry(r.mids[i], x).pod == r.evs[i].obs.apiParents[x]
    ensures x !in r.evs[i].obs.apiParents && x in r.evs[i].obs.localParents ==> Entry(r.mids[i], x).pod == r.evs[i].obs.localParents[x]
  {
    RunStep(r, i);
    var w := r.ws[i];
    UpdateSources(w.mem, r.evs[i].obs, FileCheckpoints(w.disk.active), FileCheckpoints(w.disk.inactive), r.cfg.pod, x);
  }

  // ---------------------------------------------------------------------------------------------
  // A checkpoint that vanishes although its parent is there.

  /** The API server reports the pod, and it runs. */
  function PresentAndRunning(pod: Pod): Observation {
    Observation(0, true, map[FullName(pod) := pod], map[], map[FullName(pod) := pod])
  }

  /** The checkpoint of the pod is only active, as a crash within a removal leaves it. */
  function OnlyActive(pod: Pod): World {
    World(EMPTY_MEMORY, Disk(map[ManifestFile(FullName(pod)) := Manifest(Sanitized(pod))], map[], map[]))
  }

  /** An iteration in which writing the manifest fails. */
  function FailedWrite(pod: Pod): Event {
    Iterate(PresentAndRunning(pod),
            Io([Chunk(FullName(pod), false, [])], [], [FullName(pod)], [], {InactiveWrite(pod)}, {}, {}, Litter(map[], map[])))
  }

  lemma OnlyActiveFound(cfg: Config, pod: Pod)
    requires ValidPod(pod) && SlashFree(cfg.pod.podNamespace)
    ensures var d := OnlyActive(pod).disk;
            && Initial(cfg, {FullName(pod)}, OnlyActive(pod)) && Stored(d.active, FullName(pod))
            && FileCheckpoints(d.active) == map[FullName(pod) := Sanitized(pod)] && FileCheckpoints(d.inactive) == map[]
  {
    ManifestFileOfPod(pod);
    var d, x := OnlyActive(pod).disk, FullName(pod);
    WrittenIsStored(d.active, pod, x);
    forall y ensures y in FileCheckpoints(d.active) <==> y == x {
      StoredIsFound(d.active, {x}, y);
    }
  }

  function Found(pod: Pod, state: State): Memory {
    Memory(map[FullName(pod) := Checkpoint(FullName(pod), pod, state)], None)
  }

  lemma FoundActive(pod: Pod, cp: CheckpointerPod)
    requires FullName(pod) != SelfName(cp)
    ensures Updated(EMPTY_MEMORY, PresentAndRunning(pod), map[FullName(pod) := Sanitized(pod)], map[], cp) == Found(pod, StateActive)
  {
    var x := FullName(pod);
    var m := Updated(EMPTY_MEMORY, PresentAndRunning(pod), map[x := Sanitized(pod)], map[], cp);
    assert m.checkpoints == map[x := Checkpoint(x, pod, StateActive)];
  }

  lemma StoppedWhileRunning(pod: Pod, grace: int)
    ensures Processed(Found(pod, StateActive), PresentAndRunning(pod), grace) == Decision(NoAction, Found(pod, StateInactive), {}, {FullName(pod)}, {})
  {
    var x, obs, m := FullName(pod), PresentAndRunning(pod), Found(pod, StateActive).checkpoints;
    assert NextState(m[x], obs, grace) == StateInactive;
    assert Turning(m, obs, grace, Stop) == {x};
    assert Turning(m, obs, grace, Start) == {} && Turning(m, obs, grace, Remove) == {};
    assert Advanced(m, obs, grace) == Found(pod, StateInactive).checkpoints;
  }

  lemma FailedWriteOps(pod: Pod)
    ensures PodsOf(Found(pod, StateActive)) == map[FullName(pod) := pod]
    ensures Operations(Found(pod, StateActive), FailedWrite(pod).io) == [RemoveActive(ManifestFile(FullName(pod)))]
  {
    var x, io := FullName(pod), FailedWrite(pod).io;
    var pods := PodsOf(Found(pod, StateActive));
    assert pods == map[x := pod];
    assert io.chunks[..0] == [] && [x][..0] == [];
    assert CreateOps(pods, io.chunks) == ChunkOps(pod, io.chunks[0]) == [];
    assert StopOps([x], io.faults) == StopOps([], io.faults) + Attempt(RemoveActive(ManifestFile(x)), io.faults);
  }

  lemma FailedWriteIo(cfg: Config, pod: Pod)
    ensures ValidIo(cfg, Found(pod, StateActive), PresentAndRunning(pod), FailedWrite(pod).io)
  {
    var x, io := FullName(pod), FailedWrite(pod).io;
    FailedWriteOps(pod);
    StoppedWhileRunning(pod, cfg.grace);
    assert ChunkNames(io.chunks) == [x];
    assert Elements([x]) == {x};
  }

  /** Without the condition that the write succeeds, a checkpoint can vanish from both directories while
      its parent is present and without being removed. */
  lemma VanishingStep(cfg: Config, pod: Pod) returns (w': World)
    requires ValidPod(pod) && SlashFree(cfg.pod.podNamespace) && FullName(pod) != cfg.Self()
    ensures var x, w, ev := FullName(pod), OnlyActive(pod), FailedWrite(pod);
            && Initial(cfg, {x}, w) && Next(cfg, {x}, w, ev, w')
            && Kept(w.disk, x) && !Kept(w'.disk, x)
            && Decided(cfg, w, ev.obs).removes == {} && ConditionOf(ev.obs, x).ParentPresent()
  {
    OnlyActiveFound(cfg, pod);
    VanishingDecision(cfg, pod);
    w' := VanishingDisk(cfg, pod);
    NextFrom(cfg, {FullName(pod)}, OnlyActive(pod), FailedWrite(pod), w', Found(pod, StateActive), Found(pod, StateInactive));
  }

  lemma VanishingDecision(cfg: Config, pod: Pod)
    requires ValidPod(pod) && SlashFree(cfg.pod.podNamespace) && FullName(pod) != cfg.Self()
    ensures var w, obs := OnlyActive(pod), PresentAndRunning(pod);
            && ValidObservation(obs, {FullName(pod)}) && ConditionOf(obs, FullName(pod)).ParentPresent()
            && AfterUpdate(cfg, w, obs) == Found(pod, StateActive)
            && Decided(cfg, w, obs).mem == Found(pod, StateInactive) && Decided(cfg, w, obs).removes == {}
  {
    PresentObserved(pod);
    OnlyActiveFound(cfg, pod);
    DecidedFrom(cfg, OnlyActive(pod), PresentAndRunning(pod), map[FullName(pod) := Sanitized(pod)], map[]);
    FoundActive(pod, cfg.pod);
    StoppedWhileRunning(pod, cfg.grace);
  }

  lemma PresentObserved(pod: Pod)
    requires ValidPod(pod)
    ensures ValidObservation(PresentAndRunning(pod), {FullName(pod)}) && ConditionOf(PresentAndRunning(pod), FullName(pod)).ParentPresent()
  {
  }

  lemma DecidedFrom(cfg: Config, w: World, obs: Observation, active: map<string, Pod>, inactive: map<string, Pod>)
    requires w.mem == EMPTY_MEMORY && FileCheckpoints(w.disk.active) == active && FileCheckpoints(w.disk.inactive) == inactive
    ensures var m := Updated(EMPTY_MEMORY, obs, active, inactive, cfg.pod);
            AfterUpdate(cfg, w, obs) == m && Decided(cfg, w, obs) == Processed(m, obs, cfg.grace)
  {
  }

  lemma NextFrom(cfg: Config, names: set<string>, w: World, ev: Event, w': World, m: Memory, after: Memory)
    requires ValidObservation(ev.obs, names) && AfterUpdate(cfg, w, ev.obs) == m && Decided(cfg, w, ev.obs).mem == after
    requires Step(cfg, w.disk, m, after, ev, w')
    ensures Next(cfg, names, w, ev, w')
  {
  }

  lemma VanishingDisk(cfg: Config, pod: Pod) returns (w': World)
    requires ValidPod(pod)
    ensures Step(cfg, OnlyActive(pod).disk, Found(pod, StateActive), Found(pod, StateInactive), FailedWrite(pod), w')
    ensures !Kept(w'.disk, FullName(pod))
  {
    FailedWriteIo(cfg, pod);
    FailedWriteOps(pod);
    EmptyAfter(pod);
    w' := World(Found(pod, StateInactive), DiskOf(OnlyActive(pod).disk, FailedWrite(pod), [RemoveActive(ManifestFile(FullName(pod)))]));
  }

  lemma EmptyAfter(pod: Pod)
    requires ValidPod(pod)
    ensures var d := DiskOf(OnlyActive(pod).disk, FailedWrite(pod), [RemoveActive(ManifestFile(FullName(pod)))]);
            d.active == map[] && d.inactive == map[]
  {
    ManifestFileOfPod(pod);
    var op := RemoveActive(ManifestFile(FullName(pod)));
    ReplayOne(Cleaned(OnlyActive(pod).disk, {}), op);
  }

  // ---------------------------------------------------------------------------------------------
  // Data.

  lemma EventKeepsData(cfg: Config, names: set<string>, d: Disk, m: Memory, after: Memory, ev: Event, w': World, p: Path)
    requires RepOk(m, cfg.pod) && TracksWithin(m, names) && Step(cfg, d, m, after, ev, w')
    requires p in d.data && (DataPath(p) ==> Owner(p) !in Processed(m, ev.obs, cfg.grace).removes)
    ensures p in w'.disk.data
  {
    var d0, ops := Cleaned(d, ev.io.lingering), ev.Performed(Operations(m, ev.io));
    PerformedAbout(cfg, d, m, after, ev, w');
    DecisionDisjoint(m, ev.obs, cfg.grace, cfg.pod);
    forall op | op in ops && (op.TearTree? || op.RemoveTree?) ensures !(op.dir <= p) {
      TreeElsewhere(cfg, m, Processed(m, ev.obs, cfg.grace).removes, ev.io, op, p);
    }
    DataKept(d0, ops, p);
  }

  lemma TreeElsewhere(cfg: Config, m: Memory, removes: set<string>, io: Io, op: DiskOp, p: Path)
    requires RepOk(m, cfg.pod) && Elements(io.removes) == removes && (forall x :: x in removes ==> Tracks(m, x))
    requires (op.TearTree? || op.RemoveTree?) && About(m, io, op) && (DataPath(p) ==> Owner(p) !in removes)
    ensures !(op.dir <= p)
  {
    var id :| id in io.removes && Removes(op, id);
    assert id in Elements(io.removes);
    OwnerDirectory(p, Entry(m, id).pod);
  }

  /** In every run, with any failures and any crashes, a stored secret or config map file stays until its
      pod is removed. */
  lemma DataStaysUntilRemoved(r: Run, i: nat, n: nat, p: Path)
    requires i <= n <= |r.evs| && p in r.ws[i].disk.data
    requires forall k :: i <= k < n ==> DataPath(p) ==> Owner(p) !in r.decisions[k].removes
    ensures p in r.ws[n].disk.data
  {
    forall k | i <= k < n && r.ws[k] in Holding(p) ensures r.ws[k + 1] in Holding(p) {
      RunEvent(r, k);
      EventKeepsData(r.cfg, r.names, r.ws[k].disk, r.mids[k], r.decisions[k].mem, r.evs[k], r.ws[k + 1], p);
    }
    Preserved(r.ws, Holding(p), i, n);
  }

  ghost function Holding(p: Path): iset<World> {
    iset w: World | p in w.disk.data
  }
}
