/** Stored secrets and config maps: what keeps those of one pod while others are written and removed. */
module Storage {
  import opened Strings
  import opened Kubernetes
  import opened Pods
  import opened Checkpoints
  import opened Disk
  import opened DiskEffects
  import opened CrashSafety
  import opened Causes
  import opened Checkpointer

  /** The data files of `x` are all still there, unchanged. */
  ghost predicate KeepsOwned(d: Disk, d': Disk, x: string) {
    forall p :: p in d.data && DataPath(p) && Owner(p) == x ==> p in d'.data && d'.data[p] == d.data[p]
  }

  lemma KeepsTransitive(d: Disk, d1: Disk, d2: Disk, x: string)
    requires KeepsOwned(d, d1, x) && KeepsOwned(d1, d2, x)
    ensures KeepsOwned(d, d2, x)
  {
  }

  /** An operation that leaves the data files of `x` alone. */
  ghost predicate LeavesData(op: DiskOp, x: string) {
    forall p: Path :: DataPath(p) && Owner(p) == x ==> Untouched(op, p)
  }

  predicate Untouched(op: DiskOp, p: Path) {
    match op
    case WriteData(path, _) => path != p
    case TearTree(dir, _) => !(dir <= p)
    case RemoveTree(dir) => !(dir <= p)
    case _ => true
  }

  lemma {:induction false} SparedData(d: Disk, ops: seq<DiskOp>, x: string)
    requires forall op :: op in ops ==> LeavesData(op, x)
    ensures KeepsOwned(d, Replay(d, ops), x)
    decreases |ops|
  {
    if ops != [] {
      var n := |ops| - 1;
      OpsPrefix(ops);
      SparedData(d, ops[..n], x);
      SparedByOne(Replay(d, ops[..n]), ops[n], x);
      KeepsTransitive(d, Replay(d, ops[..n]), Replay(d, ops), x);
    }
  }

  lemma SparedByOne(d: Disk, op: DiskOp, x: string)
    requires LeavesData(op, x)
    ensures KeepsOwned(d, Apply(d, op), x)
  {
    forall p | p in d.data && DataPath(p) && Owner(p) == x ensures p in Apply(d, op).data && Apply(d, op).data[p] == d.data[p] {
      assert Untouched(op, p);
    }
  }

  lemma ObjectFile(kind: ObjectKind, pod: Pod, name: string, key: string)
    requires ValidPod(pod)
    ensures var p := ObjectPath(kind, pod, name) + [key]; DataPath(p) && Owner(p) == FullName(pod)
  {
    var path := ObjectPath(kind, pod, name);
    assert path <= path + [key];
    ObjectPathOwned(kind, pod, name, path + [key]);
    OwnerDirectory(path + [key], pod);
  }

  lemma VolumeKept(kind: ObjectKind, pod: Pod, v: Volume, objects: Objects, d: Disk, d': Disk)
    requires ValidPod(pod) && VolumeStored(kind, pod, v, objects, d) && KeepsOwned(d, d', FullName(pod))
    ensures VolumeStored(kind, pod, v, objects, d')
  {
    if ObjectOf(kind, v).Some? {
      var name := ObjectOf(kind, v).value;
      forall key | key in objects[(pod.meta.namespace, name)]
        ensures var p := ObjectPath(kind, pod, name) + [key]; p in d'.data && d'.data[p] == objects[(pod.meta.namespace, name)][key]
      {
        ObjectFile(kind, pod, name, key);
      }
    }
  }

  /** What is stored of a pod stays stored as long as its data files do. */
  lemma PodKept(pod: Pod, api: Api, d: Disk, d': Disk)
    requires ValidPod(pod) && PodStored(pod, api, d) && KeepsOwned(d, d', FullName(pod))
    ensures PodStored(pod, api, d')
  {
    forall j | 0 <= j < |pod.spec.volumes|
      ensures VolumeStored(Secret, pod, pod.spec.volumes[j], api.secrets, d') && VolumeStored(ConfigMap, pod, pod.spec.volumes[j], api.configMaps, d')
    {
      VolumeKept(Secret, pod, pod.spec.volumes[j], api.secrets, d, d');
      VolumeKept(ConfigMap, pod, pod.spec.volumes[j], api.configMaps, d, d');
    }
  }

  /** Storing another pod's data. */
  lemma OtherChunkLeaves(pod: Pod, c: Chunk, x: string)
    requires ValidPod(pod) && FullName(pod) != x && forall op :: op in c.data ==> OwnData(FullName(pod), op)
    ensures forall op :: op in ChunkOps(pod, c) ==> LeavesData(op, x)
  {
    forall op, p: Path | op in ChunkOps(pod, c) && DataPath(p) && Owner(p) == x ensures Untouched(op, p) {
      if op in c.data {
        assert OwnData(FullName(pod), op);
        OwnerDirectory(op.path, pod);
      }
    }
  }

  /** Removing other pods. */
  lemma HandlersSpare(m: Memory, cp: CheckpointerPod, starts: seq<string>, stops: seq<string>, removes: seq<string>,
                      faults: set<DiskOp>, torn: set<Path>, x: string)
    requires RepOk(m, cp) && (forall id :: id in removes ==> Tracks(m, id)) && x !in removes
    ensures forall op :: op in StopOps(stops, faults) ==> LeavesData(op, x)
    ensures forall op :: op in StartOps(starts, faults) ==> LeavesData(op, x)
    ensures forall op :: op in RemoveOps(removes, faults, torn) ==> LeavesData(op, x)
  {
    forall op | op in StopOps(stops, faults) ensures LeavesData(op, x) { StopOpsAbout(stops, faults, op); }
    forall op | op in StartOps(starts, faults) ensures LeavesData(op, x) { StartOpsAbout(starts, faults, op); }
    forall op | op in RemoveOps(removes, faults, torn) ensures LeavesData(op, x) {
      RemoveOpsAbout(removes, faults, torn, op);
      var id :| id in removes && Removes(op, id);
      RemovalSpares(Entry(m, id).pod, op, x);
    }
  }

  lemma RemovalSpares(pod: Pod, op: DiskOp, x: string)
    requires ValidPod(pod) && FullName(pod) != x && Removes(op, FullName(pod))
    ensures LeavesData(op, x)
  {
    forall p: Path | DataPath(p) && Owner(p) == x ensures Untouched(op, p) {
      OwnerDirectory(p, pod);
    }
  }

  /** The three handlers keep what is stored of a pod that they do not remove. */
  lemma HandlersKeep(m: Memory, cp: CheckpointerPod, starts: seq<string>, stops: seq<string>, removes: seq<string>,
                     faults: set<DiskOp>, torn: set<Path>, d: Disk, pod: Pod, api: Api)
    requires RepOk(m, cp) && (forall id :: id in removes ==> Tracks(m, id)) && FullName(pod) !in removes
    requires ValidPod(pod) && PodStored(pod, api, d)
    ensures PodStored(pod, api, Replay(Replay(Replay(d, StopOps(stops, faults)), StartOps(starts, faults)), RemoveOps(removes, faults, torn)))
  {
    var x := FullName(pod);
    HandlersSpare(m, cp, starts, stops, removes, faults, torn, x);
    var d1 := Replay(d, StopOps(stops, faults));
    var d2 := Replay(d1, StartOps(starts, faults));
    SparedData(d, StopOps(stops, faults), x);
    SparedData(d1, StartOps(starts, faults), x);
    SparedData(d2, RemoveOps(removes, faults, torn), x);
    PodKept(pod, api, d, d1);
    PodKept(pod, api, d1, d2);
    PodKept(pod, api, d2, Replay(d2, RemoveOps(removes, faults, torn)));
  }

  /** Writing another pod's manifest, where the file names differ. */
  lemma PlaceKept(d: Disk, pod: Pod, c: Chunk, other: Pod, names: set<string>)
    requires (forall op :: op in c.data ==> op.WriteData?) && FullName(pod) != FullName(other)
    requires Injective(names) && FullName(pod) in names && FullName(other) in names
    ensures InPlace(Replay(d, ChunkOps(pod, c)).inactive, Sanitized(other)) <==> InPlace(d.inactive, Sanitized(other))
  {
    if c.written {
      ReplayConcatData(d, pod, c);
    }
  }

  lemma ReplayConcatData(d: Disk, pod: Pod, c: Chunk)
    requires c.written && forall op :: op in c.data ==> op.WriteData?
    ensures Replay(d, ChunkOps(pod, c)).inactive == d.inactive[ManifestFile(FullName(pod)) := Manifest(Sanitized(pod))]
  {
    ReplayConcat(d, [InactiveWrite(pod)], c.data);
    var d1 := Replay(d, [InactiveWrite(pod)]);
    assert [InactiveWrite(pod)][..0] == [];
    assert d1 == Apply(d, InactiveWrite(pod));
    DataEffect(d1, c.data);
  }
}
