/** The running checkpointer: the disk handlers of pkg/checkpoint/process.go and the loop of
    pkg/checkpoint/checkpoint.go, each proved to do what the run model says. */
module Checkpointer {
  import opened Wrappers
  import opened Strings
  import opened Kubernetes
  import opened Pods
  import opened Disk
  import opened DiskEffects
  import opened CrashSafety

  /** One minute, in the nanoseconds of time.Duration. */
  const CHECKPOINT_TIMEOUT := 60_000_000_000

  /** Secrets or config maps the API server serves, by namespace and name; a missing one is an error. */
  type Objects = map<(string, string), map<string, string>>

  /** What fails in an iteration: operations without effect, manifest writes that do not take place
      because the existing manifest cannot be read, writes that take effect but report an error because the
      file cannot be given to its owner afterwards, and directories of objects that cannot be created or
      given to their owner. The files in `torn` are those that removing a tree deletes first. */
  datatype Failures = Failures(lost: set<DiskOp>, unread: set<DiskOp>, late: set<DiskOp>, dirs: set<Path>, torn: set<Path>)
  {
    /** The operations that have no effect. */
    function Faults(): set<DiskOp> {
      lost + unread
    }

    predicate None() {
      lost == {} && unread == {} && late == {} && dirs == {}
    }
  }

  /** The manifest of a sanitized pod is in its place. */
  predicate InPlace(inactive: Directory, pod: Pod) {
    ManifestFile(FullName(pod)) in inactive && inactive[ManifestFile(FullName(pod))] == Manifest(pod)
  }

  /** The manifest of a parent is written, or found in its place. */
  predicate WritesManifest(d: Disk, parent: Pod, failures: Failures) {
    && InactiveWrite(parent) !in failures.unread
    && (InPlace(d.inactive, Sanitized(parent)) || InactiveWrite(parent) !in failures.lost)
  }

  /** The disk, with the record of the operations performed on it. */
  class FileSystem {
    var disk: Disk
    ghost var log: seq<DiskOp>

    constructor (d: Disk)
      ensures disk == d && log == []
    {
      disk, log := d, [];
    }

    /** A system call, which changes nothing if it is among the failing ones. */
    method Perform(op: DiskOp, faults: set<DiskOp>) returns (ok: bool)
      modifies this
      ensures ok <==> op !in faults
      ensures log == old(log) + Attempt(op, faults)
      ensures disk == Replay(old(disk), Attempt(op, faults))
    {
      ok := op !in faults;
      if ok {
        disk, log := Apply(disk, op), log + [op];
      }
      assert ok ==> Replay(old(disk), [op]) == Apply(old(disk), op);
    }

    /** A write, which can also fail after it took effect. */
    method Write(op: DiskOp, failures: Failures) returns (ok: bool)
      modifies this
      ensures ok <==> op !in failures.Faults() && op !in failures.late
      ensures log == old(log) + Attempt(op, failures.Faults())
      ensures disk == Replay(old(disk), Attempt(op, failures.Faults()))
    {
      ok := Perform(op, failures.Faults());
      ok := ok && op !in failures.late;
    }

    method HandleStop(ids: seq<string>, faults: set<DiskOp>)
      modifies this
      ensures log == old(log) + StopOps(ids, faults)
      ensures disk == Replay(old(disk), StopOps(ids, faults))
    {
      for i := 0 to |ids|
        invariant log == old(log) + StopOps(ids[..i], faults)
        invariant disk == Replay(old(disk), StopOps(ids[..i], faults))
      {
        ghost var ops, op := StopOps(ids[..i], faults), RemoveActive(ManifestFile(ids[i]));
        var _ := Perform(RemoveActive(ManifestFile(ids[i])), faults);
        StopOpsSnoc(ids, i, faults);
        Extend(old(log), old(disk), ops, Attempt(op, faults));
      }
      assert ids[..|ids|] == ids;
    }

    method HandleStart(ids: seq<string>, faults: set<DiskOp>)
      modifies this
      ensures log == old(log) + StartOps(ids, faults)
      ensures disk == Replay(old(disk), StartOps(ids, faults))
    {
      for i := 0 to |ids|
        invariant log == old(log) + StartOps(ids[..i], faults)
        invariant disk == Replay(old(disk), StartOps(ids[..i], faults))
      {
        ghost var ops, op := StartOps(ids[..i], faults), Activate(ManifestFile(ids[i]));
        var _ := Perform(Activate(ManifestFile(ids[i])), faults);
        StartOpsSnoc(ids, i, faults);
        Extend(old(log), old(disk), ops, Attempt(op, faults));
      }
      assert ids[..|ids|] == ids;
    }

    /** os.RemoveAll */
    method RemoveAll(dir: Path, faults: set<DiskOp>, torn: set<Path>)
      modifies this
      ensures log == old(log) + RemoveAllOps(dir, faults, torn)
      ensures disk == Replay(old(disk), RemoveAllOps(dir, faults, torn))
    {
      disk, log := Apply(disk, TearTree(dir, torn)), log + [TearTree(dir, torn)];
      ReplayOne(old(disk), TearTree(dir, torn));
      var _ := Perform(RemoveTree(dir), faults);
      Extend(old(log), old(disk), [TearTree(dir, torn)], Attempt(RemoveTree(dir), faults));
    }

    method RemoveOne(id: string, faults: set<DiskOp>, torn: set<Path>)
      modifies this
      ensures log == old(log) + RemoveOneOps(id, faults, torn)
      ensures disk == Replay(old(disk), RemoveOneOps(id, faults, torn))
    {
      ghost var log0, d0 := log, disk;
      var secrets, configMaps, file := FullNameToSecretPath(id), FullNameToConfigMapPath(id), ManifestFile(id);
      RemoveOneParts(id, faults, torn);
      RemoveAll(secrets, faults, torn);
      ghost var done := RemoveAllOps(secrets, faults, torn);
      RemoveAll(configMaps, faults, torn);
      Extend(log0, d0, done, RemoveAllOps(configMaps, faults, torn));
      done := done + RemoveAllOps(configMaps, faults, torn);
      var ok := Perform(RemoveInactive(file), faults);
      if !ok { return; }
      Extend(log0, d0, done, [RemoveInactive(file)]);
      done := done + [RemoveInactive(file)];
      var _ := Perform(RemoveActive(file), faults);
      Extend(log0, d0, done, Attempt(RemoveActive(file), faults));
    }

    method HandleRemove(ids: seq<string>, faults: set<DiskOp>, torn: set<Path>)
      modifies this
      ensures log == old(log) + RemoveOps(ids, faults, torn)
      ensures disk == Replay(old(disk), RemoveOps(ids, faults, torn))
    {
      for i := 0 to |ids|
        invariant log == old(log) + RemoveOps(ids[..i], faults, torn)
        invariant disk == Replay(old(disk), RemoveOps(ids[..i], faults, torn))
      {
        RemoveOne(ids[i], faults, torn);
        RemoveOpsSnoc(ids, i, faults, torn);
        Extend(old(log), old(disk), RemoveOps(ids[..i], faults, torn), RemoveOneOps(ids[i], faults, torn));
      }
      assert ids[..|ids|] == ids;
    }

    /** Writes the manifest to the inactive directory unless it is there already, or what is there cannot
        be read. */
    method WriteCheckpointManifest(pod: Pod, ghost parent: Pod, failures: Failures) returns (changed: bool, ok: bool)
      requires pod == Sanitized(parent) && ValidPod(parent)
      modifies this
      ensures changed <==> InactiveWrite(parent) !in failures.unread && !InPlace(old(disk).inactive, pod)
      ensures ok <==> InactiveWrite(parent) !in failures.unread && (changed ==> InactiveWrite(parent) !in failures.lost + failures.late)
      ensures var ops := if WritesManifest(old(disk), parent, failures) then [InactiveWrite(parent)] else [];
              log == old(log) + ops && disk == Replay(old(disk), ops)
    {
      ManifestFileOfPod(parent);
      var file := pod.meta.namespace + "-" + pod.meta.name + ".json";
      assert file == ManifestFile(FullName(parent)) && FullName(pod) == FullName(parent);
      if WriteInactive(file, Manifest(pod)) in failures.unread {
        return false, false;
      }
      changed, ok := true, true;
      if file in disk.inactive && disk.inactive[file] == Manifest(pod) {
        changed := false;
        assert disk.inactive[file := Manifest(pod)] == disk.inactive;
        assert Replay(disk, [InactiveWrite(parent)]) == Apply(disk, InactiveWrite(parent)) == disk;
        log := log + [InactiveWrite(parent)];
        return;
      }
      ok := Write(WriteInactive(file, Manifest(pod)), failures);
    }

    /** Stores the keys of one object below `dir`, in any order. */
    method StoreObject(dir: Path, data: map<string, string>, failures: Failures) returns (ok: bool, ghost ops: seq<DiskOp>)
      modifies this
      ensures log == old(log) + ops && disk == Replay(old(disk), ops)
      ensures forall op :: op in ops ==> op.WriteData? && dir <= op.path && |op.path| == |dir| + 1 && op.path[|dir|] in data && op.bytes == data[op.path[|dir|]]
      ensures failures.None() ==> ok
      ensures dir in failures.dirs ==> !ok && ops == []
      ensures ok ==> forall key :: key in data ==> dir + [key] in disk.data && disk.data[dir + [key]] == data[key]
      ensures disk.active == old(disk).active && disk.inactive == old(disk).inactive
      ensures forall p :: p in old(disk).data && (!(dir <= p) || |p| != |dir| + 1) ==> p in disk.data && disk.data[p] == old(disk).data[p]
    {
      ops, ok := [], true;
      if dir in failures.dirs { return false, []; }
      var todo := data.Keys;
      while todo != {}
        invariant todo <= data.Keys
        invariant log == old(log) + ops && disk == Replay(old(disk), ops)
        invariant forall op :: op in ops ==> op.WriteData? && dir <= op.path && |op.path| == |dir| + 1 && op.path[|dir|] in data && op.bytes == data[op.path[|dir|]]
        invariant forall key :: key in data && key !in todo ==> dir + [key] in disk.data && disk.data[dir + [key]] == data[key]
        invariant disk.active == old(disk).active && disk.inactive == old(disk).inactive
        invariant forall p :: p in old(disk).data && (!(dir <= p) || |p| != |dir| + 1) ==> p in disk.data && disk.data[p] == old(disk).data[p]
      {
        var key :| key in todo;
        ghost var op := WriteData(dir + [key], data[key]);
        var written := Write(WriteData(dir + [key], data[key]), failures);
        ReplayConcat(old(disk), ops, Attempt(op, failures.Faults()));
        ops := ops + Attempt(op, failures.Faults());
        if !written { return false, ops; }
        DistinctKeys(dir, data.Keys, key);
        todo := todo - {key};
      }
    }
  }

  lemma RemoveOneParts(id: string, faults: set<DiskOp>, torn: set<Path>)
    ensures var a, b := RemoveAllOps(FullNameToSecretPath(id), faults, torn), RemoveAllOps(FullNameToConfigMapPath(id), faults, torn);
            var inactive, active := RemoveInactive(ManifestFile(id)), RemoveActive(ManifestFile(id));
            RemoveOneOps(id, faults, torn) == if inactive in faults then a + b else a + b + [inactive] + Attempt(active, faults)
  {
    var a, b := RemoveAllOps(FullNameToSecretPath(id), faults, torn), RemoveAllOps(FullNameToConfigMapPath(id), faults, torn);
    Associate(a + b, [RemoveInactive(ManifestFile(id))], Attempt(RemoveActive(ManifestFile(id)), faults));
  }

  /** More operations after those done. */
  lemma Extend(log: seq<DiskOp>, d: Disk, done: seq<DiskOp>, more: seq<DiskOp>)
    ensures log + done + more == log + (done + more)
    ensures Replay(Replay(d, done), more) == Replay(d, done + more)
  {
    Associate(log, done, more);
    ReplayConcat(d, done, more);
  }

  lemma RemoveOpsSnoc(ids: seq<string>, i: nat, faults: set<DiskOp>, torn: set<Path>)
    requires i < |ids|
    ensures RemoveOps(ids[..i + 1], faults, torn) == RemoveOps(ids[..i], faults, torn) + RemoveOneOps(ids[i], faults, torn)
  {
    assert ids[..i + 1][..i] == ids[..i];
  }

  lemma StopOpsSnoc(ids: seq<string>, i: nat, faults: set<DiskOp>)
    requires i < |ids|
    ensures StopOps(ids[..i + 1], faults) == StopOps(ids[..i], faults) + Attempt(RemoveActive(ManifestFile(ids[i])), faults)
  {
    assert ids[..i + 1][..i] == ids[..i];
  }

  lemma StartOpsSnoc(ids: seq<string>, i: nat, faults: set<DiskOp>)
    requires i < |ids|
    ensures StartOps(ids[..i + 1], faults) == StartOps(ids[..i], faults) + Attempt(Activate(ManifestFile(ids[i])), faults)
  {
    assert ids[..i + 1][..i] == ids[..i];
  }

  lemma Associate<T>(a: seq<T>, b: seq<T>, c: seq<T>)
    ensures a + b + c == a + (b + c)
  {
  }

  lemma DistinctKeys(dir: Path, keys: set<string>, key: string)
    ensures forall k :: k in keys && k != key ==> dir + [k] != dir + [key]
  {
    forall k | k in keys && k != key ensures dir + [k] != dir + [key] {
      assert (dir + [k])[|dir|] == k && (dir + [key])[|dir|] == key;
    }
  }

  // ---------------------------------------------------------------------------------------------
  // Secrets and config maps (pkg/checkpoint/secret.go, pkg/checkpoint/config_map.go).

  datatype ObjectKind = Secret | ConfigMap

  /** The object a volume takes from the API server, if it is of the given kind. */
  function ObjectOf(kind: ObjectKind, v: Volume): Option<string> {
    match kind
    case Secret => v.secret
    case ConfigMap => v.configMap
  }

  function ObjectPath(kind: ObjectKind, pod: Pod, name: string): Path {
    match kind
    case Secret => SecretPath(pod.meta.namespace, pod.meta.name, name)
    case ConfigMap => ConfigMapPath(pod.meta.namespace, pod.meta.name, name)
  }

  /** The object of the volume is stored where the sanitized volume looks for it. */
  ghost predicate VolumeStored(kind: ObjectKind, pod: Pod, v: Volume, objects: Objects, d: Disk) {
    ObjectOf(kind, v).Some? ==>
      var name := ObjectOf(kind, v).value;
      && (pod.meta.namespace, name) in objects
      && forall key :: key in objects[(pod.meta.namespace, name)] ==>
           && ObjectPath(kind, pod, name) + [key] in d.data
           && d.data[ObjectPath(kind, pod, name) + [key]] == objects[(pod.meta.namespace, name)][key]
  }

  ghost predicate Served(kind: ObjectKind, pod: Pod, v: Volume, objects: Objects) {
    ObjectOf(kind, v).Some? ==> (pod.meta.namespace, ObjectOf(kind, v).value) in objects
  }

  predicate ValidObject(kind: ObjectKind, v: Volume) {
    ObjectOf(kind, v).Some? ==> ValidName(ObjectOf(kind, v).value)
  }

  function KindDir(kind: ObjectKind, pod: Pod): Path {
    match kind
    case Secret => FullNameToSecretPath(FullName(pod))
    case ConfigMap => FullNameToConfigMapPath(FullName(pod))
  }

  lemma ObjectPathOwned(kind: ObjectKind, pod: Pod, name: string, p: Path)
    requires ValidPod(pod) && ObjectPath(kind, pod, name) <= p
    ensures KindDir(kind, pod) <= p
  {
    DataPaths(pod, name);
    var dir := KindDir(kind, pod);
    var path := ObjectPath(kind, pod, name);
    assert path == dir + Components(name);
    assert path[..|dir|] == dir && p[..|path|] == path;
    assert p[..|dir|] == p[..|path|][..|dir|];
  }

  lemma ObjectPathShape(kind: ObjectKind, pod: Pod, name: string)
    requires ValidPod(pod) && ValidName(name)
    ensures |ObjectPath(kind, pod, name)| == 6 && ObjectPath(kind, pod, name)[5] == name
  {
    DataPaths(pod, name);
    ComponentsOfName(name);
  }

  /** Storing one more object keeps the ones stored before. */
  lemma StillStored(kind: ObjectKind, pod: Pod, v: Volume, w: Volume, objects: Objects, before: Disk, after: Disk)
    requires ValidPod(pod) && ObjectOf(kind, w).Some? && ValidObject(kind, w) && ValidObject(kind, v)
    requires VolumeStored(kind, pod, v, objects, before) && VolumeStored(kind, pod, w, objects, after)
    requires var dir := ObjectPath(kind, pod, ObjectOf(kind, w).value);
             forall p :: p in before.data && (!(dir <= p) || |p| != |dir| + 1) ==> p in after.data && after.data[p] == before.data[p]
    ensures VolumeStored(kind, pod, v, objects, after)
  {
    if ObjectOf(kind, v).Some? && ObjectOf(kind, v) != ObjectOf(kind, w) {
      var name, other := ObjectOf(kind, v).value, ObjectOf(kind, w).value;
      ObjectPathShape(kind, pod, name);
      ObjectPathShape(kind, pod, other);
      var dir := ObjectPath(kind, pod, other);
      forall key | key in objects[(pod.meta.namespace, name)] ensures !(dir <= ObjectPath(kind, pod, name) + [key]) {
        assert (ObjectPath(kind, pod, name) + [key])[5] == name && dir[5] == other;
      }
    }
  }

  /** A write of a file below the pod's directory of the kind. */
  predicate KindData(kind: ObjectKind, pod: Pod, op: DiskOp) {
    op.WriteData? && KindDir(kind, pod) <= op.path
  }

  ghost predicate AllKindData(kind: ObjectKind, pod: Pod, ops: seq<DiskOp>) {
    forall op :: op in ops ==> KindData(kind, pod, op)
  }

  lemma KindDataConcat(kind: ObjectKind, pod: Pod, a: seq<DiskOp>, b: seq<DiskOp>)
    requires AllKindData(kind, pod, a) && AllKindData(kind, pod, b)
    ensures AllKindData(kind, pod, a + b)
  {
  }

  /** The objects of the first `n` volumes are stored. */
  ghost predicate StoredUpTo(kind: ObjectKind, pod: Pod, n: nat, objects: Objects, d: Disk) {
    forall j :: 0 <= j < n && j < |pod.spec.volumes| ==> VolumeStored(kind, pod, pod.spec.volumes[j], objects, d)
  }

  /** Stores the object of one volume; it must be served, and the objects stored before stay. */
  method CheckpointVolume(fs: FileSystem, kind: ObjectKind, pod: Pod, v: Volume, objects: Objects, failures: Failures)
    returns (ok: bool, ghost ops: seq<DiskOp>)
    requires ValidPod(pod)
    modifies fs
    ensures fs.log == old(fs.log) + ops && fs.disk == Replay(old(fs.disk), ops)
    ensures AllKindData(kind, pod, ops)
    ensures ok ==> Served(kind, pod, v, objects) && VolumeStored(kind, pod, v, objects, fs.disk)
    ensures failures.None() && Served(kind, pod, v, objects) ==> ok
    ensures ok && ValidObject(kind, v) ==>
              forall u :: ValidObject(kind, u) && VolumeStored(kind, pod, u, objects, old(fs.disk)) ==> VolumeStored(kind, pod, u, objects, fs.disk)
  {
    ops, ok := [], true;
    if ObjectOf(kind, v).None? { return; }
    var name := ObjectOf(kind, v).value;
    if (pod.meta.namespace, name) !in objects { return false, []; }
    ok, ops := fs.StoreObject(ObjectPath(kind, pod, name), objects[(pod.meta.namespace, name)], failures);
    forall op | op in ops ensures KindData(kind, pod, op) {
      ObjectPathOwned(kind, pod, name, op.path);
    }
    if ok && ValidObject(kind, v) {
      forall u | ValidObject(kind, u) && VolumeStored(kind, pod, u, objects, old(fs.disk))
        ensures VolumeStored(kind, pod, u, objects, fs.disk)
      {
        StillStored(kind, pod, u, v, objects, old(fs.disk), fs.disk);
      }
    }
  }

  /** checkpointSecretVolumes and checkpointConfigMapVolumes: stores every object of the kind that the
      pod mounts, and succeeds, when no write fails, exactly if the security contexts agree and the API
      server serves all of them. */
  method CheckpointVolumes(fs: FileSystem, kind: ObjectKind, pod: Pod, objects: Objects, failures: Failures)
    returns (ok: bool, ghost ops: seq<DiskOp>)
    requires ValidPod(pod)
    modifies fs
    ensures fs.log == old(fs.log) + ops && fs.disk == Replay(old(fs.disk), ops)
    ensures AllKindData(kind, pod, ops)
    ensures var vs := pod.spec.volumes;
            && (failures.None() ==> (ok <==> Agreeing(Users(pod)) && forall j :: 0 <= j < |vs| ==> Served(kind, pod, vs[j], objects)))
            && (ok && (forall j :: 0 <= j < |vs| ==> ValidObject(kind, vs[j])) ==>
                  forall j :: 0 <= j < |vs| ==> VolumeStored(kind, pod, vs[j], objects, fs.disk))
  {
    ops, ok := [], false;
    var user := PodUserAndGroup(pod);
    if user.Err? { return; }
    var vs := pod.spec.volumes;
    ghost var valid := forall j :: 0 <= j < |vs| ==> ValidObject(kind, vs[j]);
    var i := 0;
    while i < |vs|
      invariant 0 <= i <= |vs|
      invariant fs.log == old(fs.log) + ops && fs.disk == Replay(old(fs.disk), ops)
      invariant AllKindData(kind, pod, ops)
      invariant forall j :: 0 <= j < i ==> Served(kind, pod, vs[j], objects)
      invariant valid ==> StoredUpTo(kind, pod, i, objects, fs.disk)
    {
      var stored;
      ghost var more;
      stored, more := CheckpointVolume(fs, kind, pod, vs[i], objects, failures);
      Extend(old(fs.log), old(fs.disk), ops, more);
      KindDataConcat(kind, pod, ops, more);
      ops := ops + more;
      if !stored { return; }
      i := i + 1;
    }
    ok := true;
  }

  lemma {:induction false} DataElsewhere(d: Disk, kind: ObjectKind, pod: Pod, ops: seq<DiskOp>, p: Path)
    requires AllKindData(kind, pod, ops)
    requires !(KindDir(kind, pod) <= p)
    ensures p in Replay(d, ops).data <==> p in d.data
    ensures p in d.data ==> Replay(d, ops).data[p] == d.data[p]
    decreases |ops|
  {
    if ops != [] {
      var n := |ops| - 1;
      DataElsewhere(d, kind, pod, ops[..n], p);
      assert KindData(kind, pod, ops[n]);
    }
  }

  /** Storing config maps does not touch the stored secrets. */
  lemma SecretsStay(d: Disk, pod: Pod, v: Volume, objects: Objects, ops: seq<DiskOp>)
    requires ValidPod(pod) && VolumeStored(Secret, pod, v, objects, d)
    requires AllKindData(ConfigMap, pod, ops)
    ensures VolumeStored(Secret, pod, v, objects, Replay(d, ops))
  {
    if v.secret.Some? {
      var name := v.secret.value;
      DataPaths(pod, name);
      forall key | key in objects[(pod.meta.namespace, name)]
        ensures SecretPath(pod.meta.namespace, pod.meta.name, name) + [key] in Replay(d, ops).data
        ensures Replay(d, ops).data[SecretPath(pod.meta.namespace, pod.meta.name, name) + [key]] == objects[(pod.meta.namespace, name)][key]
      {
        var p := SecretPath(pod.meta.namespace, pod.meta.name, name) + [key];
        assert p[2] == "checkpoint-secrets" && KindDir(ConfigMap, pod)[2] == "checkpoint-configmaps";
        DataElsewhere(d, ConfigMap, pod, ops, p);
      }
    }
  }

  datatype Api = Api(secrets: Objects, configMaps: Objects)

  /** Everything the pod mounts from the API server is stored where its sanitized volumes point. */
  ghost predicate PodStored(pod: Pod, api: Api, d: Disk) {
    forall j :: 0 <= j < |pod.spec.volumes| ==>
      VolumeStored(Secret, pod, pod.spec.volumes[j], api.secrets, d) && VolumeStored(ConfigMap, pod, pod.spec.volumes[j], api.configMaps, d)
  }

  ghost predicate ValidVolumes(pod: Pod) {
    forall j :: 0 <= j < |pod.spec.volumes| ==> ValidObject(Secret, pod.spec.volumes[j]) && ValidObject(ConfigMap, pod.spec.volumes[j])
  }

  /** The pod's users agree, its volumes have valid names, and the API server serves all they need. */
  ghost predicate Storable(pod: Pod, api: Api) {
    && Agreeing(Users(pod)) && ValidVolumes(pod)
    && forall j :: 0 <= j < |pod.spec.volumes| ==>
         Served(Secret, pod, pod.spec.volumes[j], api.secrets) && Served(ConfigMap, pod, pod.spec.volumes[j], api.configMaps)
  }

  /** One pass of the loop in createCheckpointsForValidParents. */
  method CheckpointPod(fs: FileSystem, pod: Pod, api: Api, needsUpdate: bool, failures: Failures)
    returns (ghost chunk: Chunk, ghost stored: bool)
    requires ValidPod(pod)
    modifies fs
    ensures chunk.name == FullName(pod) && (chunk.written || InactiveWrite(pod) in failures.Faults())
    ensures forall op :: op in chunk.data ==> OwnData(FullName(pod), op)
    ensures fs.log == old(fs.log) + ChunkOps(pod, chunk) && fs.disk == Replay(old(fs.disk), ChunkOps(pod, chunk))
    ensures stored && ValidVolumes(pod) ==> PodStored(pod, api, fs.disk)
    ensures InPlace(old(fs.disk).inactive, Sanitized(pod)) && !needsUpdate ==> chunk.data == [] && !stored
    ensures failures.None() && (needsUpdate || !InPlace(old(fs.disk).inactive, Sanitized(pod))) && Storable(pod, api) ==>
              stored && PodStored(pod, api, fs.disk)
  {
    var cp := SanitizeCheckpointPod(pod);
    var changed, ok := fs.WriteCheckpointManifest(cp, pod, failures);
    chunk, stored := Chunk(FullName(pod), WritesManifest(old(fs.disk), pod, failures), []), false;
    assert [InactiveWrite(pod)] + [] == [InactiveWrite(pod)];
    if !ok { return; }
    if changed || needsUpdate {
      ghost var ops1, ops2;
      ok, ops1 := CheckpointVolumes(fs, Secret, pod, api.secrets, failures);
      chunk := chunk.(data := ops1);
      Associate(old(fs.log), [InactiveWrite(pod)], ops1);
      ReplayConcat(old(fs.disk), [InactiveWrite(pod)], ops1);
      if !ok { return; }
      ghost var disk2 := fs.disk;
      ok, ops2 := CheckpointVolumes(fs, ConfigMap, pod, api.configMaps, failures);
      chunk := chunk.(data := ops1 + ops2);
      Associate(old(fs.log), [InactiveWrite(pod)] + ops1, ops2);
      Associate([InactiveWrite(pod)], ops1, ops2);
      ReplayConcat(old(fs.disk), [InactiveWrite(pod)] + ops1, ops2);
      if !ok { return; }
      stored := true;
      if ValidVolumes(pod) {
        forall j | 0 <= j < |pod.spec.volumes| ensures VolumeStored(Secret, pod, pod.spec.volumes[j], api.secrets, fs.disk) {
          SecretsStay(disk2, pod, pod.spec.volumes[j], api.secrets, ops2);
        }
      }
    }
  }

  /** The stored object of a rewritten volume is what its host path shows. */
  lemma StoredAtHostPath(pod: Pod, api: Api, d: Disk, j: nat)
    requires PodStored(pod, api, d) && !IsCheckpoint(pod) && j < |pod.spec.volumes| && RemoteVolume(pod.spec.volumes[j])
    ensures var v, ns := pod.spec.volumes[j], pod.meta.namespace;
            var host := Sanitized(pod).spec.volumes[j].hostPath;
            var served := if v.secret.Some? then api.secrets else api.configMaps;
            var name := if v.secret.Some? then v.secret.value else v.configMap.value;
            && host.Some? && (ns, name) in served
            && forall key :: key in served[(ns, name)] ==> host.value + [key] in d.data && d.data[host.value + [key]] == served[(ns, name)][key]
  {
    var v := pod.spec.volumes[j];
    assert VolumeStored(Secret, pod, v, api.secrets, d) && VolumeStored(ConfigMap, pod, v, api.configMaps, d);
  }
}
