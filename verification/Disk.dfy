/** The directories the checkpointer owns, and the operations it performs on them
    (pkg/checkpoint/manifest.go and the handlers of pkg/checkpoint/process.go).

    Every system call that changes a directory is one `DiskOp`, and os.RemoveAll, which can fail or be
    cut off half-way, is two, so that a crash at any moment leaves the replay of a prefix of the operations.
 */
module Disk {
  import opened Strings
  import opened Kubernetes
  import opened Pods

  /** A file holds an encoded pod or something that does not decode to one. */
  datatype Content = Manifest(pod: Pod) | Opaque(data: string)

  type Directory = map<string, Content>

  /** Manifests by file name; secret and config map files by absolute path. */
  datatype Disk = Disk(active: Directory, inactive: Directory, data: map<Path, string>)

  datatype DiskOp =
    | WriteInactive(file: string, content: Content)
    | Activate(file: string)
    | RemoveActive(file: string)
    | RemoveInactive(file: string)
    | WriteData(path: Path, bytes: string)
    | TearTree(dir: Path, part: set<Path>)
    | RemoveTree(dir: Path)

  function Apply(d: Disk, op: DiskOp): Disk {
    match op
    case WriteInactive(file, content) => d.(inactive := d.inactive[file := content])
    case Activate(file) => if file in d.inactive then d.(active := d.active[file := d.inactive[file]]) else d
    case RemoveActive(file) => d.(active := d.active - {file})
    case RemoveInactive(file) => d.(inactive := d.inactive - {file})
    case WriteData(path, bytes) => d.(data := d.data[path := bytes])
    case TearTree(dir, part) => d.(data := map p | p in d.data && !(dir <= p && p in part) :: d.data[p])
    case RemoveTree(dir) => d.(data := map p | p in d.data && !(dir <= p) :: d.data[p])
  }

  function Replay(d: Disk, ops: seq<DiskOp>): Disk {
    if ops == [] then d else Apply(Replay(d, ops[..|ops| - 1]), ops[|ops| - 1])
  }

  lemma {:induction false} ReplayConcat(d: Disk, a: seq<DiskOp>, b: seq<DiskOp>)
    ensures Replay(d, a + b) == Replay(Replay(d, a), b)
  {
    if b == [] {
      assert a + b == a;
    } else {
      assert (a + b)[..|a + b| - 1] == a + b[..|b| - 1];
      ReplayConcat(d, a, b[..|b| - 1]);
    }
  }

  // ---------------------------------------------------------------------------------------------
  // What the handlers do, given the set of operations that fail.

  function Attempt(op: DiskOp, faults: set<DiskOp>): seq<DiskOp> {
    if op in faults then [] else [op]
  }

  function StopOps(ids: seq<string>, faults: set<DiskOp>): seq<DiskOp> {
    if ids == [] then []
    else StopOps(ids[..|ids| - 1], faults) + Attempt(RemoveActive(ManifestFile(ids[|ids| - 1])), faults)
  }

  function StartOps(ids: seq<string>, faults: set<DiskOp>): seq<DiskOp> {
    if ids == [] then []
    else StartOps(ids[..|ids| - 1], faults) + Attempt(Activate(ManifestFile(ids[|ids| - 1])), faults)
  }

  /** os.RemoveAll: the files in `torn` go first, and then the rest, unless that fails. */
  function RemoveAllOps(dir: Path, faults: set<DiskOp>, torn: set<Path>): seq<DiskOp> {
    [TearTree(dir, torn)] + Attempt(RemoveTree(dir), faults)
  }

  /** Data first, then the inactive manifest, and the active one last; failing to remove the inactive
      manifest keeps the active one. */
  function RemoveOneOps(id: string, faults: set<DiskOp>, torn: set<Path>): seq<DiskOp> {
    RemoveAllOps(FullNameToSecretPath(id), faults, torn) +
    RemoveAllOps(FullNameToConfigMapPath(id), faults, torn) +
    (if RemoveInactive(ManifestFile(id)) in faults then []
     else [RemoveInactive(ManifestFile(id))] + Attempt(RemoveActive(ManifestFile(id)), faults))
  }

  function RemoveOps(ids: seq<string>, faults: set<DiskOp>, torn: set<Path>): seq<DiskOp> {
    if ids == [] then []
    else RemoveOps(ids[..|ids| - 1], faults, torn) + RemoveOneOps(ids[|ids| - 1], faults, torn)
  }

  /** One tracked pod: its manifest, if it can be written, then whatever of its secrets and config maps
      gets stored. Finding the manifest already in place counts as writing it. */
  datatype Chunk = Chunk(name: string, written: bool, data: seq<DiskOp>)

  function InactiveWrite(pod: Pod): DiskOp {
    WriteInactive(ManifestFile(FullName(pod)), Manifest(Sanitized(pod)))
  }

  function ChunkOps(pod: Pod, c: Chunk): seq<DiskOp> {
    if c.written then [InactiveWrite(pod)] + c.data else []
  }

  function CreateOps(pods: map<string, Pod>, chunks: seq<Chunk>): seq<DiskOp>
    requires forall c :: c in chunks ==> c.name in pods
  {
    if chunks == [] then []
    else
      var c := chunks[|chunks| - 1];
      CreateOps(pods, chunks[..|chunks| - 1]) + ChunkOps(pods[c.name], c)
  }

  // ---------------------------------------------------------------------------------------------
  // Reading manifests back.

  predicate CheckpointFile(c: Content) {
    c.Manifest? && IsCheckpoint(c.pod)
  }

  /** The directory holds a checkpoint of the pod `x`, at the place where the handlers look for it. */
  predicate Has(dir: Directory, x: string) {
    && ManifestFile(x) in dir
    && CheckpointFile(dir[ManifestFile(x)])
    && FullName(dir[ManifestFile(x)].pod) == x
  }

  /** File names tell the given pods apart. */
  ghost predicate Injective(names: set<string>) {
    forall x, y :: x in names && y in names && ManifestFile(x) == ManifestFile(y) ==> x == y
  }

  /** Every checkpoint in the directory is of a valid pod among `names`, under its own file name. */
  ghost predicate WellPlaced(dir: Directory, names: set<string>) {
    forall f :: f in dir && !IsTemporary(f) && CheckpointFile(dir[f]) ==>
      && ValidPod(dir[f].pod)
      && FullName(dir[f].pod) in names
      && f == ManifestFile(FullName(dir[f].pod))
  }

  /** The directory without the temporary files, but for those in `lingering`. */
  function WithoutTemporary(dir: Directory, lingering: set<string>): Directory {
    map f | f in dir && (IsTemporary(f) ==> f in lingering) :: dir[f]
  }

  /** The file holds a checkpoint that is read back. */
  predicate Readable(dir: Directory, f: string) {
    f in dir && !IsTemporary(f) && CheckpointFile(dir[f])
  }

  function CheckpointNames(dir: Directory): set<string> {
    set f | f in dir && Readable(dir, f) :: FullName(dir[f].pod)
  }

  /** The checkpoints of a well placed directory, by full name. */
  function FileCheckpoints(dir: Directory): map<string, Pod> {
    map x | x in CheckpointNames(dir) && Has(dir, x) :: dir[ManifestFile(x)].pod
  }

  lemma PlacedNames(dir: Directory, names: set<string>, x: string)
    requires WellPlaced(dir, names)
    ensures x in CheckpointNames(dir) ==> Has(dir, x) && x in names && ValidPod(dir[ManifestFile(x)].pod)
    ensures x in CheckpointNames(dir) <==> x in FileCheckpoints(dir)
    ensures Has(dir, x) && !IsTemporary(ManifestFile(x)) ==> x in FileCheckpoints(dir)
  {
  }

  ghost predicate FoundIn(dir: Directory, seen: set<string>, x: string, pod: Pod) {
    exists f :: f in seen && Readable(dir, f) && dir[f].pod == pod && FullName(pod) == x
  }

  /** Reads a directory and clears leftover temporary files, except where deleting one fails. The order
      of the files is arbitrary, and with two files for one pod so is the winner; the result still names
      exactly the pods found. */
  method GetFileCheckpoints(dir: Directory, lingering: set<string>) returns (checkpoints: map<string, Pod>, left: Directory)
    ensures left == WithoutTemporary(dir, lingering)
    ensures forall f :: f in left <==> f in dir && (f != "" && f[0] == '.' ==> f in lingering)
    ensures checkpoints.Keys == CheckpointNames(dir)
    ensures forall x :: x in checkpoints ==> FoundIn(dir, dir.Keys, x, checkpoints[x])
  {
    checkpoints, left := map[], dir;
    var todo := dir.Keys;
    ghost var seen := {};
    while todo != {}
      invariant seen == dir.Keys - todo && todo <= dir.Keys
      invariant left == map f | f in dir && (f in todo || (IsTemporary(f) ==> f in lingering)) :: dir[f]
      invariant forall f :: f in seen && Readable(dir, f) ==> FullName(dir[f].pod) in checkpoints
      invariant forall x :: x in checkpoints ==> FoundIn(dir, seen, x, checkpoints[x])
    {
      var f :| f in todo;
      todo, seen := todo - {f}, seen + {f};
      if HasPrefix(f, ".") {
        if f !in lingering {
          left := left - {f};
        }
        continue;
      }
      if dir[f].Manifest? {
        var cp := dir[f].pod;
        if IsCheckpoint(cp) {
          assert Readable(dir, f);
          checkpoints := checkpoints[FullName(cp) := cp];
        }
      }
    }
    assert seen == dir.Keys;
  }

  /** In a well placed directory what is found is unique. */
  lemma FoundUnique(dir: Directory, names: set<string>, checkpoints: map<string, Pod>)
    requires WellPlaced(dir, names)
    requires checkpoints.Keys == CheckpointNames(dir)
    requires forall x :: x in checkpoints ==> FoundIn(dir, dir.Keys, x, checkpoints[x])
    ensures checkpoints == FileCheckpoints(dir)
  {
    forall x | x in checkpoints ensures Has(dir, x) && checkpoints[x] == dir[ManifestFile(x)].pod {
      var f :| f in dir && Readable(dir, f) && dir[f].pod == checkpoints[x] && FullName(checkpoints[x]) == x;
      assert f == ManifestFile(x);
    }
  }

  // ---------------------------------------------------------------------------------------------
  // Writing one file atomically.

  /** The steps of writeAndAtomicRename; the numbers are the points where it can fail or be cut off. */
  const STEPS := 6

  /** Writes `data` under the temporary name and renames it. The call fails at step `failing`, where a
      value of STEPS or more means success; a failing write may have stored any prefix of the data.
      Whatever happens, the target holds its old content or the complete new one. */
  method WriteAndAtomicRename(dir: map<string, string>, file: string, data: string, tmp: string, failing: nat, stored: nat)
    returns (after: map<string, string>, ok: bool)
    requires IsTemporary(tmp) && tmp !in dir && !IsTemporary(file) && stored <= |data|
    ensures ok <==> failing >= STEPS
    ensures ok ==> after == dir[file := data]
    ensures after - {tmp} == dir || after - {tmp} == dir[file := data]
    ensures after.Keys <= dir.Keys + {file, tmp}
  {
    after, ok := dir, false;
    if failing == 0 { return; }
    after := after[tmp := ""];
    if failing == 1 { after := after[tmp := data[..stored]]; return; }
    after := after[tmp := data];
    if failing <= 3 { return; }
    if failing == 4 { return; }
    after := (after - {tmp})[file := data];
    ok := failing != 5;
  }
}
