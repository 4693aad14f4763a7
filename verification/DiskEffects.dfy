/** What the handlers' operations amount to when none of them fails. */
module DiskEffects {
  import opened Strings
  import opened Kubernetes
  import opened Pods
  import opened Disk

  function Files(ids: seq<string>): set<string> {
    set x | x in ids :: ManifestFile(x)
  }

  lemma FilesSnoc(ids: seq<string>)
    requires ids != []
    ensures Files(ids) == Files(ids[..|ids| - 1]) + {ManifestFile(ids[|ids| - 1])}
  {
    assert ids == ids[..|ids| - 1] + [ids[|ids| - 1]];
  }

  lemma {:induction false} StopEffect(d: Disk, ids: seq<string>)
    ensures Replay(d, StopOps(ids, {})) == d.(active := d.active - Files(ids))
  {
    if ids != [] {
      var n := |ids| - 1;
      StopEffect(d, ids[..n]);
      ReplayConcat(d, StopOps(ids[..n], {}), [RemoveActive(ManifestFile(ids[n]))]);
      FilesSnoc(ids);
    }
  }

  function Activated(active: Directory, inactive: Directory, files: set<string>): Directory {
    map f | f in active.Keys + (files * inactive.Keys) :: if f in files && f in inactive then inactive[f] else active[f]
  }

  lemma ActivatedOneMore(active: Directory, inactive: Directory, files: set<string>, f: string)
    ensures var m := Activated(active, inactive, files);
            Activated(active, inactive, files + {f}) == if f in inactive then m[f := inactive[f]] else m
  {
  }

  lemma {:induction false} StartEffect(d: Disk, ids: seq<string>)
    ensures Replay(d, StartOps(ids, {})) == d.(active := Activated(d.active, d.inactive, Files(ids)))
  {
    if ids != [] {
      var n := |ids| - 1;
      StartEffect(d, ids[..n]);
      ReplayConcat(d, StartOps(ids[..n], {}), [Activate(ManifestFile(ids[n]))]);
      FilesSnoc(ids);
      ActivatedOneMore(d.active, d.inactive, Files(ids[..n]), ManifestFile(ids[n]));
      var d' := Replay(d, StartOps(ids[..n], {}));
      assert Replay(d', [Activate(ManifestFile(ids[n]))]) == Apply(d', Activate(ManifestFile(ids[n])));
    } else {
      assert Activated(d.active, d.inactive, Files(ids)) == d.active;
    }
  }

  function Pruned(data: map<Path, string>, ids: seq<string>): map<Path, string> {
    map p | p in data && forall x :: x in ids ==> !(FullNameToSecretPath(x) <= p) && !(FullNameToConfigMapPath(x) <= p) :: data[p]
  }

  lemma RemoveAllEffect(d: Disk, dir: Path, torn: set<Path>)
    ensures Replay(d, RemoveAllOps(dir, {}, torn)) == Apply(d, RemoveTree(dir))
  {
    ReplayConcat(d, [TearTree(dir, torn)], [RemoveTree(dir)]);
    ReplayOne(d, TearTree(dir, torn));
    ReplayOne(Apply(d, TearTree(dir, torn)), RemoveTree(dir));
  }

  lemma ReplayOne(d: Disk, op: DiskOp)
    ensures Replay(d, [op]) == Apply(d, op)
  {
    assert [op][..0] == [];
  }

  lemma RemoveOneEffect(d: Disk, id: string, torn: set<Path>)
    ensures Replay(d, RemoveOneOps(id, {}, torn)) ==
            Disk(d.active - {ManifestFile(id)}, d.inactive - {ManifestFile(id)}, Pruned(d.data, [id]))
  {
    var secrets, configMaps := FullNameToSecretPath(id), FullNameToConfigMapPath(id);
    RemoveOneReplay(d, id, torn);
    RemoveAllEffect(d, secrets, torn);
    RemoveAllEffect(Apply(d, RemoveTree(secrets)), configMaps, torn);
    BothTrees(d, id);
  }

  lemma BothTrees(d: Disk, id: string)
    ensures Apply(Apply(d, RemoveTree(FullNameToSecretPath(id))), RemoveTree(FullNameToConfigMapPath(id))) == d.(data := Pruned(d.data, [id]))
  {
    assert forall x :: x in [id] <==> x == id;
  }

  /** A removal is the removal of both trees and of both manifests. */
  lemma RemoveOneReplay(d: Disk, id: string, torn: set<Path>)
    ensures var a, b := RemoveAllOps(FullNameToSecretPath(id), {}, torn), RemoveAllOps(FullNameToConfigMapPath(id), {}, torn);
            var c, e := RemoveInactive(ManifestFile(id)), RemoveActive(ManifestFile(id));
            && RemoveOneOps(id, {}, torn) == a + b + ([c] + [e])
            && Replay(d, RemoveOneOps(id, {}, torn)) == Apply(Apply(Replay(Replay(d, a), b), c), e)
  {
    var a, b := RemoveAllOps(FullNameToSecretPath(id), {}, torn), RemoveAllOps(FullNameToConfigMapPath(id), {}, torn);
    var c, e := RemoveInactive(ManifestFile(id)), RemoveActive(ManifestFile(id));
    ReplayConcat(d, a, b);
    ReplayConcat(d, a + b, [c] + [e]);
    ReplayConcat(Replay(d, a + b), [c], [e]);
    ReplayOne(Replay(d, a + b), c);
    ReplayOne(Apply(Replay(d, a + b), c), e);
  }

  lemma PrunedOneMore(data: map<Path, string>, ids: seq<string>)
    requires ids != []
    ensures Pruned(Pruned(data, ids[..|ids| - 1]), [ids[|ids| - 1]]) == Pruned(data, ids)
  {
    var n := |ids| - 1;
    assert forall x :: x in ids <==> x in ids[..n] || x in [ids[n]];
  }

  lemma {:induction false} RemoveEffect(d: Disk, ids: seq<string>, torn: set<Path>)
    ensures var d' := Replay(d, RemoveOps(ids, {}, torn));
            && d'.active == d.active - Files(ids)
            && d'.inactive == d.inactive - Files(ids)
            && d'.data == Pruned(d.data, ids)
  {
    if ids == [] {
      assert Pruned(d.data, ids) == d.data;
    } else {
      var n := |ids| - 1;
      RemoveEffect(d, ids[..n], torn);
      var d' := Replay(d, RemoveOps(ids[..n], {}, torn));
      assert Replay(d, RemoveOps(ids, {}, torn)) == Replay(d', RemoveOneOps(ids[n], {}, torn)) by {
        ReplayConcat(d, RemoveOps(ids[..n], {}, torn), RemoveOneOps(ids[n], {}, torn));
      }
      RemoveOneEffect(d', ids[n], torn);
      WithoutFiles(d.active, ids);
      WithoutFiles(d.inactive, ids);
      PrunedOneMore(d.data, ids);
    }
  }

  function ChunkNames(chunks: seq<Chunk>): seq<string> {
    seq(|chunks|, i requires 0 <= i < |chunks| => chunks[i].name)
  }

  ghost predicate AllData(ops: seq<DiskOp>) {
    forall op :: op in ops ==> op.WriteData?
  }

  lemma {:induction false} DataEffect(d: Disk, ops: seq<DiskOp>)
    requires AllData(ops)
    ensures Replay(d, ops).active == d.active && Replay(d, ops).inactive == d.inactive
  {
    if ops != [] {
      DataEffect(d, ops[..|ops| - 1]);
      assert ops[|ops| - 1] in ops;
    }
  }

  /** The manifests written for the given names. */
  ghost predicate InactiveWritten(before: Directory, after: Directory, pods: map<string, Pod>, ids: seq<string>)
    requires forall x :: x in ids ==> x in pods
  {
    && after.Keys == before.Keys + Files(ids)
    && (forall x :: x in ids ==> after[ManifestFile(x)] == Manifest(Sanitized(pods[x])))
    && (forall f :: f in before && f !in Files(ids) ==> after[f] == before[f])
  }

  lemma {:induction false} CreateEffect(d: Disk, pods: map<string, Pod>, chunks: seq<Chunk>, names: set<string>)
    requires forall c :: c in chunks ==> c.name in pods && c.written && AllData(c.data)
    requires NoDuplicates(ChunkNames(chunks)) && Injective(names) && pods.Keys <= names
    requires forall x :: x in pods ==> FullName(pods[x]) == x
    ensures var d' := Replay(d, CreateOps(pods, chunks));
            && d'.active == d.active
            && InactiveWritten(d.inactive, d'.inactive, pods, ChunkNames(chunks))
  {
    var ids := ChunkNames(chunks);
    if chunks != [] {
      var n := |chunks| - 1;
      var c, rest := chunks[n], chunks[..n];
      var op := InactiveWrite(pods[c.name]);
      assert ChunkNames(rest) == ids[..n];
      CreateEffect(d, pods, rest, names);
      var d1 := Replay(d, CreateOps(pods, rest));
      ReplayConcat(d, CreateOps(pods, rest), [op] + c.data);
      ReplayConcat(d1, [op], c.data);
      var d2 := Replay(d1, [op]);
      assert d2 == Apply(d1, op);
      DataEffect(d2, c.data);
      FilesSnoc(ids);
      WriteOne(d.inactive, d1.inactive, pods, ids, names);
    } else {
      assert ids == [];
    }
  }

  lemma WriteOne(before: Directory, during: Directory, pods: map<string, Pod>, ids: seq<string>, names: set<string>)
    requires ids != [] && NoDuplicates(ids) && Injective(names) && pods.Keys <= names
    requires forall x :: x in ids ==> x in pods && FullName(pods[x]) == x
    requires InactiveWritten(before, during, pods, ids[..|ids| - 1])
    ensures var x := ids[|ids| - 1];
            InactiveWritten(before, during[ManifestFile(x) := Manifest(Sanitized(pods[x]))], pods, ids)
  {
    var n := |ids| - 1;
    FilesSnoc(ids);
    var after := during[ManifestFile(ids[n]) := Manifest(Sanitized(pods[ids[n]]))];
    WrittenMore(before, during, Files(ids[..n]), ManifestFile(ids[n]), Manifest(Sanitized(pods[ids[n]])));
    forall y | y in ids ensures after[ManifestFile(y)] == Manifest(Sanitized(pods[y])) {
      if y != ids[n] { EarlierName(ids, pods, names, y); }
    }
  }

  lemma WrittenMore(before: Directory, during: Directory, files: set<string>, file: string, content: Content)
    requires during.Keys == before.Keys + files && forall f :: f in before && f !in files ==> during[f] == before[f]
    ensures var after := during[file := content];
            after.Keys == before.Keys + (files + {file}) && forall f :: f in before && f !in files + {file} ==> after[f] == before[f]
  {
  }

  lemma EarlierName(ids: seq<string>, pods: map<string, Pod>, names: set<string>, y: string)
    requires ids != [] && Injective(names) && pods.Keys <= names && (forall x :: x in ids ==> x in pods)
    requires y in ids && y != ids[|ids| - 1]
    ensures y in ids[..|ids| - 1] && ManifestFile(y) != ManifestFile(ids[|ids| - 1])
  {
    assert y in names && ids[|ids| - 1] in names;
  }

  lemma WithoutFiles(dir: Directory, ids: seq<string>)
    requires ids != []
    ensures dir - Files(ids) == (dir - Files(ids[..|ids| - 1])) - {ManifestFile(ids[|ids| - 1])}
  {
    FilesSnoc(ids);
  }
}
