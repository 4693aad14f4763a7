/** The temporary bootstrap control plane (pkg/bootkube/bootstrap.go).

    Start copies the secrets and the static manifests of an asset directory to where the kubelet looks,
    Teardown takes them away again. Every operation on files may fail; where it fails is a parameter.
 */
module Bootstrap {
  import opened Strings

  type Files = map<Path, string>

  const SECRETS_DIR: Path := ["etc", "kubernetes", "bootstrap-secrets"]
  const ASSET_SECRETS := "tls"
  const ASSET_KUBECONFIG: Path := ["auth", "kubeconfig"]
  const ASSET_BOOTSTRAP_MANIFESTS := "bootstrap-manifests"

  predicate Under(dir: Path, p: Path) {
    dir <= p
  }

  // ---------------------------------------------------------------------------------------------
  // Removing and copying.

  /** os.RemoveAll(dir): if it fails, the files in `kept` are still there. */
  datatype Removal = Complete | Failed(kept: set<Path>)

  function RemoveAll(files: Files, dir: Path, removal: Removal): Files {
    map p | p in files && (Under(dir, p) ==> removal.Failed? && p in removal.kept) :: files[p]
  }

  function Without(files: Files, gone: seq<Path>): Files {
    map p | p in files && p !in gone :: files[p]
  }

  /** Where copying one entry of a directory fails: in the walk or in making a directory or in opening
      the target, in opening the source, or after some bytes. */
  datatype Fault = Fine | NotOpened | NoSource | Breaks(written: nat)

  /** The target after writing `data` to it from the start: opening it did not cut it off. */
  function Overlay(content: string, data: string): string {
    if |content| <= |data| then data else data + content[|data|..]
  }

  datatype Copied = Copied(files: Files, ok: bool)

  function CopyFile(files: Files, src: Path, dst: Path, overwrite: bool, fault: Fault): Copied {
    if fault.NotOpened? || (!overwrite && dst in files) then Copied(files, false)
    else
      var ready := if dst in files then files else files[dst := ""];
      if fault.NoSource? || src !in ready then Copied(ready, false)
      else
        var data := ready[src];
        var written := if fault.Breaks? && fault.written < |data| then data[..fault.written] else data;
        Copied(ready[dst := Overlay(ready[dst], written)], !fault.Breaks?)
  }

  /** What filepath.Walk visits: the path below the root, and what becomes of copying it. */
  datatype Entry = Entry(rel: Path, isDir: bool, fault: Fault)

  datatype Tree = Tree(files: Files, copied: seq<Path>, ok: bool)

  /** copyDirectory from some point of the walk on. */
  function CopyTree(files: Files, copied: seq<Path>, srcDir: Path, dstDir: Path, overwrite: bool, walk: seq<Entry>): Tree
    decreases |walk|
  {
    if walk == [] then Tree(files, copied, true)
    else
      var e := walk[0];
      if e.isDir then
        if e.fault.Fine? then CopyTree(files, copied, srcDir, dstDir, overwrite, walk[1..]) else Tree(files, copied, false)
      else
        var c := CopyFile(files, srcDir + e.rel, dstDir + e.rel, overwrite, e.fault);
        if c.ok then CopyTree(c.files, copied + [dstDir + e.rel], srcDir, dstDir, overwrite, walk[1..])
        else Tree(c.files, copied, false)
  }

  /** What happens outside the program while Start runs. */
  datatype StartPlan = StartPlan(removal: Removal, secrets: seq<Entry>, kubeconfig: Fault, manifests: seq<Entry>)

  datatype Plane = Plane(files: Files, owned: seq<Path>, ok: bool)

  function AfterSecrets(files: Files, assetDir: Path, plan: StartPlan): Tree {
    CopyTree(RemoveAll(files, SECRETS_DIR, plan.removal), [], assetDir + [ASSET_SECRETS], SECRETS_DIR, true, plan.secrets)
  }

  function AfterKubeconfig(files: Files, assetDir: Path, plan: StartPlan): Copied {
    CopyFile(AfterSecrets(files, assetDir, plan).files, assetDir + ASSET_KUBECONFIG, SECRETS_DIR + ["kubeconfig"], true, plan.kubeconfig)
  }

  function Started(files: Files, owned: seq<Path>, assetDir: Path, podDir: Path, plan: StartPlan): Plane {
    if plan.removal.Failed? then Plane(RemoveAll(files, SECRETS_DIR, plan.removal), owned, false)
    else
      var secrets := AfterSecrets(files, assetDir, plan);
      if !secrets.ok then Plane(secrets.files, owned, false)
      else
        var kubeconfig := AfterKubeconfig(files, assetDir, plan);
        if !kubeconfig.ok then Plane(kubeconfig.files, owned, false)
        else
          var manifests := CopyTree(kubeconfig.files, [], assetDir + [ASSET_BOOTSTRAP_MANIFESTS], podDir, false, plan.manifests);
          Plane(manifests.files, manifests.copied, manifests.ok)
  }

  /** Teardown; removing manifest number `failsAt` fails. */
  function TornDown(files: Files, owned: seq<Path>, removal: Removal, failsAt: nat): Plane {
    var rest := RemoveAll(files, SECRETS_DIR, removal);
    if removal.Failed? then Plane(rest, owned, false)
    else if failsAt < |owned| then Plane(Without(rest, owned[..failsAt]), owned, false)
    else Plane(Without(rest, owned), [], true)
  }

  class ControlPlane {
    const assetDir: Path
    const podDir: Path
    var owned: seq<Path>
    /** The files of the machine. */
    var files: Files

    constructor (assetDir: Path, podDir: Path, files: Files)
      ensures this.assetDir == assetDir && this.podDir == podDir && this.files == files && owned == []
    {
      this.assetDir, this.podDir, this.files, owned := assetDir, podDir, files, [];
    }

    method CopyOne(src: Path, dst: Path, overwrite: bool, fault: Fault) returns (ok: bool)
      modifies this`files
      ensures Copied(files, ok) == CopyFile(old(files), src, dst, overwrite, fault)
    {
      if fault.NotOpened? || (!overwrite && dst in files) {
        return false;
      }
      if dst !in files {
        files := files[dst := ""];
      }
      if fault.NoSource? || src !in files {
        return false;
      }
      var data := files[src];
      if fault.Breaks? && fault.written < |data| {
        data := data[..fault.written];
      }
      files := files[dst := Overlay(files[dst], data)];
      return !fault.Breaks?;
    }

    method CopyDirectory(srcDir: Path, dstDir: Path, overwrite: bool, walk: seq<Entry>) returns (copied: seq<Path>, ok: bool)
      modifies this`files
      ensures Tree(files, copied, ok) == CopyTree(old(files), [], srcDir, dstDir, overwrite, walk)
    {
      copied, ok := [], true;
      for i := 0 to |walk|
        invariant ok
        invariant CopyTree(files, copied, srcDir, dstDir, overwrite, walk[i..])
               == CopyTree(old(files), [], srcDir, dstDir, overwrite, walk)
      {
        var e := walk[i];
        assert walk[i..][0] == e && walk[i..][1..] == walk[i + 1..];
        if e.isDir {
          if !e.fault.Fine? {
            return copied, false;
          }
        } else {
          ok := CopyOne(srcDir + e.rel, dstDir + e.rel, overwrite, e.fault);
          if !ok {
            return;
          }
          copied := copied + [dstDir + e.rel];
        }
      }
    }

    method Start(plan: StartPlan) returns (ok: bool)
      modifies this
      ensures Plane(files, owned, ok) == Started(old(files), old(owned), assetDir, podDir, plan)
    {
      files := RemoveAll(files, SECRETS_DIR, plan.removal);
      if plan.removal.Failed? {
        return false;
      }
      var copied;
      copied, ok := CopyDirectory(assetDir + [ASSET_SECRETS], SECRETS_DIR, true, plan.secrets);
      if !ok {
        return;
      }
      ok := CopyOne(assetDir + ASSET_KUBECONFIG, SECRETS_DIR + ["kubeconfig"], true, plan.kubeconfig);
      if !ok {
        return;
      }
      owned, ok := CopyDirectory(assetDir + [ASSET_BOOTSTRAP_MANIFESTS], podDir, false, plan.manifests);
    }

    method Teardown(removal: Removal, failsAt: nat) returns (ok: bool)
      modifies this
      ensures Plane(files, owned, ok) == TornDown(old(files), old(owned), removal, failsAt)
    {
      files := RemoveAll(files, SECRETS_DIR, removal);
      if removal.Failed? {
        return false;
      }
      ghost var rest := files;
      for i := 0 to |owned|
        invariant owned == old(owned) && i <= failsAt
        invariant files == Without(rest, owned[..i])
      {
        if i == failsAt {
          return false;
        }
        assert owned[..i + 1] == owned[..i] + [owned[i]];
        files := files - {owned[i]};
      }
      assert owned[..|owned|] == owned;
      owned := [];
      return true;
    }
  }

  // ---------------------------------------------------------------------------------------------
  // Ownership.

  /** The files that `dir` does not contain. */
  function Outside(files: Files, dir: Path): Files {
    map p | p in files && !Under(dir, p) :: files[p]
  }

  /** `after` has the files of `before`, unchanged. */
  ghost predicate Keeps(before: Files, after: Files) {
    forall p :: p in before ==> p in after && after[p] == before[p]
  }

  /** A file that a copy created and broke off. */
  ghost predicate Litter(before: Files, t: Tree, p: Path) {
    p in t.files && p !in before && p !in t.copied
  }

  /** Copying without overwriting keeps every file, creates what it reports as copied and, if it fails,
      at most one more file. */
  lemma {:induction false} ExclusiveCopy(files: Files, copied: seq<Path>, srcDir: Path, dstDir: Path, walk: seq<Entry>)
    ensures var t := CopyTree(files, copied, srcDir, dstDir, false, walk);
      && Keeps(files, t.files)
      && copied <= t.copied
      && (forall p :: p in t.copied[|copied|..] ==> p !in files && p in t.files && Under(dstDir, p))
      && (forall p :: Litter(files, t, p) ==> !t.ok && Under(dstDir, p))
      && (forall p, q :: Litter(files, t, p) && Litter(files, t, q) ==> p == q)
    decreases |walk|
  {
    if walk != [] {
      var e := walk[0];
      var dst := dstDir + e.rel;
      if e.isDir {
        if e.fault.Fine? { ExclusiveCopy(files, copied, srcDir, dstDir, walk[1..]); }
      } else {
        var c := CopyFile(files, srcDir + e.rel, dst, false, e.fault);
        if c.ok {
          ExclusiveCopy(c.files, copied + [dst], srcDir, dstDir, walk[1..]);
          var t := CopyTree(c.files, copied + [dst], srcDir, dstDir, false, walk[1..]);
          assert t.copied[|copied|] == dst;
          assert t.copied[|copied|..] == [dst] + t.copied[|copied| + 1..];
          assert dst in t.copied;
          forall p | Litter(files, t, p) ensures Litter(c.files, t, p) {
          }
        }
      }
    }
  }

  /** Copying below a directory changes nothing outside it. */
  lemma {:induction false} CopyStaysUnder(files: Files, copied: seq<Path>, srcDir: Path, dstDir: Path, overwrite: bool, walk: seq<Entry>)
    ensures Outside(CopyTree(files, copied, srcDir, dstDir, overwrite, walk).files, dstDir) == Outside(files, dstDir)
    decreases |walk|
  {
    if walk != [] {
      var e := walk[0];
      if e.isDir {
        if e.fault.Fine? { CopyStaysUnder(files, copied, srcDir, dstDir, overwrite, walk[1..]); }
      } else {
        var c := CopyFile(files, srcDir + e.rel, dstDir + e.rel, overwrite, e.fault);
        FileStaysUnder(files, srcDir + e.rel, dstDir, e.rel, overwrite, e.fault);
        if c.ok {
          CopyStaysUnder(c.files, copied + [dstDir + e.rel], srcDir, dstDir, overwrite, walk[1..]);
        }
      }
    }
  }

  lemma FileStaysUnder(files: Files, src: Path, dstDir: Path, rel: Path, overwrite: bool, fault: Fault)
    ensures Outside(CopyFile(files, src, dstDir + rel, overwrite, fault).files, dstDir) == Outside(files, dstDir)
  {
    assert Under(dstDir, dstDir + rel);
  }

  /** Until it copies the manifests, Start changes only the secrets directory. */
  lemma SecretsStayInside(files: Files, assetDir: Path, plan: StartPlan)
    ensures Outside(RemoveAll(files, SECRETS_DIR, plan.removal), SECRETS_DIR) == Outside(files, SECRETS_DIR)
    ensures Outside(AfterSecrets(files, assetDir, plan).files, SECRETS_DIR) == Outside(files, SECRETS_DIR)
    ensures Outside(AfterKubeconfig(files, assetDir, plan).files, SECRETS_DIR) == Outside(files, SECRETS_DIR)
  {
    var cleared := RemoveAll(files, SECRETS_DIR, plan.removal);
    assert Outside(cleared, SECRETS_DIR) == Outside(files, SECRETS_DIR);
    CopyStaysUnder(cleared, [], assetDir + [ASSET_SECRETS], SECRETS_DIR, true, plan.secrets);
    FileStaysUnder(AfterSecrets(files, assetDir, plan).files, assetDir + ASSET_KUBECONFIG, SECRETS_DIR, ["kubeconfig"], true, plan.kubeconfig);
  }

  /** A file that is new, not secret and not owned. */
  ghost predicate Stray(before: Files, s: Plane, p: Path) {
    p in s.files && !Under(SECRETS_DIR, p) && p !in before && p !in s.owned
  }

  /** What a Start that owned nothing before leaves behind outside the secrets directory. */
  lemma StartOwns(files: Files, assetDir: Path, podDir: Path, plan: StartPlan)
    ensures var s, before := Started(files, [], assetDir, podDir, plan), Outside(files, SECRETS_DIR);
      && Keeps(before, s.files)
      && (forall p :: p in s.owned ==> p !in before)
      && (forall p :: Stray(before, s, p) ==> !s.ok && Under(podDir, p))
      && (forall p, q :: Stray(before, s, p) && Stray(before, s, q) ==> p == q)
  {
    var s, before := Started(files, [], assetDir, podDir, plan), Outside(files, SECRETS_DIR);
    SecretsStayInside(files, assetDir, plan);
    var f := AfterKubeconfig(files, assetDir, plan).files;
    var t := CopyTree(f, [], assetDir + [ASSET_BOOTSTRAP_MANIFESTS], podDir, false, plan.manifests);
    ExclusiveCopy(f, [], assetDir + [ASSET_BOOTSTRAP_MANIFESTS], podDir, plan.manifests);
    assert t.copied[0..] == t.copied;
    forall p | p in before ensures p in f && f[p] == before[p] && p in s.files && s.files[p] == before[p] {
      assert p in Outside(f, SECRETS_DIR);
      assert p in Outside(AfterSecrets(files, assetDir, plan).files, SECRETS_DIR);
    }
    forall p | Stray(before, s, p) ensures Litter(f, t, p) && s == Plane(t.files, t.copied, t.ok) {
      NoStraySecrets(files, assetDir, podDir, plan, p);
      assert p !in Outside(f, SECRETS_DIR);
    }
  }

  /** A Start that fails before it copies manifests leaves no strays. */
  lemma NoStraySecrets(files: Files, assetDir: Path, podDir: Path, plan: StartPlan, p: Path)
    requires Stray(Outside(files, SECRETS_DIR), Started(files, [], assetDir, podDir, plan), p)
    ensures plan.removal.Complete? && AfterSecrets(files, assetDir, plan).ok && AfterKubeconfig(files, assetDir, plan).ok
  {
    var s := Started(files, [], assetDir, podDir, plan);
    SecretsStayInside(files, assetDir, plan);
    assert p in Outside(s.files, SECRETS_DIR);
  }

  /** Start, wherever it fails, and a successful Teardown: every file outside the secrets directory is as
      before, every manifest that was copied is gone, and only a manifest whose copy broke off can be
      left, in which case Start reported it. */
  lemma StartThenTeardown(files: Files, assetDir: Path, podDir: Path, plan: StartPlan, failsAt: nat)
    requires failsAt >= |Started(files, [], assetDir, podDir, plan).owned|
    ensures var s := Started(files, [], assetDir, podDir, plan);
      var t, before := TornDown(s.files, s.owned, Complete, failsAt), Outside(files, SECRETS_DIR);
      && t.ok && t.owned == []
      && Keeps(before, t.files)
      && (forall p :: p in s.owned || Under(SECRETS_DIR, p) ==> p !in t.files)
      && (forall p :: p in t.files && p !in before ==> !s.ok && Under(podDir, p))
      && (forall p, q :: p in t.files.Keys - before.Keys && q in t.files.Keys - before.Keys ==> p == q)
      && (s.ok ==> t.files == before)
  {
    StartOwns(files, assetDir, podDir, plan);
    var s := Started(files, [], assetDir, podDir, plan);
    var t, before := TornDown(s.files, s.owned, Complete, failsAt), Outside(files, SECRETS_DIR);
    forall p | p in t.files && p !in before ensures Stray(before, s, p) {
    }
  }

  /** Teardown is idempotent: after a success it changes nothing, even where it fails. */
  lemma TeardownTwice(files: Files, owned: seq<Path>, failsAt: nat, removal: Removal, failsAt': nat)
    requires failsAt >= |owned|
    ensures var t := TornDown(files, owned, Complete, failsAt);
      var u := TornDown(t.files, t.owned, removal, failsAt');
      u.files == t.files && u.owned == []
  {
    var t := TornDown(files, owned, Complete, failsAt);
    assert RemoveAll(t.files, SECRETS_DIR, removal) == t.files;
    assert Without(t.files, []) == t.files;
  }

  /** A failed Teardown can be repeated: success then leaves what an immediate success would have left. */
  lemma TeardownRetried(files: Files, owned: seq<Path>, removal: Removal, failsAt: nat)
    ensures var a := TornDown(files, owned, removal, failsAt);
      && (a.ok <==> removal.Complete? && failsAt >= |owned|)
      && a.owned == (if a.ok then [] else owned)
      && (forall p :: p in a.files ==> p in files && a.files[p] == files[p])
      && (forall p :: p in files && p !in a.files ==> Under(SECRETS_DIR, p) || p in owned)
    ensures var a := TornDown(files, owned, removal, failsAt);
      !a.ok ==> TornDown(a.files, a.owned, Complete, |owned|) == TornDown(files, owned, Complete, |owned|)
  {
    var a := TornDown(files, owned, removal, failsAt);
    if !a.ok {
      assert Without(RemoveAll(a.files, SECRETS_DIR, Complete), owned) == Without(RemoveAll(files, SECRETS_DIR, Complete), owned);
    }
  }

  // ---------------------------------------------------------------------------------------------
  // A second Start.

  /** Start gets as far as copying manifests. */
  predicate ReachesManifests(files: Files, assetDir: Path, plan: StartPlan) {
    plan.removal.Complete? && AfterSecrets(files, assetDir, plan).ok && AfterKubeconfig(files, assetDir, plan).ok
  }

  /** A Start on top of an earlier one, whatever became of that one and whatever happens in this one: a
      manifest owned so far is disowned exactly if this Start gets as far as copying manifests, and then
      no Teardown removes it any more. */
  lemma SecondStartDisowns(files: Files, owned: seq<Path>, assetDir: Path, podDir: Path, plan: StartPlan, p: Path)
    requires p in owned && p in files && !Under(SECRETS_DIR, p)
    ensures var again := Started(files, owned, assetDir, podDir, plan);
      && (p in again.owned <==> !ReachesManifests(files, assetDir, plan))
      && (p in TornDown(again.files, again.owned, Complete, |again.owned|).files <==> ReachesManifests(files, assetDir, plan))
  {
    SecretsStayInside(files, assetDir, plan);
    assert p in Outside(files, SECRETS_DIR);
    var f := AfterKubeconfig(files, assetDir, plan).files;
    assert p in Outside(f, SECRETS_DIR);
    ExclusiveCopy(f, [], assetDir + [ASSET_BOOTSTRAP_MANIFESTS], podDir, plan.manifests);
    var t := CopyTree(f, [], assetDir + [ASSET_BOOTSTRAP_MANIFESTS], podDir, false, plan.manifests);
    assert t.copied[0..] == t.copied;
  }

  // ---------------------------------------------------------------------------------------------
  // Contents.

  /** The walk visits each path once. */
  ghost predicate Once(walk: seq<Entry>) {
    forall i, j :: 0 <= i < j < |walk| ==> walk[i].rel != walk[j].rel
  }

  /** A file of another name or outside the target survives a copy. */
  lemma {:induction false} CopyLeaves(files: Files, copied: seq<Path>, srcDir: Path, dstDir: Path, overwrite: bool, walk: seq<Entry>, p: Path)
    requires p in files && forall e :: e in walk ==> p != dstDir + e.rel
    ensures var t := CopyTree(files, copied, srcDir, dstDir, overwrite, walk); p in t.files && t.files[p] == files[p]
    decreases |walk|
  {
    if walk != [] {
      var e := walk[0];
      assert e in walk;
      if e.isDir {
        if e.fault.Fine? { CopyLeaves(files, copied, srcDir, dstDir, overwrite, walk[1..], p); }
      } else {
        var c := CopyFile(files, srcDir + e.rel, dstDir + e.rel, overwrite, e.fault);
        if c.ok { CopyLeaves(c.files, copied + [dstDir + e.rel], srcDir, dstDir, overwrite, walk[1..], p); }
      }
    }
  }

  /** A successful copy into a place with no such file gives every file visited its source's content. */
  lemma {:induction false} CopyFaithful(files: Files, copied: seq<Path>, srcDir: Path, dstDir: Path, overwrite: bool, walk: seq<Entry>, k: nat)
    requires Once(walk) && k < |walk| && !walk[k].isDir
    requires var src, dst := srcDir + walk[k].rel, dstDir + walk[k].rel;
      src in files && !Under(dstDir, src) && dst !in files
    requires CopyTree(files, copied, srcDir, dstDir, overwrite, walk).ok
    ensures var t := CopyTree(files, copied, srcDir, dstDir, overwrite, walk);
      dstDir + walk[k].rel in t.files && t.files[dstDir + walk[k].rel] == files[srcDir + walk[k].rel]
    decreases |walk|
  {
    var e, src, dst := walk[0], srcDir + walk[k].rel, dstDir + walk[k].rel;
    var c := if e.isDir then Copied(files, true) else CopyFile(files, srcDir + e.rel, dstDir + e.rel, overwrite, e.fault);
    var copied' := if e.isDir then copied else copied + [dstDir + e.rel];
    assert Under(dstDir, dstDir + e.rel);
    if k == 0 {
      assert c.files[dst] == files[src];
      forall x | x in walk[1..] ensures dst != dstDir + x.rel {
        SameTarget(dstDir, walk[0].rel, x.rel);
      }
      CopyLeaves(c.files, copied', srcDir, dstDir, overwrite, walk[1..], dst);
    } else {
      SameTarget(dstDir, e.rel, walk[k].rel);
      assert src in c.files && c.files[src] == files[src] && dst !in c.files;
      CopyFaithful(c.files, copied', srcDir, dstDir, overwrite, walk[1..], k - 1);
    }
  }

  lemma SameTarget(dir: Path, a: Path, b: Path)
    ensures dir + a == dir + b <==> a == b
  {
    assert (dir + a)[|dir|..] == a && (dir + b)[|dir|..] == b;
  }

  /** What removing a tree leaves: all other files, and where it fails those of the tree it did not get to. */
  lemma RemoveAllMeaning(files: Files, dir: Path, removal: Removal, p: Path)
    ensures p in RemoveAll(files, dir, removal) <==> p in files && (!(dir <= p) || (removal.Failed? && p in removal.kept))
    ensures p in RemoveAll(files, dir, removal) ==> RemoveAll(files, dir, removal)[p] == files[p]
  {
  }

  /** Nothing of an asset directory outside the secrets directory is inside it. */
  lemma SourceOutside(assetDir: Path, rest: Path)
    requires !Under(SECRETS_DIR, assetDir)
    ensures !Under(SECRETS_DIR, assetDir + [ASSET_SECRETS] + rest)
    ensures !Under(SECRETS_DIR, assetDir + ASSET_KUBECONFIG)
  {
    var p, q, n := assetDir + [ASSET_SECRETS] + rest, assetDir + ASSET_KUBECONFIG, |assetDir|;
    assert p[n] == ASSET_SECRETS && p[..n] == assetDir;
    assert q[n] == "auth" && q[..n] == assetDir;
  }

  /** Writing over a file gives the new content exactly if the old one is not longer, and leaves the old
      content exactly if it begins with the new one. */
  lemma OverlayFaithful(content: string, data: string)
    ensures Overlay(content, data) == data <==> |content| <= |data|
    ensures Overlay(content, data) == content <==> data <= content
  {
    var r := Overlay(content, data);
    if |content| > |data| {
      assert |r| == |content| && r[..|data|] == data && r[|data|..] == content[|data|..];
      assert content == content[..|data|] + content[|data|..];
    }
  }

  /** The secrets directory before the kubeconfig is copied over it, and the kubeconfig that is. */
  lemma KubeconfigCopy(files: Files, owned: seq<Path>, assetDir: Path, podDir: Path, plan: StartPlan)
    requires Started(files, owned, assetDir, podDir, plan).ok && !Under(SECRETS_DIR, assetDir)
    ensures var s, src, dst := Started(files, owned, assetDir, podDir, plan), assetDir + ASSET_KUBECONFIG, SECRETS_DIR + ["kubeconfig"];
      var before := AfterSecrets(files, assetDir, plan).files;
      && src in files && dst in s.files
      && s.files[dst] == (if dst in before then Overlay(before[dst], files[src]) else files[src])
      && forall p :: p in before && p != dst ==> p in s.files && s.files[p] == before[p]
  {
    var src, dst := assetDir + ASSET_KUBECONFIG, SECRETS_DIR + ["kubeconfig"];
    SourceOutside(assetDir, []);
    SecretsStayInside(files, assetDir, plan);
    assert Under(SECRETS_DIR, dst);
    var before, f := AfterSecrets(files, assetDir, plan).files, AfterKubeconfig(files, assetDir, plan).files;
    assert src in before;
    assert src in Outside(before, SECRETS_DIR) && src in Outside(files, SECRETS_DIR);
    ExclusiveCopy(f, [], assetDir + [ASSET_BOOTSTRAP_MANIFESTS], podDir, plan.manifests);
  }

  /** After a successful Start the kubeconfig in the secrets directory is the asset, exactly if the
      assets' secrets did not bring a longer file of that name. */
  lemma KubeconfigArrives(files: Files, owned: seq<Path>, assetDir: Path, podDir: Path, plan: StartPlan)
    requires Started(files, owned, assetDir, podDir, plan).ok && !Under(SECRETS_DIR, assetDir)
    ensures var s, src, dst := Started(files, owned, assetDir, podDir, plan), assetDir + ["auth", "kubeconfig"], ["etc", "kubernetes", "bootstrap-secrets", "kubeconfig"];
      var before := AfterSecrets(files, assetDir, plan).files;
      && src in files && dst in s.files
      && (s.files[dst] == files[src] <==> dst !in before || |before[dst]| <= |files[src]|)
  {
    KubeconfigCopy(files, owned, assetDir, podDir, plan);
    var before, dst := AfterSecrets(files, assetDir, plan).files, SECRETS_DIR + ["kubeconfig"];
    assert dst == ["etc", "kubernetes", "bootstrap-secrets", "kubeconfig"];
    if dst in before { OverlayFaithful(before[dst], files[assetDir + ASSET_KUBECONFIG]); }
  }

  /** After a successful Start every file below the assets' secrets is in the secrets directory. It has
      the same content, exactly unless it is called kubeconfig and does not begin with the admin's. */
  lemma SecretsArrive(files: Files, owned: seq<Path>, assetDir: Path, podDir: Path, plan: StartPlan, k: nat)
    requires Started(files, owned, assetDir, podDir, plan).ok && !Under(SECRETS_DIR, assetDir)
    requires Once(plan.secrets) && k < |plan.secrets| && !plan.secrets[k].isDir
    requires assetDir + [ASSET_SECRETS] + plan.secrets[k].rel in files
    ensures var s, rel := Started(files, owned, assetDir, podDir, plan), plan.secrets[k].rel;
      var src, dst, kubeconfig := assetDir + [ASSET_SECRETS] + rel, SECRETS_DIR + rel, assetDir + ASSET_KUBECONFIG;
      && dst in s.files && kubeconfig in files
      && (s.files[dst] == files[src] <==> (rel == ["kubeconfig"] ==> files[kubeconfig] <= files[src]))
  {
    var rel := plan.secrets[k].rel;
    var src, dst := assetDir + [ASSET_SECRETS] + rel, SECRETS_DIR + rel;
    var cleared := RemoveAll(files, SECRETS_DIR, plan.removal);
    assert Under(SECRETS_DIR, dst);
    SourceOutside(assetDir, rel);
    CopyFaithful(cleared, [], assetDir + [ASSET_SECRETS], SECRETS_DIR, true, plan.secrets, k);
    SameTarget(SECRETS_DIR, rel, ["kubeconfig"]);
    KubeconfigCopy(files, owned, assetDir, podDir, plan);
    OverlayFaithful(files[src], files[assetDir + ASSET_KUBECONFIG]);
  }

  /** What copying one file does, for each fault: it succeeds exactly if nothing breaks, the target may be
      written and the source is there; only the target changes, and it then begins with what was written. */
  lemma CopyFileMeaning(files: Files, src: Path, dst: Path, overwrite: bool, fault: Fault)
    requires src != dst
    ensures var c := CopyFile(files, src, dst, overwrite, fault);
      && (c.ok <==> fault.Fine? && (overwrite || dst !in files) && src in files)
      && (forall p :: p != dst ==> (p in c.files <==> p in files) && (p in files ==> c.files[p] == files[p]))
      && ((fault.NotOpened? || (!overwrite && dst in files)) ==> c.files == files)
      && (!fault.NotOpened? && (overwrite || dst !in files) ==> dst in c.files)
    ensures var c := CopyFile(files, src, dst, overwrite, fault);
      && (!fault.NotOpened? && dst !in files && (fault.NoSource? || src !in files) ==> c.files[dst] == "")
      && (fault.Breaks? && dst !in files && src in files ==> c.files[dst] <= files[src] && |c.files[dst]| == if fault.written < |files[src]| then fault.written else |files[src]|)
      && (c.ok ==> files[src] <= c.files[dst] && (dst !in files || |files[dst]| <= |files[src]| ==> c.files[dst] == files[src]))
  {
  }

  /** Copying a directory succeeds exactly if nothing fails, where all sources are there and, unless files may
      be overwritten, no target is. */
  lemma {:induction false} CopySucceeds(files: Files, copied: seq<Path>, srcDir: Path, dstDir: Path, overwrite: bool, walk: seq<Entry>)
    requires forall e :: e in walk && !e.isDir ==> srcDir + e.rel in files && (overwrite || dstDir + e.rel !in files)
    requires overwrite || Once(walk)
    ensures CopyTree(files, copied, srcDir, dstDir, overwrite, walk).ok <==> forall e :: e in walk ==> e.fault.Fine?
    decreases |walk|
  {
    if walk != [] {
      var e, rest := walk[0], walk[1..];
      assert e in walk && (forall x :: x in walk <==> x == e || x in rest);
      if e.fault.Fine? {
        var c := if e.isDir then Copied(files, true) else CopyFile(files, srcDir + e.rel, dstDir + e.rel, overwrite, e.fault);
        forall x | x in rest && !x.isDir && !overwrite ensures dstDir + x.rel !in c.files {
          SameTarget(dstDir, e.rel, x.rel);
        }
        CopySucceeds(c.files, if e.isDir then copied else copied + [dstDir + e.rel], srcDir, dstDir, overwrite, rest);
      }
    }
  }

  /** What a successful copy reports: each file of the walk, and nothing that failed. */
  lemma {:induction false} CopiedExactly(files: Files, copied: seq<Path>, srcDir: Path, dstDir: Path, overwrite: bool, walk: seq<Entry>, p: Path)
    requires CopyTree(files, copied, srcDir, dstDir, overwrite, walk).ok
    ensures p in CopyTree(files, copied, srcDir, dstDir, overwrite, walk).copied <==>
            p in copied || exists k :: 0 <= k < |walk| && !walk[k].isDir && p == dstDir + walk[k].rel
    ensures forall e :: e in walk ==> e.fault.Fine?
    decreases |walk|
  {
    if walk != [] {
      var e, rest := walk[0], walk[1..];
      if e.isDir {
        CopiedExactly(files, copied, srcDir, dstDir, overwrite, rest, p);
      } else {
        var c := CopyFile(files, srcDir + e.rel, dstDir + e.rel, overwrite, e.fault);
        CopiedExactly(c.files, copied + [dstDir + e.rel], srcDir, dstDir, overwrite, rest, p);
      }
      assert (exists k :: 0 <= k < |rest| && !rest[k].isDir && p == dstDir + rest[k].rel) ==>
             exists k :: 0 <= k < |walk| && !walk[k].isDir && p == dstDir + walk[k].rel by {
        if k :| 0 <= k < |rest| && !rest[k].isDir && p == dstDir + rest[k].rel {
          assert walk[k + 1] == rest[k];
        }
      }
      if k :| 0 <= k < |walk| && !walk[k].isDir && p == dstDir + walk[k].rel {
        if k > 0 { assert rest[k - 1] == walk[k]; }
      }
    }
  }

  /** A successful copy that overwrites nothing gives every file of the walk its source's content. */
  lemma {:induction false} ExclusiveFaithful(files: Files, copied: seq<Path>, srcDir: Path, dstDir: Path, walk: seq<Entry>, k: nat)
    requires k < |walk| && !walk[k].isDir && srcDir + walk[k].rel in files
    requires CopyTree(files, copied, srcDir, dstDir, false, walk).ok
    ensures var t := CopyTree(files, copied, srcDir, dstDir, false, walk);
      dstDir + walk[k].rel in t.files && t.files[dstDir + walk[k].rel] == files[srcDir + walk[k].rel]
    decreases |walk|
  {
    var e := walk[0];
    var c := if e.isDir then Copied(files, true) else CopyFile(files, srcDir + e.rel, dstDir + e.rel, false, e.fault);
    var copied' := if e.isDir then copied else copied + [dstDir + e.rel];
    if k == 0 {
      ExclusiveCopy(c.files, copied', srcDir, dstDir, walk[1..]);
    } else {
      ExclusiveFaithful(c.files, copied', srcDir, dstDir, walk[1..], k - 1);
    }
  }

  /** After a successful Start nothing has failed, exactly the manifests of the walk are owned, and each is in
      the pod directory with the content of its asset. */
  lemma ManifestsArrive(files: Files, owned: seq<Path>, assetDir: Path, podDir: Path, plan: StartPlan)
    requires Started(files, owned, assetDir, podDir, plan).ok && !Under(SECRETS_DIR, assetDir)
    ensures var s, walk := Started(files, owned, assetDir, podDir, plan), plan.manifests;
      && (forall p :: p in s.owned <==> exists k :: 0 <= k < |walk| && !walk[k].isDir && p == podDir + walk[k].rel)
      && (forall k :: 0 <= k < |walk| && !walk[k].isDir && assetDir + ["bootstrap-manifests"] + walk[k].rel in files ==>
           IsCopy(s.files, podDir + walk[k].rel, files, assetDir + ["bootstrap-manifests"] + walk[k].rel))
      && plan.removal.Complete? && plan.kubeconfig.Fine?
      && (forall e :: e in plan.secrets + plan.manifests ==> e.fault.Fine?)
  {
    var f, src, walk := AfterKubeconfig(files, assetDir, plan).files, assetDir + [ASSET_BOOTSTRAP_MANIFESTS], plan.manifests;
    var s := Started(files, owned, assetDir, podDir, plan);
    SecretsStayInside(files, assetDir, plan);
    forall p ensures p in s.owned <==> exists k :: 0 <= k < |walk| && !walk[k].isDir && p == podDir + walk[k].rel {
      CopiedExactly(f, [], src, podDir, false, walk, p);
    }
    CopiedExactly(RemoveAll(files, SECRETS_DIR, plan.removal), [], assetDir + [ASSET_SECRETS], SECRETS_DIR, true, plan.secrets, []);
    CopiedExactly(f, [], src, podDir, false, walk, []);
    forall k | 0 <= k < |walk| && !walk[k].isDir && src + walk[k].rel in files ensures IsCopy(s.files, podDir + walk[k].rel, files, src + walk[k].rel) {
      ManifestOutside(assetDir, walk[k].rel);
      assert src + walk[k].rel in Outside(files, SECRETS_DIR);
      assert src + walk[k].rel in Outside(f, SECRETS_DIR);
      ExclusiveFaithful(f, [], src, podDir, walk, k);
    }
  }

  /** The file has the content of another in an earlier state. */
  predicate IsCopy(files: Files, p: Path, before: Files, src: Path) {
    p in files && src in before && files[p] == before[src]
  }

  lemma ManifestOutside(assetDir: Path, rest: Path)
    requires !Under(SECRETS_DIR, assetDir)
    ensures !Under(SECRETS_DIR, assetDir + [ASSET_BOOTSTRAP_MANIFESTS] + rest)
  {
    var p, n := assetDir + [ASSET_BOOTSTRAP_MANIFESTS] + rest, |assetDir|;
    assert p[n] == ASSET_BOOTSTRAP_MANIFESTS && p[..n] == assetDir;
  }

  const LONGER: Files := map[
    ["assets", "tls", "kubeconfig"] := "long config",
    ["assets", "auth", "kubeconfig"] := "new"]

  const LONGER_PLAN := StartPlan(Complete, [Entry([], true, Fine), Entry(["kubeconfig"], false, Fine)], Fine, [])

  /** With a longer file called kubeconfig among the secrets, the copy is a mixture of the two. */
  lemma LongerKubeconfig()
    ensures var s := Started(LONGER, [], ["assets"], ["pods"], LONGER_PLAN);
      && s.ok && SECRETS_DIR + ["kubeconfig"] in s.files
      && s.files[SECRETS_DIR + ["kubeconfig"]] == "newg config"
  {
    var dst, dir, walk := SECRETS_DIR + ["kubeconfig"], ["assets", "tls"], LONGER_PLAN.secrets;
    var cleared := RemoveAll(LONGER, SECRETS_DIR, Complete);
    assert cleared == LONGER by {
      assert forall p :: p in LONGER ==> p[0] == "assets";
      assert SECRETS_DIR[0] == "etc";
    }
    assert ["assets"] + [ASSET_SECRETS] == dir && dir + ["kubeconfig"] == ["assets", "tls", "kubeconfig"];
    assert ["assets"] + ASSET_KUBECONFIG == ["assets", "auth", "kubeconfig"];
    var e := walk[1];
    assert walk[1..] == [e] && [e][1..] == [];
    var c := CopyFile(cleared, dir + e.rel, dst, true, Fine);
    assert dst[0] == "etc" && dst !in cleared;
    assert c == Copied(cleared[dst := "long config"], true);
    assert CopyTree(c.files, [dst], dir, SECRETS_DIR, true, []) == Tree(c.files, [dst], true);
    assert [] + [dst] == [dst];
    assert CopyTree(cleared, [], dir, SECRETS_DIR, true, [e]) == Tree(c.files, [dst], true);
    assert AfterSecrets(LONGER, ["assets"], LONGER_PLAN) == Tree(c.files, [dst], true);
    assert Overlay("long config", "new") == "newg config";
  }
}
