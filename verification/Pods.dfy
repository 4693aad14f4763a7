/** Pods, their checkpoints and the places of both on disk
    (pkg/checkpoint/pod.go, pkg/checkpoint/secret.go, pkg/checkpoint/config_map.go). */
module Pods {
  import opened Wrappers
  import opened Strings
  import opened Kubernetes

  const SHOULD_CHECKPOINT_ANNOTATION := "checkpointer.alpha.coreos.com/checkpoint"
  const CHECKPOINT_PARENT_ANNOTATION := "checkpointer.alpha.coreos.com/checkpoint-of"
  const POD_SOURCE_ANNOTATION := "kubernetes.io/config.source"
  const SHOULD_CHECKPOINT := "true"
  const POD_SOURCE_FILE := "file"

  const CHECKPOINT_SECRET_PATH: Path := ["etc", "kubernetes", "checkpoint-secrets"]
  const CHECKPOINT_CONFIG_MAP_PATH: Path := ["etc", "kubernetes", "checkpoint-configmaps"]

  const ROOT_UID := 0
  const ROOT_GID := 0

  // ---------------------------------------------------------------------------------------------
  // Names.

  /** Identity of the running checkpointer (pkg/checkpoint/checkpoint.go). */
  datatype CheckpointerPod = CheckpointerPod(nodeName: string, podName: string, podNamespace: string)

  function FullName(pod: Pod): string {
    pod.meta.namespace + "/" + pod.meta.name
  }

  /** What the API server guarantees of every pod's name and namespace, restricted to what matters
      for file names: also that a manifest file is never taken for a leftover temporary file. */
  predicate ValidPod(pod: Pod) {
    ValidName(pod.meta.namespace) && ValidName(pod.meta.name) && pod.meta.namespace[0] != '.'
  }

  predicate IsPodCheckpointer(pod: Pod, cp: CheckpointerPod) {
    if pod.meta.namespace != cp.podNamespace then false
    else pod.meta.name == TrimSuffix(cp.podName, "-" + cp.nodeName)
  }

  function SelfName(cp: CheckpointerPod): string {
    cp.podNamespace + "/" + TrimSuffix(cp.podName, "-" + cp.nodeName)
  }

  /** Among valid pods, being the checkpointer is a matter of the full name alone. */
  lemma CheckpointerByName(pod: Pod, cp: CheckpointerPod)
    requires ValidPod(pod) && SlashFree(cp.podNamespace)
    ensures IsPodCheckpointer(pod, cp) <==> FullName(pod) == SelfName(cp)
  {
    if FullName(pod) == SelfName(cp) {
      FullNameInjective(pod.meta.namespace, pod.meta.name, cp.podNamespace, TrimSuffix(cp.podName, "-" + cp.nodeName));
    }
  }

  function ManifestFile(id: string): string {
    ReplaceSlash(id) + ".json"
  }

  predicate IsTemporary(file: string) {
    HasPrefix(file, ".")
  }

  /** The two ways the source spells the file name of a pod agree (pkg/checkpoint/manifest.go:65). */
  lemma ManifestFileOfPod(pod: Pod)
    requires ValidPod(pod)
    ensures ManifestFile(FullName(pod)) == pod.meta.namespace + "-" + pod.meta.name + ".json"
    ensures !IsTemporary(ManifestFile(FullName(pod)))
  {
    var ns, name := pod.meta.namespace, pod.meta.name;
    var id, r := FullName(pod), ReplaceSlash(FullName(pod));
    forall i | 0 <= i < |id| ensures r[i] == (ns + "-" + name)[i] {
      if i < |ns| {
        assert id[i] == ns[i] && ns[i] in ns;
      } else if i > |ns| {
        assert id[i] == name[i - |ns| - 1] && name[i - |ns| - 1] in name;
      }
    }
    assert r == ns + "-" + name;
    assert ManifestFile(id)[0] == ns[0];
  }

  /** Two pods share a manifest file exactly when their dashed names coincide, so the files of one
      namespace never collide, and neither do those of namespaces without a dash. */
  lemma ManifestFileCollision(p: Pod, q: Pod)
    requires ValidPod(p) && ValidPod(q)
    ensures ManifestFile(FullName(p)) == ManifestFile(FullName(q)) <==>
            p.meta.namespace + "-" + p.meta.name == q.meta.namespace + "-" + q.meta.name
    ensures p.meta.namespace == q.meta.namespace && ManifestFile(FullName(p)) == ManifestFile(FullName(q)) ==>
              FullName(p) == FullName(q)
    ensures '-' !in p.meta.namespace && '-' !in q.meta.namespace && ManifestFile(FullName(p)) == ManifestFile(FullName(q)) ==>
              FullName(p) == FullName(q)
  {
    ManifestFileOfPod(p);
    ManifestFileOfPod(q);
    var s, t := p.meta.namespace + "-" + p.meta.name, q.meta.namespace + "-" + q.meta.name;
    assert (s + ".json")[..|s|] == s && (t + ".json")[..|t|] == t;
    if s == t {
      var m, n := |p.meta.namespace|, |q.meta.namespace|;
      assert p.meta.namespace == s[..m] && p.meta.name == s[m + 1..];
      assert q.meta.namespace == t[..n] && q.meta.name == t[n + 1..];
      assert s[m] == '-' && t[n] == '-';
      if n < m {
        assert p.meta.namespace[n] == s[n];
      } else if m < n {
        assert q.meta.namespace[m] == t[m];
      }
    }
  }

  /** Two different pods with one manifest file. */
  lemma CollidingNames()
    ensures "a-b/c" != "a/b-c" && ManifestFile("a-b/c") == ManifestFile("a/b-c")
  {
    assert "a-b/c"[1] == '-' && "a/b-c"[1] == '/';
    assert ReplaceSlash("a-b/c") == "a-b-c" == ReplaceSlash("a/b-c");
  }

  // ---------------------------------------------------------------------------------------------
  // Parents and checkpoints.

  function Annotation(pod: Pod, key: string): string {
    if pod.meta.annotations.Some? && key in pod.meta.annotations.value then pod.meta.annotations.value[key] else ""
  }

  predicate IsCheckpoint(pod: Pod) {
    pod.meta.annotations.Some? && CHECKPOINT_PARENT_ANNOTATION in pod.meta.annotations.value
  }

  predicate IsValidParent(pod: Pod) {
    && pod.meta.annotations.Some?
    && Annotation(pod, SHOULD_CHECKPOINT_ANNOTATION) == SHOULD_CHECKPOINT
    && Annotation(pod, POD_SOURCE_ANNOTATION) != POD_SOURCE_FILE
    && !IsCheckpoint(pod)
  }

  /** Parents ask to be checkpointed, are not from a file, and are not checkpoints, which name their
      parent. */
  lemma ParentMeaning(pod: Pod)
    ensures IsCheckpoint(pod) <==> pod.meta.annotations.Some? && "checkpointer.alpha.coreos.com/checkpoint-of" in pod.meta.annotations.value
    ensures IsValidParent(pod) <==>
              && pod.meta.annotations.Some?
              && var a := pod.meta.annotations.value;
              && "checkpointer.alpha.coreos.com/checkpoint" in a && a["checkpointer.alpha.coreos.com/checkpoint"] == "true"
              && ("kubernetes.io/config.source" in a ==> a["kubernetes.io/config.source"] != "file")
              && "checkpointer.alpha.coreos.com/checkpoint-of" !in a
  {
  }

  /** A checkpointer's own name is its pod's name without the node's at the end, if it is there. */
  lemma CheckpointerName(name: string, node: string, namespace: string)
    ensures SelfName(CheckpointerPod(node, name + "-" + node, namespace)) == namespace + "/" + name
    ensures (forall n: string :: name != n + "-" + node) ==> SelfName(CheckpointerPod(node, name, namespace)) == namespace + "/" + name
  {
    var suffix := "-" + node;
    assert name + "-" + node == name + suffix;
    assert (name + suffix)[|name|..] == suffix && (name + suffix)[..|name|] == name;
    if |suffix| <= |name| && name[|name| - |suffix|..] == suffix {
      var n := name[..|name| - |suffix|];
      assert name == n + suffix == n + "-" + node;
    }
  }

  /** The pods passing the filter, by full name; a later pod of the same name wins. */
  function PodMap(pods: seq<Pod>, filter: Pod -> bool): map<string, Pod> {
    if pods == [] then map[]
    else
      var before, pod := PodMap(pods[..|pods| - 1], filter), pods[|pods| - 1];
      if filter(pod) then before[FullName(pod) := pod.(apiVersion := "v1", kind := "Pod")] else before
  }

  method PodListToMap(items: seq<Pod>, filter: Pod -> bool) returns (pods: map<string, Pod>)
    ensures pods == PodMap(items, filter)
  {
    pods := map[];
    for i := 0 to |items|
      invariant pods == PodMap(items[..i], filter)
    {
      assert items[..i + 1][..i] == items[..i];
      if !filter(items[i]) { continue; }
      pods := pods[FullName(items[i]) := items[i].(apiVersion := "v1", kind := "Pod")];
    }
    assert items[..|items|] == items;
  }

  ghost predicate Listed(items: seq<Pod>, filter: Pod -> bool, x: string) {
    exists i :: 0 <= i < |items| && filter(items[i]) && FullName(items[i]) == x
  }

  lemma ListedSplit(items: seq<Pod>, filter: Pod -> bool, x: string)
    requires items != []
    ensures var n := |items| - 1;
            Listed(items, filter, x) <==> Listed(items[..n], filter, x) || (filter(items[n]) && FullName(items[n]) == x)
  {
    var n := |items| - 1;
    if Listed(items[..n], filter, x) {
      var i :| 0 <= i < n && filter(items[..n][i]) && FullName(items[..n][i]) == x;
      assert filter(items[i]) && FullName(items[i]) == x;
    }
    if Listed(items, filter, x) {
      var i :| 0 <= i < |items| && filter(items[i]) && FullName(items[i]) == x;
      if i < n { assert items[..n][i] == items[i]; }
    }
  }

  /** Of several pods of one name the last that passes the filter is kept, as it is but for its type. */
  lemma {:induction false} LastListedWins(items: seq<Pod>, filter: Pod -> bool, k: nat)
    requires k < |items| && filter(items[k])
    requires forall j :: k < j < |items| && filter(items[j]) ==> FullName(items[j]) != FullName(items[k])
    ensures var x := FullName(items[k]);
            x in PodMap(items, filter) && PodMap(items, filter)[x] == items[k].(apiVersion := "v1", kind := "Pod")
  {
    var n := |items| - 1;
    if k < n {
      assert items[..n][k] == items[k];
      LastListedWins(items[..n], filter, k);
    }
  }

  /** The result is keyed by full name, and holds exactly the names that pass the filter. */
  lemma {:induction false} PodMapKeyed(items: seq<Pod>, filter: Pod -> bool, x: string)
    ensures x in PodMap(items, filter) <==> Listed(items, filter, x)
    ensures x in PodMap(items, filter) ==> FullName(PodMap(items, filter)[x]) == x
  {
    if items != [] {
      PodMapKeyed(items[..|items| - 1], filter, x);
      ListedSplit(items, filter, x);
    }
  }

  // ---------------------------------------------------------------------------------------------
  // Directories of checkpointed secrets and config maps.

  function SecretPath(namespace: string, podName: string, secretName: string): Path {
    Join(CHECKPOINT_SECRET_PATH, [namespace, podName, secretName])
  }

  function ConfigMapPath(namespace: string, podName: string, configMapName: string): Path {
    Join(CHECKPOINT_CONFIG_MAP_PATH, [namespace, podName, configMapName])
  }

  function FullNameToSecretPath(id: string): Path {
    var (namespace, podName) := SplitPath(id);
    Join(CHECKPOINT_SECRET_PATH, [namespace, podName])
  }

  function FullNameToConfigMapPath(id: string): Path {
    var (namespace, podName) := SplitPath(id);
    Join(CHECKPOINT_CONFIG_MAP_PATH, [namespace, podName])
  }

  lemma JoinTwo(root: Path, a: string, b: string)
    ensures Join(root, [a, b]) == root + Components(a) + Components(b)
  {
    assert Join(root, [a, b]) == Join(root + Components(a), [b]) by { assert [a, b][1..] == [b]; }
    assert Join(root + Components(a), [b]) == Join(root + Components(a) + Components(b), []) by { assert [b][1..] == []; }
  }

  lemma JoinThree(root: Path, a: string, b: string, c: string)
    ensures Join(root, [a, b, c]) == root + Components(a) + Components(b) + Components(c)
  {
    assert [a, b, c][1..] == [b, c];
    JoinTwo(root + Components(a), b, c);
  }

  lemma JoinPod(root: Path, ns: string, name: string, obj: string)
    requires ValidName(ns) && ValidName(name)
    ensures Join(root, [ns + "/", name]) == root + [ns, name]
    ensures Join(root, [ns, name, obj]) == root + [ns, name] + Components(obj)
  {
    ComponentsOfName(ns);
    ComponentsOfName(name);
    JoinTwo(root, ns + "/", name);
    JoinThree(root, ns, name, obj);
    assert root + [ns] + [name] == root + [ns, name];
  }

  /** The directory that removal deletes, and the directory an object's files go to. */
  lemma DataPaths(pod: Pod, obj: string)
    requires ValidPod(pod)
    ensures var ns, name := pod.meta.namespace, pod.meta.name;
            var secrets, configMaps := ["etc", "kubernetes", "checkpoint-secrets"], ["etc", "kubernetes", "checkpoint-configmaps"];
            && FullNameToSecretPath(FullName(pod)) == secrets + [ns, name]
            && FullNameToConfigMapPath(FullName(pod)) == configMaps + [ns, name]
            && SecretPath(ns, name, obj) == secrets + [ns, name] + Components(obj)
            && ConfigMapPath(ns, name, obj) == configMaps + [ns, name] + Components(obj)
  {
    var ns, name := pod.meta.namespace, pod.meta.name;
    SplitFullName(ns, name);
    JoinPod(CHECKPOINT_SECRET_PATH, ns, name, obj);
    JoinPod(CHECKPOINT_CONFIG_MAP_PATH, ns, name, obj);
  }

  // ---------------------------------------------------------------------------------------------
  // Sanitizing.

  function SanitizedVolume(v: Volume, namespace: string, name: string): Volume {
    if v.secret.Some? then
      v.(hostPath := Some(SecretPath(namespace, name, v.secret.value)), secret := None)
    else if v.configMap.Some? then
      v.(hostPath := Some(ConfigMapPath(namespace, name, v.configMap.value)), configMap := None)
    else v
  }

  function SanitizedVolumes(vs: seq<Volume>, namespace: string, name: string): seq<Volume> {
    seq(|vs|, i requires 0 <= i < |vs| => SanitizedVolume(vs[i], namespace, name))
  }

  /** The manifest that is stored for a pod. */
  function Sanitized(pod: Pod): Pod {
    if IsCheckpoint(pod) then pod
    else
      var m := pod.meta;
      pod.(
        meta := ObjectMeta(m.name, m.namespace, "", Some(map[CHECKPOINT_PARENT_ANNOTATION := m.name]), m.labels,
                           [OwnerReference(pod.apiVersion, pod.kind, m.name, m.uid)], ""),
        spec := pod.spec.(
          serviceAccountName := "", deprecatedServiceAccount := "", affinity := None, nodeSelector := map[],
          volumes := SanitizedVolumes(pod.spec.volumes, m.namespace, m.name)),
        status := "")
  }

  method SanitizeCheckpointPod(pod: Pod) returns (cp: Pod)
    ensures cp == Sanitized(pod)
  {
    cp := pod;
    if cp.meta.annotations.Some? && CHECKPOINT_PARENT_ANNOTATION in cp.meta.annotations.value {
      return;
    }
    cp := cp.(meta := ObjectMeta(cp.meta.name, cp.meta.namespace, "", Some(map[]), cp.meta.labels,
                                 [OwnerReference(cp.apiVersion, cp.kind, cp.meta.name, cp.meta.uid)], ""));
    cp := cp.(meta := cp.meta.(annotations := Some(map[CHECKPOINT_PARENT_ANNOTATION := cp.meta.name])));
    cp := cp.(spec := cp.spec.(serviceAccountName := "", deprecatedServiceAccount := ""));
    cp := cp.(spec := cp.spec.(affinity := None));
    cp := cp.(spec := cp.spec.(nodeSelector := map[]));
    var volumes := cp.spec.volumes;
    var i := 0;
    while i < |volumes|
      invariant 0 <= i <= |volumes| == |pod.spec.volumes|
      invariant forall j :: 0 <= j < i ==> volumes[j] == SanitizedVolume(pod.spec.volumes[j], cp.meta.namespace, cp.meta.name)
      invariant forall j :: i <= j < |volumes| ==> volumes[j] == pod.spec.volumes[j]
    {
      var v := volumes[i];
      if v.secret.Some? {
        v := v.(hostPath := Some(SecretPath(cp.meta.namespace, cp.meta.name, v.secret.value)));
        v := v.(secret := None);
      } else if v.configMap.Some? {
        v := v.(hostPath := Some(ConfigMapPath(cp.meta.namespace, cp.meta.name, v.configMap.value)));
        v := v.(configMap := None);
      }
      volumes := volumes[i := v];
      i := i + 1;
    }
    assert volumes == SanitizedVolumes(pod.spec.volumes, cp.meta.namespace, cp.meta.name);
    cp := cp.(spec := cp.spec.(volumes := volumes));
    cp := cp.(status := "");
  }

  predicate RemoteVolume(v: Volume) {
    v.secret.Some? || v.configMap.Some?
  }

  /** Sanitizing keeps the identity, makes a checkpoint that is never again a parent, is idempotent,
      and leaves no remote volume exactly when no volume had two remote sources. */
  lemma SanitizingRoundTrip(parent: Pod)
    requires IsValidParent(parent)
    ensures var cp := Sanitized(parent);
            && FullName(cp) == FullName(parent) && cp.meta.labels == parent.meta.labels
            && IsCheckpoint(cp) && !IsValidParent(cp)
            && Sanitized(cp) == cp
            && |cp.spec.volumes| == |parent.spec.volumes|
            && ((forall v :: v in cp.spec.volumes ==> !RemoteVolume(v)) <==>
                (forall v :: v in parent.spec.volumes ==> v.secret.None? || v.configMap.None?))
  {
    var vs, ws := parent.spec.volumes, Sanitized(parent).spec.volumes;
    var ns, name := parent.meta.namespace, parent.meta.name;
    if forall v :: v in vs ==> v.secret.None? || v.configMap.None? {
      forall w | w in ws ensures !RemoteVolume(w) {
        var i :| 0 <= i < |ws| && ws[i] == w;
        assert vs[i] in vs && w == SanitizedVolume(vs[i], ns, name);
      }
    } else {
      var v :| v in vs && v.secret.Some? && v.configMap.Some?;
      var i :| 0 <= i < |vs| && vs[i] == v;
      assert ws[i] in ws && ws[i] == SanitizedVolume(v, ns, name);
    }
  }

  /** What a sanitized parent keeps and what it loses, field by field. */
  lemma SanitizedFields(parent: Pod)
    requires !IsCheckpoint(parent)
    ensures var cp := Sanitized(parent);
            && cp.apiVersion == parent.apiVersion && cp.kind == parent.kind && cp.status == ""
            && cp.meta.name == parent.meta.name && cp.meta.namespace == parent.meta.namespace && cp.meta.labels == parent.meta.labels
            && cp.meta.uid == "" && cp.meta.other == ""
            && cp.meta.annotations == Some(map["checkpointer.alpha.coreos.com/checkpoint-of" := parent.meta.name])
            && cp.meta.ownerReferences == [OwnerReference(parent.apiVersion, parent.kind, parent.meta.name, parent.meta.uid)]
    ensures var spec := Sanitized(parent).spec;
            && spec.serviceAccountName == "" && spec.deprecatedServiceAccount == "" && spec.affinity == None && spec.nodeSelector == map[]
            && spec.containers == parent.spec.containers
            && spec.hostNetwork == parent.spec.hostNetwork
            && spec.securityContext == parent.spec.securityContext
  {
  }

  /** What becomes of each volume. */
  lemma SanitizedVolumeFields(parent: Pod, i: nat)
    requires !IsCheckpoint(parent) && i < |parent.spec.volumes|
    ensures var vs := Sanitized(parent).spec.volumes;
            && |vs| == |parent.spec.volumes|
            && var v, w := parent.spec.volumes[i], vs[i];
            && w.name == v.name && w.other == v.other
            && (v.secret.None? && v.configMap.None? ==> w == v)
            && (v.secret.Some? ==> w.secret == None && w.configMap == v.configMap)
            && (v.secret.None? ==> w.configMap == None)
  {
  }

  /** A checkpoint that was read back is stored as it is. */
  lemma CheckpointUnchanged(cp: Pod)
    requires IsCheckpoint(cp)
    ensures Sanitized(cp) == cp
  {
  }

  /** Each rewritten volume points into the directory that removing the pod deletes, and into the
      directory of no other pod. */
  lemma SanitizedHostPaths(parent: Pod, i: nat, other: Pod)
    requires IsValidParent(parent) && ValidPod(parent) && ValidPod(other)
    requires i < |parent.spec.volumes| && RemoteVolume(parent.spec.volumes[i])
    ensures var v := Sanitized(parent).spec.volumes[i];
            && v.hostPath.Some?
            && (FullNameToSecretPath(FullName(other)) <= v.hostPath.value
                || FullNameToConfigMapPath(FullName(other)) <= v.hostPath.value
                <==> FullName(other) == FullName(parent))
  {
    var v := parent.spec.volumes[i];
    var obj := if v.secret.Some? then v.secret.value else v.configMap.value;
    DataPaths(parent, obj);
    DataPaths(other, obj);
    var path := Sanitized(parent).spec.volumes[i].hostPath.value;
    assert path[3] == parent.meta.namespace && path[4] == parent.meta.name;
    if FullName(other) == FullName(parent) {
      FullNameInjective(other.meta.namespace, other.meta.name, parent.meta.namespace, parent.meta.name);
    }
    var secrets, maps := FullNameToSecretPath(FullName(other)), FullNameToConfigMapPath(FullName(other));
    assert secrets[3] == maps[3] == other.meta.namespace && secrets[4] == maps[4] == other.meta.name;
  }

  // ---------------------------------------------------------------------------------------------
  // File ownership of a pod's data.

  datatype ConflictingSecurityContexts = ConflictingSecurityContexts

  function ContainerUsers(cs: seq<Container>): seq<int> {
    if cs == [] then []
    else ContainerUsers(cs[..|cs| - 1]) +
         var sc := cs[|cs| - 1].securityContext;
         if sc.Some? && sc.value.runAsUser.Some? then [sc.value.runAsUser.value] else []
  }

  /** All user ids a pod names, its own first. */
  function Users(pod: Pod): seq<int> {
    OwnUser(pod) + ContainerUsers(pod.spec.containers)
  }

  function OwnUser(pod: Pod): seq<int> {
    var psc := pod.spec.securityContext;
    if psc.Some? && psc.value.runAsUser.Some? then [psc.value.runAsUser.value] else []
  }

  /** The users are the pod's own and those of its containers. */
  lemma UsersMeaning(pod: Pod, u: int)
    ensures u in Users(pod) <==>
              || (pod.spec.securityContext.Some? && pod.spec.securityContext.value.runAsUser == Some(u))
              || exists c :: c in pod.spec.containers && c.securityContext.Some? && c.securityContext.value.runAsUser == Some(u)
  {
    ContainerUsersMeaning(pod.spec.containers, u);
  }

  lemma {:induction false} ContainerUsersMeaning(cs: seq<Container>, u: int)
    ensures u in ContainerUsers(cs) <==> exists c :: c in cs && c.securityContext.Some? && c.securityContext.value.runAsUser == Some(u)
  {
    if cs != [] {
      var n := |cs| - 1;
      ContainerUsersMeaning(cs[..n], u);
      assert cs == cs[..n] + [cs[n]];
    }
  }

  ghost predicate Agreeing(users: seq<int>) {
    forall i, j :: 0 <= i < j < |users| ==> users[i] == users[j]
  }

  /** The loop over the containers, given the pod's own user. */
  method CommonUser(pod: Pod, own: Option<int>) returns (conflict: bool, uid: Option<int>)
    requires OwnUser(pod) == if own.Some? then [own.value] else []
    ensures conflict <==> !Agreeing(Users(pod))
    ensures !conflict ==> (uid.None? <==> Users(pod) == []) && forall u :: u in Users(pod) ==> uid == Some(u)
  {
    uid := own;
    var cs := pod.spec.containers;
    ghost var seen := OwnUser(pod);
    for i := 0 to |cs|
      invariant seen == OwnUser(pod) + ContainerUsers(cs[..i])
      invariant uid.None? <==> seen == []
      invariant forall u :: u in seen ==> uid == Some(u)
    {
      ContainerUsersNext(OwnUser(pod), cs, i);
      var sc := cs[i].securityContext;
      if sc.Some? && sc.value.runAsUser.Some? {
        if uid.Some? && uid.value != sc.value.runAsUser.value {
          NewUserConflicts(OwnUser(pod), cs, i, seen, sc.value.runAsUser.value);
          return true, uid;
        }
        uid := sc.value.runAsUser;
        seen := seen + [uid.value];
      }
    }
    assert cs[..|cs|] == cs;
    AllSame(seen, uid);
    conflict := false;
  }

  method PodUserAndGroup(pod: Pod) returns (r: Result<(int, int), ConflictingSecurityContexts>)
    ensures r.Ok? <==> Agreeing(Users(pod))
    ensures r.Ok? ==> forall u :: u in Users(pod) ==> r.value.0 == u
    ensures r.Ok? && Users(pod) == [] ==> r.value.0 == 0
    ensures r.Ok? ==> r.value.1 == var psc := pod.spec.securityContext;
                                   if psc.Some? && psc.value.fsGroup.Some? then psc.value.fsGroup.value else 0
  {
    var own: Option<int>, gid: Option<int> := None, None;
    if pod.spec.securityContext.Some? {
      own := pod.spec.securityContext.value.runAsUser;
      gid := pod.spec.securityContext.value.fsGroup;
    }
    var conflict, uid := CommonUser(pod, own);
    if conflict {
      return Err(ConflictingSecurityContexts);
    }
    r := Ok((if uid.Some? then uid.value else ROOT_UID, if gid.Some? then gid.value else ROOT_GID));
  }

  lemma NewUserConflicts(own: seq<int>, cs: seq<Container>, i: nat, seen: seq<int>, user: int)
    requires i < |cs| && seen != [] && user !in seen
    requires own + ContainerUsers(cs[..i + 1]) == seen + [user]
    ensures !Agreeing(own + ContainerUsers(cs))
  {
    var few := seen + [user];
    assert few[|seen| - 1] in seen && few[|seen|] == user;
    ConflictPersists(own, cs, i + 1, few, |seen| - 1, |seen|);
  }

  lemma AllSame(users: seq<int>, uid: Option<int>)
    requires forall u :: u in users ==> uid == Some(u)
    ensures Agreeing(users)
  {
    assert forall i :: 0 <= i < |users| ==> users[i] in users;
  }

  lemma ContainerUsersNext(own: seq<int>, cs: seq<Container>, i: nat)
    requires i < |cs|
    ensures var sc := cs[i].securityContext;
            own + ContainerUsers(cs[..i + 1]) == own + ContainerUsers(cs[..i]) +
              if sc.Some? && sc.value.runAsUser.Some? then [sc.value.runAsUser.value] else []
  {
    assert cs[..i + 1][..i] == cs[..i];
  }

  lemma {:induction false} UsersGrow(cs: seq<Container>, n: nat)
    requires n <= |cs|
    ensures ContainerUsers(cs[..n]) <= ContainerUsers(cs)
    decreases |cs|
  {
    if n < |cs| {
      UsersGrow(cs[..|cs| - 1], n);
      assert cs[..|cs| - 1][..n] == cs[..n];
    } else {
      assert cs[..n] == cs;
    }
  }

  lemma ConflictPersists(own: seq<int>, cs: seq<Container>, n: nat, few: seq<int>, i: nat, j: nat)
    requires n <= |cs| && few == own + ContainerUsers(cs[..n]) && i < j < |few| && few[i] != few[j]
    ensures !Agreeing(own + ContainerUsers(cs))
  {
    UsersGrow(cs, n);
    var all := own + ContainerUsers(cs);
    assert few <= all;
    assert all[i] == few[i] && all[j] == few[j];
  }
}
