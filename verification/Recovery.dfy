/** Recovering a control plane (pkg/recovery/recover.go), writing it as assets
    (cmd/render/plugin/default/asset/asset.go) and starting it (pkg/bootkube/bootstrap.go).

    What the backend read is given. The YAML encoding of a pod is a parameter.
 */
module Recovery {
  import opened Wrappers
  import opened Strings
  import opened Kubernetes
  import opened Bootstrap

  /** A daemon set or a deployment. */
  datatype App = App(meta: ObjectMeta, spec: PodSpec)

  /** A secret or a config map. */
  datatype KeyValueObject = KeyValueObject(name: string, data: map<string, string>)

  datatype Recovered = Recovered(
    configMaps: seq<KeyValueObject>,
    daemonSets: seq<App>,
    deployments: seq<App>,
    secrets: seq<KeyValueObject>)

  datatype Asset = Asset(name: Path, data: string)

  // ---------------------------------------------------------------------------------------------
  // Extracting the pods.

  function Label(labels: map<string, string>, key: string): string {
    if key in labels then labels[key] else ""
  }

  predicate IsBootstrapApp(labels: map<string, string>) {
    var app := Label(labels, "k8s-app");
    var component := if app == "" then Label(labels, "component") else app;
    component in {"kube-apiserver", "kube-controller-manager", "kube-scheduler"}
  }

  function BootstrapPod(app: App): Pod {
    Pod("v1", "Pod",
        ObjectMeta("bootstrap-" + app.meta.name, app.meta.namespace, "", app.meta.annotations, map[], [], ""),
        app.spec, "")
  }

  function BootstrapPods(apps: seq<App>): seq<Pod> {
    if apps == [] then []
    else
      var app := apps[|apps| - 1];
      BootstrapPods(apps[..|apps| - 1]) + if IsBootstrapApp(app.meta.labels) then [BootstrapPod(app)] else []
  }

  /** extractBootstrapPods */
  method ExtractBootstrapPods(daemonSets: seq<App>, deployments: seq<App>) returns (pods: seq<Pod>)
    ensures pods == BootstrapPods(daemonSets + deployments)
  {
    pods := [];
    ghost var apps := daemonSets + deployments;
    for i := 0 to |daemonSets|
      invariant pods == BootstrapPods(apps[..i])
    {
      BootstrapPodsNext(apps, i);
      if IsBootstrapApp(daemonSets[i].meta.labels) {
        pods := pods + [BootstrapPod(daemonSets[i])];
      }
    }
    for i := 0 to |deployments|
      invariant pods == BootstrapPods(apps[..|daemonSets| + i])
    {
      BootstrapPodsNext(apps, |daemonSets| + i);
      if IsBootstrapApp(deployments[i].meta.labels) {
        pods := pods + [BootstrapPod(deployments[i])];
      }
    }
    assert apps[..|apps|] == apps;
  }

  lemma BootstrapPodsNext(apps: seq<App>, i: nat)
    requires i < |apps|
    ensures BootstrapPods(apps[..i + 1]) == BootstrapPods(apps[..i]) + if IsBootstrapApp(apps[i].meta.labels) then [BootstrapPod(apps[i])] else []
  {
    assert apps[..i + 1][..i] == apps[..i];
  }

  /** Exactly the apps of the control plane become pods. */
  lemma {:induction false} ExtractedPod(apps: seq<App>, pod: Pod)
    ensures pod in BootstrapPods(apps) <==>
            exists app :: app in apps && IsBootstrapApp(app.meta.labels) && pod == BootstrapPod(app)
  {
    if apps != [] {
      var n := |apps| - 1;
      ExtractedPod(apps[..n], pod);
      assert apps == apps[..n] + [apps[n]];
    }
  }

  /** The pods come in the order of their apps, each app giving at most its own. */
  lemma {:induction false} ExtractedInOrder(a: seq<App>, b: seq<App>)
    ensures BootstrapPods(a + b) == BootstrapPods(a) + BootstrapPods(b)
    decreases |b|
  {
    if b == [] {
      assert a + b == a;
    } else {
      var n := |b| - 1;
      ExtractedInOrder(a, b[..n]);
      OneMoreApp(a + b[..n], b[n]);
      OneMoreApp(b[..n], b[n]);
      SplitLast(b);
      Associate(a, b[..n], [b[n]]);
      Associate(BootstrapPods(a), BootstrapPods(b[..n]), FromApp(b[n]));
    }
  }

  lemma SplitLast<T>(s: seq<T>)
    requires s != []
    ensures s == s[..|s| - 1] + [s[|s| - 1]]
  {
  }

  function FromApp(app: App): seq<Pod> {
    if IsBootstrapApp(app.meta.labels) then [BootstrapPod(app)] else []
  }

  lemma OneMoreApp(apps: seq<App>, app: App)
    ensures BootstrapPods(apps + [app]) == BootstrapPods(apps) + FromApp(app)
  {
    assert (apps + [app])[..|apps|] == apps;
  }

  lemma Associate<T>(a: seq<T>, b: seq<T>, c: seq<T>)
    ensures a + b + c == a + (b + c)
  {
  }

  /** What is recovered, from the labels: the app label counts, and the component label where there is none. */
  lemma RecoveredLabels(labels: map<string, string>)
    ensures IsBootstrapApp(labels) <==>
              || ("k8s-app" in labels && labels["k8s-app"] in {"kube-apiserver", "kube-controller-manager", "kube-scheduler"})
              || (("k8s-app" !in labels || labels["k8s-app"] == "") && "component" in labels
                  && labels["component"] in {"kube-apiserver", "kube-controller-manager", "kube-scheduler"})
  {
  }

  /** What becomes of an app: a pod of its spec under a name of its own, without labels, owners or status. */
  lemma RecoveredFields(app: App)
    ensures var pod := BootstrapPod(app);
            && pod.spec == app.spec && pod.apiVersion == "v1" && pod.kind == "Pod" && pod.status == ""
            && pod.meta.name == "bootstrap-" + app.meta.name && pod.meta.namespace == app.meta.namespace
            && pod.meta.annotations == app.meta.annotations
            && pod.meta.labels == map[] && pod.meta.ownerReferences == [] && pod.meta.uid == "" && pod.meta.other == ""
  {
  }

  // ---------------------------------------------------------------------------------------------
  // Fixing up the pods.

  const SECRETS := "secrets"
  const CONFIG_MAPS := "config-maps"

  /** Where an object's data goes below the assets' secrets and below the secrets directory. */
  function Suffix(kind: string, name: string): Path {
    [kind] + Components(name)
  }

  function FixedVolume(v: Volume): Volume {
    if v.secret.Some? then v.(hostPath := Some(SECRETS_DIR + Suffix(SECRETS, v.secret.value)), secret := None)
    else if v.configMap.Some? then v.(hostPath := Some(SECRETS_DIR + Suffix(CONFIG_MAPS, v.configMap.value)), configMap := None)
    else v
  }

  function FixedVolumes(vs: seq<Volume>): (r: seq<Volume>)
    ensures |r| == |vs|
  {
    seq(|vs|, i requires 0 <= i < |vs| => FixedVolume(vs[i]))
  }

  function FixedContainer(c: Container): Container {
    var root := match c.securityContext
      case Some(sc) => c.(securityContext := Some(sc.(runAsNonRoot := None, runAsUser := None)))
      case None => c;
    if c.name in {"kube-controller-manager", "kube-scheduler"} then
      root.(command := c.command + ["--kubeconfig=/kubeconfig/kubeconfig"],
            volumeMounts := c.volumeMounts + [VolumeMount("kubeconfig", ["kubeconfig"], true)])
    else root
  }

  function FixedContainers(cs: seq<Container>): (r: seq<Container>)
    ensures |r| == |cs|
  {
    seq(|cs|, i requires 0 <= i < |cs| => FixedContainer(cs[i]))
  }

  function FixedPod(pod: Pod): Pod {
    var sc := match pod.spec.securityContext
      case Some(c) => Some(c.(runAsNonRoot := None, runAsUser := None))
      case None => None;
    pod.(spec := pod.spec.(
      securityContext := sc,
      hostNetwork := true,
      volumes := FixedVolumes(pod.spec.volumes) + [Volume("kubeconfig", None, None, Some(["etc", "kubernetes"]), None)],
      containers := FixedContainers(pod.spec.containers)))
  }

  function FixedPods(pods: seq<Pod>): (r: seq<Pod>)
    ensures |r| == |pods|
  {
    seq(|pods|, i requires 0 <= i < |pods| => FixedPod(pods[i]))
  }

  function SecretNames(vs: seq<Volume>): set<string> {
    set v | v in vs && v.secret.Some? :: v.secret.value
  }

  function ConfigMapNames(vs: seq<Volume>): set<string> {
    set v | v in vs && v.secret.None? && v.configMap.Some? :: v.configMap.value
  }

  function Volumes(pods: seq<Pod>): seq<Volume> {
    if pods == [] then [] else Volumes(pods[..|pods| - 1]) + pods[|pods| - 1].spec.volumes
  }

  /** The objects that pods need, with the asset directory of each. */
  function Required(kind: string, names: set<string>): map<string, Path> {
    map n | n in names :: [ASSET_SECRETS] + Suffix(kind, n)
  }

  /** The loop over the volumes of one pod. */
  method FixVolumes(vs: seq<Volume>, configMaps: map<string, Path>, secrets: map<string, Path>, ghost before: seq<Volume>)
    returns (r: seq<Volume>, configMaps': map<string, Path>, secrets': map<string, Path>)
    requires configMaps == Required(CONFIG_MAPS, ConfigMapNames(before)) && secrets == Required(SECRETS, SecretNames(before))
    ensures r == FixedVolumes(vs)
    ensures configMaps' == Required(CONFIG_MAPS, ConfigMapNames(before + vs))
    ensures secrets' == Required(SECRETS, SecretNames(before + vs))
  {
    r, configMaps', secrets' := [], configMaps, secrets;
    ghost var seen := before;
    assert before + vs[..0] == before;
    for i := 0 to |vs|
      invariant r == FixedVolumes(vs[..i]) && seen == before + vs[..i]
      invariant configMaps' == Required(CONFIG_MAPS, ConfigMapNames(seen)) && secrets' == Required(SECRETS, SecretNames(seen))
    {
      var v := vs[i];
      RequiredNext(seen, v);
      if v.secret.Some? {
        secrets' := secrets'[v.secret.value := [ASSET_SECRETS] + Suffix(SECRETS, v.secret.value)];
      } else if v.configMap.Some? {
        configMaps' := configMaps'[v.configMap.value := [ASSET_SECRETS] + Suffix(CONFIG_MAPS, v.configMap.value)];
      }
      FixedVolumesNext(vs[..i], v);
      r := r + [FixedVolume(v)];
      seen := seen + [v];
      assert vs[..i + 1] == vs[..i] + [v];
    }
    assert vs[..|vs|] == vs;
  }

  lemma FixedVolumesNext(vs: seq<Volume>, v: Volume)
    ensures FixedVolumes(vs + [v]) == FixedVolumes(vs) + [FixedVolume(v)]
  {
  }

  lemma RequiredNext(vs: seq<Volume>, v: Volume)
    ensures Required(SECRETS, SecretNames(vs + [v])) ==
            if v.secret.Some? then Required(SECRETS, SecretNames(vs))[v.secret.value := [ASSET_SECRETS] + Suffix(SECRETS, v.secret.value)]
            else Required(SECRETS, SecretNames(vs))
    ensures Required(CONFIG_MAPS, ConfigMapNames(vs + [v])) ==
            if v.secret.None? && v.configMap.Some? then Required(CONFIG_MAPS, ConfigMapNames(vs))[v.configMap.value := [ASSET_SECRETS] + Suffix(CONFIG_MAPS, v.configMap.value)]
            else Required(CONFIG_MAPS, ConfigMapNames(vs))
  {
    NamesNext(vs, v);
    if v.secret.Some? {
      RequiredMore(SECRETS, SecretNames(vs), v.secret.value);
    } else if v.configMap.Some? {
      RequiredMore(CONFIG_MAPS, ConfigMapNames(vs), v.configMap.value);
    }
  }

  lemma NamesNext(vs: seq<Volume>, v: Volume)
    ensures SecretNames(vs + [v]) == if v.secret.Some? then SecretNames(vs) + {v.secret.value} else SecretNames(vs)
    ensures ConfigMapNames(vs + [v]) == if v.secret.None? && v.configMap.Some? then ConfigMapNames(vs) + {v.configMap.value} else ConfigMapNames(vs)
  {
    assert forall w :: w in vs + [v] <==> w in vs || w == v;
  }

  lemma RequiredMore(kind: string, names: set<string>, name: string)
    ensures Required(kind, names + {name}) == Required(kind, names)[name := [ASSET_SECRETS] + Suffix(kind, name)]
  {
  }

  /** The loop over the containers of one pod. */
  method FixContainers(cs: seq<Container>) returns (r: seq<Container>)
    ensures r == FixedContainers(cs)
  {
    r := [];
    for i := 0 to |cs|
      invariant r == FixedContainers(cs[..i])
    {
      var c := cs[i];
      if c.securityContext.Some? {
        c := c.(securityContext := Some(c.securityContext.value.(runAsNonRoot := None, runAsUser := None)));
      }
      if c.name == "kube-controller-manager" || c.name == "kube-scheduler" {
        c := c.(command := c.command + ["--kubeconfig=/kubeconfig/kubeconfig"]);
        c := c.(volumeMounts := c.volumeMounts + [VolumeMount("kubeconfig", ["kubeconfig"], true)]);
      }
      r := r + [c];
    }
    assert cs[..|cs|] == cs;
  }

  /** The changes to one pod. */
  method FixPod(pod: Pod, configMaps: map<string, Path>, secrets: map<string, Path>, ghost before: seq<Volume>)
    returns (r: Pod, configMaps': map<string, Path>, secrets': map<string, Path>)
    requires configMaps == Required(CONFIG_MAPS, ConfigMapNames(before)) && secrets == Required(SECRETS, SecretNames(before))
    ensures r == FixedPod(pod)
    ensures configMaps' == Required(CONFIG_MAPS, ConfigMapNames(before + pod.spec.volumes))
    ensures secrets' == Required(SECRETS, SecretNames(before + pod.spec.volumes))
  {
    var spec := pod.spec;
    if spec.securityContext.Some? {
      spec := spec.(securityContext := Some(spec.securityContext.value.(runAsNonRoot := None, runAsUser := None)));
    }
    spec := spec.(hostNetwork := true);
    var vs;
    vs, configMaps', secrets' := FixVolumes(spec.volumes, configMaps, secrets, before);
    var cs := FixContainers(spec.containers);
    vs := vs + [Volume("kubeconfig", None, None, Some(["etc", "kubernetes"]), None)];
    r := pod.(spec := spec.(volumes := vs, containers := cs));
  }

  lemma VolumesNext(pods: seq<Pod>, i: nat)
    requires i < |pods|
    ensures Volumes(pods[..i + 1]) == Volumes(pods[..i]) + pods[i].spec.volumes
  {
    assert pods[..i + 1][..i] == pods[..i];
  }

  /** fixUpBootstrapPods, in place. */
  method FixUpBootstrapPods(pods: array<Pod>) returns (configMaps: map<string, Path>, secrets: map<string, Path>)
    modifies pods
    ensures pods[..] == FixedPods(old(pods[..]))
    ensures configMaps == Required(CONFIG_MAPS, ConfigMapNames(Volumes(old(pods[..]))))
    ensures secrets == Required(SECRETS, SecretNames(Volumes(old(pods[..]))))
  {
    configMaps, secrets := map[], map[];
    ghost var before, seen := pods[..], [];
    for i := 0 to pods.Length
      invariant seen == Volumes(before[..i])
      invariant configMaps == Required(CONFIG_MAPS, ConfigMapNames(seen)) && secrets == Required(SECRETS, SecretNames(seen))
      invariant pods[..] == FixedPods(before[..i]) + before[i..]
    {
      VolumesNext(before, i);
      FixedPodsNext(before, i);
      assert pods[i] == pods[..][i] == before[i];
      var pod;
      pod, configMaps, secrets := FixPod(pods[i], configMaps, secrets, seen);
      seen := seen + before[i].spec.volumes;
      pods[i] := pod;
    }
    assert before[..pods.Length] == before;
  }

  lemma FixedPodsNext(pods: seq<Pod>, i: nat)
    requires i < |pods|
    ensures (FixedPods(pods[..i]) + pods[i..])[i := FixedPod(pods[i])] == FixedPods(pods[..i + 1]) + pods[i + 1..]
  {
  }

  /** What makes a fixed-up pod able to run before there is a cluster: it uses the host's network, nothing
      in it asks for another user than root, it keeps its containers and their names, and a component that
      needs the kubeconfig is told where it is and mounts a volume of the pod there. It has remote volumes
      exactly if some volume had two remote sources. */
  lemma FixedPodRuns(pod: Pod, i: nat)
    requires i < |pod.spec.containers|
    ensures var spec, c := FixedPod(pod).spec, FixedPod(pod).spec.containers[i];
      && spec.hostNetwork && |spec.containers| == |pod.spec.containers| && c.name == pod.spec.containers[i].name
      && (spec.securityContext.Some? ==> spec.securityContext.value.runAsUser.None? && spec.securityContext.value.runAsNonRoot.None?)
      && (c.securityContext.Some? ==> c.securityContext.value.runAsUser.None? && c.securityContext.value.runAsNonRoot.None?)
      && (c.name in {"kube-controller-manager", "kube-scheduler"} ==>
          && "--kubeconfig=/kubeconfig/kubeconfig" in c.command
          && exists m, v :: m in c.volumeMounts && v in spec.volumes && m.mountPath == ["kubeconfig"]
                         && m.name == v.name && v.hostPath == Some(["etc", "kubernetes"]))
      && ((exists v :: v in spec.volumes && (v.secret.Some? || v.configMap.Some?)) <==>
          exists v :: v in pod.spec.volumes && v.secret.Some? && v.configMap.Some?)
  {
    var spec, c := FixedPod(pod).spec, FixedPod(pod).spec.containers[i];
    assert c == FixedContainer(pod.spec.containers[i]);
    var n := |pod.spec.volumes|;
    var own := spec.volumes[n];
    assert own in spec.volumes && own.hostPath == Some(["etc", "kubernetes"]) && own.name == "kubeconfig";
    if c.name in {"kube-controller-manager", "kube-scheduler"} {
      var m := c.volumeMounts[|c.volumeMounts| - 1];
      assert m in c.volumeMounts && m.mountPath == ["kubeconfig"] && m.name == own.name;
      assert c.command[|c.command| - 1] == "--kubeconfig=/kubeconfig/kubeconfig";
    }
    RemoteVolumesLeft(pod);
  }

  /** What a fixed-up pod keeps, field by field. */
  lemma FixedPodFields(pod: Pod, i: nat)
    requires i < |pod.spec.containers|
    ensures var fixed := FixedPod(pod);
            && fixed.meta == pod.meta && fixed.apiVersion == pod.apiVersion && fixed.kind == pod.kind && fixed.status == pod.status
            && fixed.spec.serviceAccountName == pod.spec.serviceAccountName && fixed.spec.deprecatedServiceAccount == pod.spec.deprecatedServiceAccount
            && fixed.spec.affinity == pod.spec.affinity && fixed.spec.nodeSelector == pod.spec.nodeSelector
            && (fixed.spec.securityContext.Some? <==> pod.spec.securityContext.Some?)
            && (pod.spec.securityContext.Some? ==> fixed.spec.securityContext.value.fsGroup == pod.spec.securityContext.value.fsGroup)
    ensures var c, c' := pod.spec.containers[i], FixedPod(pod).spec.containers[i];
            var needs := c.name == "kube-controller-manager" || c.name == "kube-scheduler";
            && c'.command == (if needs then c.command + ["--kubeconfig=/kubeconfig/kubeconfig"] else c.command)
            && c'.volumeMounts == (if needs then c.volumeMounts + [VolumeMount("kubeconfig", ["kubeconfig"], true)] else c.volumeMounts)
            && (c'.securityContext.Some? <==> c.securityContext.Some?)
  {
    assert FixedPod(pod).spec.containers[i] == FixedContainer(pod.spec.containers[i]);
  }

  /** What becomes of the volumes: those of secrets and config maps are host paths, all others stay, and the
      kubeconfig's is added. */
  lemma FixedVolumeFields(pod: Pod, i: nat)
    requires i < |pod.spec.volumes|
    ensures var vs, n := FixedPod(pod).spec.volumes, |pod.spec.volumes|;
            && |vs| == n + 1 && vs[n] == Volume("kubeconfig", None, None, Some(["etc", "kubernetes"]), None)
            && var v, w := pod.spec.volumes[i], vs[i];
            && w.name == v.name && w.other == v.other
            && (v.secret.None? && v.configMap.None? ==> w == v)
            && (v.secret.Some? ==>
                 && w.secret == None && w.configMap == v.configMap
                 && w.hostPath == Some(["etc", "kubernetes", "bootstrap-secrets"] + (["secrets"] + Components(v.secret.value))))
            && (v.secret.None? && v.configMap.Some? ==>
                 && w.secret == None && w.configMap == None
                 && w.hostPath == Some(["etc", "kubernetes", "bootstrap-secrets"] + (["config-maps"] + Components(v.configMap.value))))
  {
    assert FixedPod(pod).spec.volumes[i] == FixedVolume(pod.spec.volumes[i]);
  }

  /** The objects required are those that some volume names, and no others. */
  lemma RequiredObjects(pods: seq<Pod>, name: string)
    ensures name in SecretNames(Volumes(pods)) <==> exists pod, v :: pod in pods && v in pod.spec.volumes && v.secret == Some(name)
    ensures name in ConfigMapNames(Volumes(pods)) <==>
              exists pod, v :: pod in pods && v in pod.spec.volumes && v.secret == None && v.configMap == Some(name)
    ensures name in SecretNames(Volumes(pods)) ==> Required(SECRETS, SecretNames(Volumes(pods)))[name] == ["tls"] + (["secrets"] + Components(name))
    ensures name in ConfigMapNames(Volumes(pods)) ==>
              Required(CONFIG_MAPS, ConfigMapNames(Volumes(pods)))[name] == ["tls"] + (["config-maps"] + Components(name))
  {
    forall v ensures v in Volumes(pods) <==> exists pod :: pod in pods && v in pod.spec.volumes {
      if v in Volumes(pods) { var pod := VolumeOwner(pods, v); }
      if pod :| pod in pods && v in pod.spec.volumes { VolumesOf(pods, pod, v); }
    }
  }

  lemma {:induction false} VolumeOwner(pods: seq<Pod>, v: Volume) returns (pod: Pod)
    requires v in Volumes(pods)
    ensures pod in pods && v in pod.spec.volumes
  {
    var n := |pods| - 1;
    if v in pods[n].spec.volumes {
      pod := pods[n];
    } else {
      pod := VolumeOwner(pods[..n], v);
    }
  }

  lemma RemoteVolumesLeft(pod: Pod)
    ensures (exists v :: v in FixedPod(pod).spec.volumes && (v.secret.Some? || v.configMap.Some?)) <==>
            exists v :: v in pod.spec.volumes && v.secret.Some? && v.configMap.Some?
  {
    var vs, ws, n := pod.spec.volumes, FixedPod(pod).spec.volumes, |pod.spec.volumes|;
    assert forall j :: 0 <= j < n ==> ws[j] == FixedVolume(vs[j]);
    if w :| w in ws && (w.secret.Some? || w.configMap.Some?) {
      var j :| 0 <= j < |ws| && ws[j] == w;
      assert j < n;
      assert vs[j] in vs;
    }
    if v :| v in vs && v.secret.Some? && v.configMap.Some? {
      var j :| 0 <= j < n && vs[j] == v;
      assert ws[j] in ws && ws[j].configMap.Some?;
    }
  }

  // ---------------------------------------------------------------------------------------------
  // The data of secrets and config maps.

  /** The first listed object of a name. */
  function First(objs: seq<KeyValueObject>, name: string): (r: Option<KeyValueObject>)
    ensures r.Some? <==> exists o :: o in objs && o.name == name
    ensures r.Some? ==> r.value in objs && r.value.name == name
  {
    if objs == [] then None
    else
      var n := |objs| - 1;
      assert objs == objs[..n] + [objs[n]];
      var earlier := First(objs[..n], name);
      if earlier.Some? then earlier else if objs[n].name == name then Some(objs[n]) else None
  }

  /** No object listed before the one found has the name. */
  lemma {:induction false} FirstIsFirst(objs: seq<KeyValueObject>, name: string)
    requires First(objs, name).Some?
    ensures exists k :: 0 <= k < |objs| && objs[k] == First(objs, name).value && forall j :: 0 <= j < k ==> objs[j].name != name
  {
    var n := |objs| - 1;
    if First(objs[..n], name).Some? {
      FirstIsFirst(objs[..n], name);
      var k :| 0 <= k < n && objs[..n][k] == First(objs[..n], name).value && forall j :: 0 <= j < k ==> objs[..n][j].name != name;
      assert objs[k] == First(objs, name).value;
      forall j | 0 <= j < k ensures objs[j].name != name { assert objs[..n][j] == objs[j]; }
    } else {
      forall j | 0 <= j < n ensures objs[j].name != name { assert objs[..n][j] == objs[j] && objs[j] in objs[..n]; }
      assert objs[n] == First(objs, name).value;
    }
  }

  predicate IsKeyOf(objs: seq<KeyValueObject>, required: map<string, Path>, name: string, key: string, a: Asset) {
    && name in required && First(objs, name).Some?
    && var data := First(objs, name).value.data;
       key in data && a == Asset(required[name] + Components(key), data[key])
  }

  /** Exactly the keys of the first listed object of each required name are assets. */
  ghost predicate KeyAssets(objs: seq<KeyValueObject>, required: map<string, Path>, assets: seq<Asset>) {
    forall a :: a in assets <==> exists name, key :: IsKeyOf(objs, required, name, key, a)
  }

  /** The loop over the data of one object; a map yields its keys in any order. */
  method OutputKeys(prefix: Path, data: map<string, string>) returns (assets: seq<Asset>)
    ensures forall a :: a in assets <==> exists key :: key in data && a == Asset(prefix + Components(key), data[key])
  {
    assets := [];
    var keys := data.Keys;
    while keys != {}
      invariant keys <= data.Keys
      invariant forall a :: a in assets <==> exists key :: key in data && key !in keys && a == Asset(prefix + Components(key), data[key])
    {
      var key :| key in keys;
      assets := assets + [Asset(prefix + Components(key), data[key])];
      keys := keys - {key};
    }
  }

  /** outputKeyValueData: fails exactly if some required name is missing, and then names the missing. */
  method OutputKeyValueData(objs: seq<KeyValueObject>, required: map<string, Path>) returns (r: Result<seq<Asset>, set<string>>)
    ensures r.Ok? <==> forall name :: name in required ==> exists o :: o in objs && o.name == name
    ensures r.Ok? ==> KeyAssets(objs, required, r.value)
    ensures r.Err? ==> r.error == set name | name in required && First(objs, name).None?
  {
    var assets, left := [], required;
    for i := 0 to |objs|
      invariant forall name :: name in left <==> name in required && First(objs[..i], name).None?
      invariant forall name :: name in left ==> left[name] == required[name]
      invariant KeyAssets(objs[..i], required, assets)
    {
      var o := objs[i];
      assert objs[..i + 1][..i] == objs[..i];
      if o.name in left {
        var more := OutputKeys(left[o.name], o.data);
        KeyAssetsNext(objs[..i], o, required, assets, more);
        assets := assets + more;
        left := left - {o.name};
      } else {
        KeyAssetsSkip(objs[..i], o, required, assets);
      }
      assert objs[..i + 1] == objs[..i] + [o];
    }
    assert objs[..|objs|] == objs;
    if |left| > 0 {
      r := Err(left.Keys);
    } else {
      r := Ok(assets);
    }
  }

  lemma FirstSnoc(objs: seq<KeyValueObject>, o: KeyValueObject, name: string)
    ensures First(objs + [o], name) ==
            if First(objs, name).Some? then First(objs, name) else if o.name == name then Some(o) else None
  {
    assert (objs + [o])[..|objs|] == objs;
  }

  lemma KeyAssetsNext(objs: seq<KeyValueObject>, o: KeyValueObject, required: map<string, Path>, assets: seq<Asset>, more: seq<Asset>)
    requires KeyAssets(objs, required, assets) && o.name in required && First(objs, o.name).None?
    requires forall a :: a in more <==> exists key :: key in o.data && a == Asset(required[o.name] + Components(key), o.data[key])
    ensures KeyAssets(objs + [o], required, assets + more)
  {
    forall a ensures a in assets + more <==> exists name, key :: IsKeyOf(objs + [o], required, name, key, a) {
      FirstSnoc(objs, o, o.name);
      if a in assets {
        var name, key :| IsKeyOf(objs, required, name, key, a);
        FirstSnoc(objs, o, name);
        assert IsKeyOf(objs + [o], required, name, key, a);
      } else if a in more {
        var key :| key in o.data && a == Asset(required[o.name] + Components(key), o.data[key]);
        assert IsKeyOf(objs + [o], required, o.name, key, a);
      }
      if name, key :| IsKeyOf(objs + [o], required, name, key, a) {
        FirstSnoc(objs, o, name);
        if name != o.name { assert IsKeyOf(objs, required, name, key, a); }
      }
    }
  }

  lemma KeyAssetsSkip(objs: seq<KeyValueObject>, o: KeyValueObject, required: map<string, Path>, assets: seq<Asset>)
    requires KeyAssets(objs, required, assets) && (o.name in required ==> First(objs, o.name).Some?)
    ensures KeyAssets(objs + [o], required, assets)
  {
    forall a, name, key ensures IsKeyOf(objs + [o], required, name, key, a) <==> IsKeyOf(objs, required, name, key, a) {
      FirstSnoc(objs, o, name);
    }
  }

  // ---------------------------------------------------------------------------------------------
  // The assets of a recovery.

  /** A bootstrap pod's manifest. */
  function PodAsset(pod: Pod, encode: Pod -> string): Asset {
    Asset([ASSET_BOOTSTRAP_MANIFESTS] + Components(pod.meta.name + ".yaml"), encode(pod))
  }

  function PodAssets(pods: seq<Pod>, encode: Pod -> string): seq<Asset> {
    seq(|pods|, i requires 0 <= i < |pods| => PodAsset(pods[i], encode))
  }

  function Pods(cp: Recovered): seq<Pod> {
    BootstrapPods(cp.daemonSets + cp.deployments)
  }

  function RequiredConfigMaps(cp: Recovered): map<string, Path> {
    Required(CONFIG_MAPS, ConfigMapNames(Volumes(Pods(cp))))
  }

  function RequiredSecrets(cp: Recovered): map<string, Path> {
    Required(SECRETS, SecretNames(Volumes(Pods(cp))))
  }

  ghost predicate AllListed(objs: seq<KeyValueObject>, required: map<string, Path>) {
    forall name :: name in required ==> exists o :: o in objs && o.name == name
  }

  /** The assets of a successful recovery, in the order they are appended. */
  ghost predicate IsRecovery(cp: Recovered, encode: Pod -> string, kubeconfig: string, assets: seq<Asset>, configMaps: seq<Asset>, secrets: seq<Asset>) {
    && assets == PodAssets(FixedPods(Pods(cp)), encode) + configMaps + secrets + [Asset(ASSET_KUBECONFIG, kubeconfig)]
    && AllListed(cp.configMaps, RequiredConfigMaps(cp)) && KeyAssets(cp.configMaps, RequiredConfigMaps(cp), configMaps)
    && AllListed(cp.secrets, RequiredSecrets(cp)) && KeyAssets(cp.secrets, RequiredSecrets(cp), secrets)
  }

  function MissingNames(objs: seq<KeyValueObject>, required: map<string, Path>): set<string> {
    set name | name in required && First(objs, name).None?
  }

  datatype RecoverError = Missing(names: set<string>) | NoKubeconfig

  /** Recover, after the backend has read `cp`; `kubeconfig` is None if the file cannot be read. */
  method Recover(cp: Recovered, encode: Pod -> string, kubeconfig: Option<string>) returns (r: Result<seq<Asset>, RecoverError>)
    ensures r.Ok? <==>
      && AllListed(cp.configMaps, RequiredConfigMaps(cp)) && AllListed(cp.secrets, RequiredSecrets(cp))
      && kubeconfig.Some?
    ensures r.Ok? ==> exists configMaps, secrets :: IsRecovery(cp, encode, kubeconfig.value, r.value, configMaps, secrets)
    ensures r.Err? ==> match r.error
      case NoKubeconfig => AllListed(cp.configMaps, RequiredConfigMaps(cp)) && AllListed(cp.secrets, RequiredSecrets(cp)) && kubeconfig.None?
      case Missing(names) => names == if AllListed(cp.configMaps, RequiredConfigMaps(cp)) then MissingNames(cp.secrets, RequiredSecrets(cp))
                                      else MissingNames(cp.configMaps, RequiredConfigMaps(cp))
  {
    var extracted := ExtractBootstrapPods(cp.daemonSets, cp.deployments);
    var pods := new Pod[|extracted|](i requires 0 <= i < |extracted| => extracted[i]);
    assert pods[..] == extracted;
    var requiredConfigMaps, requiredSecrets := FixUpBootstrapPods(pods);
    var configMaps := OutputKeyValueData(cp.configMaps, requiredConfigMaps);
    if configMaps.Err? {
      return Err(Missing(configMaps.error));
    }
    var secrets := OutputKeyValueData(cp.secrets, requiredSecrets);
    if secrets.Err? {
      return Err(Missing(secrets.error));
    }
    if kubeconfig.None? {
      return Err(NoKubeconfig);
    }
    var assets := PodAssets(pods[..], encode) + configMaps.value + secrets.value + [Asset(ASSET_KUBECONFIG, kubeconfig.value)];
    assert IsRecovery(cp, encode, kubeconfig.value, assets, configMaps.value, secrets.value);
    r := Ok(assets);
  }

  // ---------------------------------------------------------------------------------------------
  // Writing and starting.

  function Written(files: Files, dir: Path, assets: seq<Asset>): Files {
    if assets == [] then files
    else
      var a := assets[|assets| - 1];
      Written(files, dir, assets[..|assets| - 1])[dir + a.name := a.data]
  }

  /** The directory holds neither a file nor another directory. */
  predicate EmptyDir(files: Files, dirs: set<Path>, dir: Path) {
    (forall p :: p in files ==> !Under(dir, p)) && forall p :: p in dirs && Under(dir, p) ==> p == dir
  }

  /** Assets.WriteFiles, in a directory that must be empty, among the directories `dirs`; writing asset
      number `failsAt` fails. */
  method WriteFiles(files: Files, dirs: set<Path>, dir: Path, assets: seq<Asset>, failsAt: nat) returns (files': Files, ok: bool)
    ensures ok <==> EmptyDir(files, dirs, dir) && failsAt >= |assets|
    ensures !EmptyDir(files, dirs, dir) ==> files' == files
    ensures ok ==> files' == Written(files, dir, assets)
    ensures forall p :: !Under(dir, p) ==> (p in files' <==> p in files) && (p in files ==> files'[p] == files[p])
  {
    files' := files;
    if !EmptyDir(files, dirs, dir) {
      return files, false;
    }
    for i := 0 to |assets|
      invariant i <= failsAt && files' == Written(files, dir, assets[..i])
      invariant forall p :: !Under(dir, p) ==> (p in files' <==> p in files) && (p in files ==> files'[p] == files[p])
    {
      if i == failsAt {
        return files', false;
      }
      assert assets[..i + 1][..i] == assets[..i];
      assert Under(dir, dir + assets[i].name);
      files' := files'[dir + assets[i].name := assets[i].data];
    }
    assert assets[..|assets|] == assets;
    ok := true;
  }

  /** The file of a name holds what the last asset of that name says. */
  lemma {:induction false} WrittenLast(files: Files, dir: Path, assets: seq<Asset>, k: nat)
    requires k < |assets| && forall j :: k < j < |assets| ==> assets[j].name != assets[k].name
    ensures var w, p := Written(files, dir, assets), dir + assets[k].name; p in w && w[p] == assets[k].data
  {
    var n := |assets| - 1;
    if k < n {
      assert assets[..n][k] == assets[k];
      WrittenLast(files, dir, assets[..n], k);
      SameTarget(dir, assets[k].name, assets[n].name);
    }
  }

  /** Every file in a fresh asset directory is one of the assets. */
  lemma {:induction false} WrittenOnly(files: Files, dir: Path, assets: seq<Asset>, p: Path)
    ensures p in Written(files, dir, assets) <==> p in files || exists a :: a in assets && p == dir + a.name
  {
    if assets != [] {
      var n := |assets| - 1;
      WrittenOnly(files, dir, assets[..n], p);
      assert assets == assets[..n] + [assets[n]];
    }
  }

  /** If all assets of one name agree, the file of that name holds what they say. */
  lemma {:induction false} WrittenFile(files: Files, dir: Path, assets: seq<Asset>, a: Asset)
    requires a in assets && forall b :: b in assets && b.name == a.name ==> b == a
    ensures var w := Written(files, dir, assets); dir + a.name in w && w[dir + a.name] == a.data
  {
    var n := |assets| - 1;
    SameTarget(dir, a.name, assets[n].name);
    if assets[n] != a {
      assert a in assets[..n];
      WrittenFile(files, dir, assets[..n], a);
    }
  }

  /** What the API server guarantees of names and keys. */
  ghost predicate WellNamed(objs: seq<KeyValueObject>) {
    forall o :: o in objs ==> ValidName(o.name) && forall key :: key in o.data ==> ValidName(key)
  }

  /** The walk visits every file below the directory, and each path once. */
  ghost predicate Visits(files: Files, dir: Path, walk: seq<Entry>) {
    && Once(walk)
    && forall p :: p in files && Under(dir, p) ==> exists k :: 0 <= k < |walk| && !walk[k].isDir && dir + walk[k].rel == p
  }

  /** The path of an asset of a well-named object shows which key of which object it is. */
  lemma KeyPath(objs: seq<KeyValueObject>, kind: string, names: set<string>, name: string, key: string, a: Asset)
    requires WellNamed(objs) && IsKeyOf(objs, Required(kind, names), name, key, a)
    ensures a.name == [ASSET_SECRETS, kind, name, key]
  {
    ComponentsOfName(name);
    ComponentsOfName(key);
  }

  /** Within one kind of object no two assets have the same path. */
  lemma KeyAssetsDistinct(objs: seq<KeyValueObject>, kind: string, names: set<string>, assets: seq<Asset>, a: Asset, b: Asset)
    requires WellNamed(objs) && KeyAssets(objs, Required(kind, names), assets) && a in assets && b in assets && a.name == b.name
    ensures a == b
  {
    var name, key :| IsKeyOf(objs, Required(kind, names), name, key, a);
    var name', key' :| IsKeyOf(objs, Required(kind, names), name', key', b);
    KeyPath(objs, kind, names, name, key, a);
    KeyPath(objs, kind, names, name', key', b);
  }

  lemma KeyAssetsKind(objs: seq<KeyValueObject>, kind: string, names: set<string>, assets: seq<Asset>, a: Asset)
    requires WellNamed(objs) && KeyAssets(objs, Required(kind, names), assets) && a in assets
    ensures |a.name| == 4 && a.name[0] == ASSET_SECRETS && a.name[1] == kind
  {
    var name, key :| IsKeyOf(objs, Required(kind, names), name, key, a);
    KeyPath(objs, kind, names, name, key, a);
  }

  /** An asset that holds a key has its path to itself. */
  lemma PathDistinct(cp: Recovered, encode: Pod -> string, kubeconfig: string, assets: seq<Asset>, configMaps: seq<Asset>, secrets: seq<Asset>, a: Asset, b: Asset)
    requires IsRecovery(cp, encode, kubeconfig, assets, configMaps, secrets)
    requires WellNamed(cp.configMaps) && WellNamed(cp.secrets)
    requires (a in configMaps || a in secrets) && b in assets && a.name == b.name
    ensures a == b
  {
    var cmNames, secretNames := ConfigMapNames(Volumes(Pods(cp))), SecretNames(Volumes(Pods(cp)));
    if a in configMaps {
      KeyAssetsKind(cp.configMaps, CONFIG_MAPS, cmNames, configMaps, a);
    } else {
      KeyAssetsKind(cp.secrets, SECRETS, secretNames, secrets, a);
    }
    if b in configMaps {
      KeyAssetsKind(cp.configMaps, CONFIG_MAPS, cmNames, configMaps, b);
      if a in configMaps { KeyAssetsDistinct(cp.configMaps, CONFIG_MAPS, cmNames, configMaps, a, b); }
    }
    if b in secrets {
      KeyAssetsKind(cp.secrets, SECRETS, secretNames, secrets, b);
      if a in secrets { KeyAssetsDistinct(cp.secrets, SECRETS, secretNames, secrets, a, b); }
    }
  }

  /** Writing assets and starting from them: the files and the ownership before, the two directories,
      and what happens outside the program. */
  datatype Launch = Launch(files: Files, owned: seq<Path>, assetDir: Path, podDir: Path, plan: StartPlan)
  {
    function Result(assets: seq<Asset>): Plane {
      Started(Written(files, assetDir, assets), owned, assetDir, podDir, plan)
    }

    /** The asset directory is not in the secrets directory, the walk of its secrets is complete, and
        Start reports success. */
    ghost predicate Succeeds(assets: seq<Asset>) {
      && !Under(SECRETS_DIR, assetDir)
      && Visits(Written(files, assetDir, assets), assetDir + [ASSET_SECRETS], plan.secrets)
      && Result(assets).ok
    }
  }

  /** An asset below the assets' secrets arrives in the secrets directory. */
  lemma AssetArrives(l: Launch, assets: seq<Asset>, a: Asset, rel: Path)
    requires l.Succeeds(assets) && a in assets && (forall b :: b in assets && b.name == a.name ==> b == a)
    requires a.name == [ASSET_SECRETS] + rel && rel != ["kubeconfig"]
    ensures SECRETS_DIR + rel in l.Result(assets).files && l.Result(assets).files[SECRETS_DIR + rel] == a.data
  {
    var written, dir, walk := Written(l.files, l.assetDir, assets), l.assetDir + [ASSET_SECRETS], l.plan.secrets;
    WrittenFile(l.files, l.assetDir, assets, a);
    assert l.assetDir + a.name == dir + rel;
    assert Under(dir, dir + rel);
    var k :| 0 <= k < |walk| && !walk[k].isDir && dir + walk[k].rel == dir + rel;
    SameTarget(dir, walk[k].rel, rel);
    SourceOutside(l.assetDir, rel);
    SecretsArrive(written, l.owned, l.assetDir, l.podDir, l.plan, k);
  }

  /** Every key of an object is a file in the directory. */
  ghost predicate Mounted(files: Files, dir: Path, o: KeyValueObject) {
    forall key :: key in o.data ==> IsFile(files, dir + [key], o.data[key])
  }

  predicate IsFile(files: Files, p: Path, content: string) {
    p in files && files[p] == content
  }

  /** The volume's host path holds the keys of the first listed object of the volume's name. */
  ghost predicate Served(cp: Recovered, v: Volume, files: Files) {
    var fixed := FixedVolume(v);
    && (v.secret.Some? ==>
        && fixed.secret.None? && fixed.hostPath.Some?
        && First(cp.secrets, v.secret.value).Some?
        && Mounted(files, fixed.hostPath.value, First(cp.secrets, v.secret.value).value))
    && (v.secret.None? && v.configMap.Some? ==>
        && fixed.configMap.None? && fixed.hostPath.Some?
        && First(cp.configMaps, v.configMap.value).Some?
        && Mounted(files, fixed.hostPath.value, First(cp.configMaps, v.configMap.value).value))
  }

  /** The assets of one batch are among all, and their paths are their own. */
  ghost predicate OwnPaths(batch: seq<Asset>, assets: seq<Asset>) {
    forall a :: a in batch ==> a in assets && forall b :: b in assets && b.name == a.name ==> b == a
  }

  /** One key of one required object arrives. */
  lemma KeyArrives(l: Launch, objs: seq<KeyValueObject>, kind: string, names: set<string>, batch: seq<Asset>, assets: seq<Asset>, name: string, key: string, a: Asset)
    requires WellNamed(objs) && KeyAssets(objs, Required(kind, names), batch) && OwnPaths(batch, assets)
    requires l.Succeeds(assets) && IsKeyOf(objs, Required(kind, names), name, key, a)
    ensures IsFile(l.Result(assets).files, SECRETS_DIR + Suffix(kind, name) + [key], a.data)
  {
    KeyPath(objs, kind, names, name, key, a);
    HostFile(SECRETS_DIR, kind, name, key);
    assert a in batch;
    AssetArrives(l, assets, a, Suffix(kind, name) + [key]);
  }

  lemma HostFile(dir: Path, kind: string, name: string, key: string)
    requires ValidName(name)
    ensures Suffix(kind, name) + [key] == [kind, name, key] != ["kubeconfig"]
    ensures dir + Suffix(kind, name) + [key] == dir + (Suffix(kind, name) + [key])
    ensures [ASSET_SECRETS] + (Suffix(kind, name) + [key]) == [ASSET_SECRETS, kind, name, key]
  {
    ComponentsOfName(name);
    assert |["kubeconfig"]| == 1;
  }

  /** The keys of one required object arrive. */
  lemma ObjectArrives(l: Launch, objs: seq<KeyValueObject>, kind: string, names: set<string>, batch: seq<Asset>, assets: seq<Asset>, name: string)
    requires WellNamed(objs) && AllListed(objs, Required(kind, names))
    requires KeyAssets(objs, Required(kind, names), batch) && OwnPaths(batch, assets)
    requires l.Succeeds(assets) && name in names
    ensures First(objs, name).Some? && Mounted(l.Result(assets).files, SECRETS_DIR + Suffix(kind, name), First(objs, name).value)
  {
    var required := Required(kind, names);
    assert name in required;
    var o := First(objs, name).value;
    forall key | key in o.data ensures IsFile(l.Result(assets).files, SECRETS_DIR + Suffix(kind, name) + [key], o.data[key]) {
      KeyArrives(l, objs, kind, names, batch, assets, name, key, Asset(required[name] + Components(key), o.data[key]));
    }
  }

  /** Recovery composes with start: write the recovered assets into an asset directory outside the
      secrets directory and Start from it; then every secret or config map volume of the bootstrap pods
      is a host path whose files are the keys of the first listed object of that name. */
  lemma RecoveryThenStart(cp: Recovered, encode: Pod -> string, kubeconfig: string, assets: seq<Asset>, configMaps: seq<Asset>, secrets: seq<Asset>,
                          l: Launch, pod: Pod, v: Volume)
    requires IsRecovery(cp, encode, kubeconfig, assets, configMaps, secrets)
    requires WellNamed(cp.configMaps) && WellNamed(cp.secrets)
    requires l.Succeeds(assets)
    requires pod in Pods(cp) && v in pod.spec.volumes
    ensures FixedVolume(v) in FixedPod(pod).spec.volumes && FixedPod(pod) in FixedPods(Pods(cp))
    ensures Served(cp, v, l.Result(assets).files)
  {
    FixedMembers(Pods(cp), pod, v);
    VolumesOf(Pods(cp), pod, v);
    var vs := Volumes(Pods(cp));
    PathsOwned(cp, encode, kubeconfig, assets, configMaps, secrets);
    if v.secret.Some? {
      ObjectArrives(l, cp.secrets, SECRETS, SecretNames(vs), secrets, assets, v.secret.value);
    } else if v.configMap.Some? {
      ObjectArrives(l, cp.configMaps, CONFIG_MAPS, ConfigMapNames(vs), configMaps, assets, v.configMap.value);
    }
  }

  lemma PathsOwned(cp: Recovered, encode: Pod -> string, kubeconfig: string, assets: seq<Asset>, configMaps: seq<Asset>, secrets: seq<Asset>)
    requires IsRecovery(cp, encode, kubeconfig, assets, configMaps, secrets)
    requires WellNamed(cp.configMaps) && WellNamed(cp.secrets)
    ensures OwnPaths(configMaps, assets) && OwnPaths(secrets, assets)
  {
    forall a, b | (a in configMaps || a in secrets) && b in assets && b.name == a.name ensures b == a {
      PathDistinct(cp, encode, kubeconfig, assets, configMaps, secrets, a, b);
    }
  }

  /** The path of a bootstrap pod's manifest below the manifests, and below the pod directory. */
  function ManifestPath(pod: Pod): Path {
    Components(pod.meta.name + ".yaml")
  }

  /** Only pods' manifests are below the manifests. */
  lemma ManifestAssets(cp: Recovered, encode: Pod -> string, kubeconfig: string, assets: seq<Asset>, configMaps: seq<Asset>, secrets: seq<Asset>, k: nat, j: nat)
    requires IsRecovery(cp, encode, kubeconfig, assets, configMaps, secrets)
    requires k < |Pods(cp)| <= j < |assets|
    ensures |assets| >= |Pods(cp)| && assets[k] == PodAsset(FixedPods(Pods(cp))[k], encode)
    ensures assets[j].name != assets[k].name
  {
    var pods := PodAssets(FixedPods(Pods(cp)), encode);
    assert assets[k] == pods[k];
    assert assets[k].name[0] == "bootstrap-manifests";
    var rest := configMaps + secrets + [Asset(ASSET_KUBECONFIG, kubeconfig)];
    assert assets == pods + rest by { Regroup(pods, configMaps, secrets, [Asset(ASSET_KUBECONFIG, kubeconfig)]); }
    assert assets[j] == rest[j - |pods|];
    var a := assets[j];
    if a in configMaps {
      OtherDirectory(cp.configMaps, RequiredConfigMaps(cp), configMaps, a);
    } else if a in secrets {
      OtherDirectory(cp.secrets, RequiredSecrets(cp), secrets, a);
    } else {
      assert a == Asset(ASSET_KUBECONFIG, kubeconfig) && a.name[0] == "auth";
    }
  }

  lemma Regroup<T>(a: seq<T>, b: seq<T>, c: seq<T>, d: seq<T>)
    ensures a + b + c + d == a + (b + c + d)
  {
  }

  lemma OtherDirectory(objs: seq<KeyValueObject>, required: map<string, Path>, batch: seq<Asset>, a: Asset)
    requires KeyAssets(objs, required, batch) && a in batch
    requires forall name :: name in required ==> required[name] != [] && required[name][0] == "tls"
    ensures a.name != [] && a.name[0] == "tls"
  {
    var name, key :| IsKeyOf(objs, required, name, key, a);
  }

  /** Recovery composes with start for the pods too: a bootstrap pod's manifest, encoded as it was fixed up, is
      in the pod directory, if no later pod has the same manifest path; of those that do the last wins. */
  lemma RecoveredPodStarts(cp: Recovered, encode: Pod -> string, kubeconfig: string, assets: seq<Asset>, configMaps: seq<Asset>, secrets: seq<Asset>,
                           l: Launch, k: nat)
    requires IsRecovery(cp, encode, kubeconfig, assets, configMaps, secrets)
    requires l.Succeeds(assets) && Visits(Written(l.files, l.assetDir, assets), l.assetDir + ["bootstrap-manifests"], l.plan.manifests)
    requires k < |Pods(cp)|
    requires forall j :: k < j < |Pods(cp)| ==> ManifestPath(FixedPods(Pods(cp))[j]) != ManifestPath(FixedPods(Pods(cp))[k])
    ensures IsFile(l.Result(assets).files, l.podDir + Components(Pods(cp)[k].meta.name + ".yaml"), encode(FixedPod(Pods(cp)[k])))
  {
    var written, walk := Written(l.files, l.assetDir, assets), l.plan.manifests;
    var dir, rel := l.assetDir + ["bootstrap-manifests"], ManifestPath(Pods(cp)[k]);
    PodWritten(cp, encode, kubeconfig, assets, configMaps, secrets, l.files, l.assetDir, k);
    assert Under(dir, dir + rel);
    var n :| 0 <= n < |walk| && !walk[n].isDir && dir + walk[n].rel == dir + rel;
    SameTarget(dir, walk[n].rel, rel);
    ManifestsArrive(written, l.owned, l.assetDir, l.podDir, l.plan);
    assert IsCopy(l.Result(assets).files, l.podDir + walk[n].rel, written, dir + walk[n].rel);
  }

  lemma PodWritten(cp: Recovered, encode: Pod -> string, kubeconfig: string, assets: seq<Asset>, configMaps: seq<Asset>, secrets: seq<Asset>,
                   files: Files, assetDir: Path, k: nat)
    requires IsRecovery(cp, encode, kubeconfig, assets, configMaps, secrets) && k < |Pods(cp)|
    requires forall j :: k < j < |Pods(cp)| ==> ManifestPath(FixedPods(Pods(cp))[j]) != ManifestPath(FixedPods(Pods(cp))[k])
    ensures IsFile(Written(files, assetDir, assets), assetDir + ["bootstrap-manifests"] + ManifestPath(Pods(cp)[k]), encode(FixedPod(Pods(cp)[k])))
  {
    var pods, rel := FixedPods(Pods(cp)), ManifestPath(Pods(cp)[k]);
    assert pods[k] == FixedPod(Pods(cp)[k]) && ManifestPath(pods[k]) == rel;
    assert |assets| == |Pods(cp)| + |configMaps| + |secrets| + 1;
    ManifestAssets(cp, encode, kubeconfig, assets, configMaps, secrets, k, |Pods(cp)|);
    forall j | k < j < |assets| ensures assets[j].name != assets[k].name {
      if j < |Pods(cp)| {
        ManifestAssets(cp, encode, kubeconfig, assets, configMaps, secrets, j, |Pods(cp)|);
        SameTarget(["bootstrap-manifests"], ManifestPath(pods[j]), rel);
      } else {
        ManifestAssets(cp, encode, kubeconfig, assets, configMaps, secrets, k, j);
      }
    }
    WrittenLast(files, assetDir, assets, k);
    Associate(assetDir, ["bootstrap-manifests"], rel);
  }

  lemma FixedMembers(pods: seq<Pod>, pod: Pod, v: Volume)
    requires pod in pods && v in pod.spec.volumes
    ensures FixedVolume(v) in FixedPod(pod).spec.volumes && FixedPod(pod) in FixedPods(pods)
  {
    var i :| 0 <= i < |pods| && pods[i] == pod;
    assert FixedPods(pods)[i] == FixedPod(pod);
    var j :| 0 <= j < |pod.spec.volumes| && pod.spec.volumes[j] == v;
    assert FixedPod(pod).spec.volumes[j] == FixedVolume(v);
  }

  lemma {:induction false} VolumesOf(pods: seq<Pod>, pod: Pod, v: Volume)
    requires pod in pods && v in pod.spec.volumes
    ensures v in Volumes(pods)
  {
    var n := |pods| - 1;
    if pods[n] != pod {
      assert pod in pods[..n];
      VolumesOf(pods[..n], pod, v);
    }
  }
}
