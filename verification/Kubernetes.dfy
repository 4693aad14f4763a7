/** The parts of the Kubernetes API objects that bootkube reads or rewrites. */
module Kubernetes {
  import opened Wrappers
  import opened Strings

  datatype OwnerReference = OwnerReference(apiVersion: string, kind: string, name: string, uid: string)

  /** `annotations` is None for a nil map; `other` stands for all metadata that is not listed. */
  datatype ObjectMeta = ObjectMeta(
    name: string,
    namespace: string,
    uid: string,
    annotations: Option<map<string, string>>,
    labels: map<string, string>,
    ownerReferences: seq<OwnerReference>,
    other: string)

  /** The API asks for exactly one source; the record can hold several, as in the source. */
  datatype Volume = Volume(
    name: string,
    secret: Option<string>,
    configMap: Option<string>,
    hostPath: Option<Path>,
    other: Option<string>)

  datatype SecurityContext = SecurityContext(runAsUser: Option<int>, runAsNonRoot: Option<bool>)

  datatype PodSecurityContext = PodSecurityContext(runAsUser: Option<int>, runAsNonRoot: Option<bool>, fsGroup: Option<int>)

  datatype VolumeMount = VolumeMount(name: string, mountPath: Path, readOnly: bool)

  datatype Container = Container(
    name: string,
    command: seq<string>,
    volumeMounts: seq<VolumeMount>,
    securityContext: Option<SecurityContext>)

  datatype PodSpec = PodSpec(
    serviceAccountName: string,
    deprecatedServiceAccount: string,
    affinity: Option<string>,
    nodeSelector: map<string, string>,
    hostNetwork: bool,
    securityContext: Option<PodSecurityContext>,
    volumes: seq<Volume>,
    containers: seq<Container>)

  datatype Pod = Pod(apiVersion: string, kind: string, meta: ObjectMeta, spec: PodSpec, status: string)
}
