/** The parts of the Kubernetes core/v1 API objects that the config-map
    detector reads, and the cluster client it lists them through. A pointer
    field that Go may leave nil is an Option; a reference to a config map
    (ConfigMapVolumeSource, ConfigMapProjection, ConfigMapKeySelector,
    ConfigMapEnvSource) is kept as the name it carries. */
module Kube {
  import opened Wrappers

  type Labels = map<string, string>

  /** Creation time of an object, in seconds. */
  type Timestamp = int

  datatype VolumeProjection = VolumeProjection(configMap: Option<string>)

  datatype ProjectedVolumeSource = ProjectedVolumeSource(sources: seq<VolumeProjection>)

  datatype Volume = Volume(
    name: string,
    configMap: Option<string>,
    projected: Option<ProjectedVolumeSource>)

  datatype EnvVarSource = EnvVarSource(configMapKeyRef: Option<string>)

  datatype EnvVar = EnvVar(name: string, valueFrom: Option<EnvVarSource>)

  datatype EnvFromSource = EnvFromSource(configMapRef: Option<string>)

  datatype VolumeMount = VolumeMount(name: string, mountPath: string)

  datatype Container = Container(
    name: string,
    env: seq<EnvVar>,
    envFrom: seq<EnvFromSource>,
    volumeMounts: seq<VolumeMount>)

  datatype PodSpec = PodSpec(
    volumes: seq<Volume>,
    containers: seq<Container>,
    initContainers: seq<Container>)

  datatype Pod = Pod(name: string, spec: PodSpec)

  datatype ConfigMap = ConfigMap(name: string, labels: Labels, creationTimestamp: Timestamp)

  /** What a List call on the API server gives back: the items, or an error. */
  datatype Listing<T> = Listed(items: seq<T>) | ListFailed(err: string)

  /** The cluster as the detector sees it: per namespace, the answer of the pod
      and config-map List calls, and whether deleting a named config map
      succeeds. */
  datatype Cluster = Cluster(
    pods: string -> Listing<Pod>,
    configMaps: string -> Listing<ConfigMap>,
    deleteSucceeds: (string, string) -> bool)

  /** Go's index expression on a map: the zero value "" for a missing key. */
  function LabelValue(labels: Labels, key: string): string
  {
    if key in labels then labels[key] else ""
  }
}
