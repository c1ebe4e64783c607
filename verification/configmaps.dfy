/** The config-map instance of kor's unused-resource detector
    (pkg/kor/confimgmaps.go): which config-map names the pods of a namespace
    refer to, which config maps are candidates, their difference, and the
    per-namespace response. Each imperative operation is a method proved equal
    to a specification function; ConfigMapProps states what those functions
    mean. */
module ConfigMaps {
  import opened Wrappers
  import opened Kube
  import opened Seqs
  import opened KorUtil

  /** A config map that always counts as used in the namespaces it names;
      namespace "*" matches every namespace. */
  datatype ExceptionResource = ExceptionResource(resourceName: string, namespace: string)

  const ExceptionConfigMaps: seq<ExceptionResource> := [
    ExceptionResource("aws-auth", "kube-system"),
    ExceptionResource("kube-root-ca.crt", "*")
  ]

  /** The filter policy, given by the outcome of kor's two filter helpers:
      whether a label set matches the exclusion selector (HasExcludedLabel,
      whose error is discarded) and whether a creation time lies in the age
      window (HasIncludedAge, which also reads the clock). */
  datatype FilterOptions = FilterOptions(
    hasExcludedLabel: Labels -> bool,
    hasIncludedAge: Timestamp -> bool)

  datatype Opts = Opts(deleteFlag: bool, noInteractive: bool)

  /** The six name lists retrieveUsedCM returns, in its order. */
  datatype UsedRefs = UsedRefs(
    volumesCM: seq<string>,
    volumesProjectedCM: seq<string>,
    envCM: seq<string>,
    envFromCM: seq<string>,
    envFromContainerCM: seq<string>,
    envFromInitContainerCM: seq<string>)

  const NoRefs := UsedRefs([], [], [], [], [], [])

  // What a single attachment point contributes to its list.

  function VolumeCM(v: Volume): seq<string>
  {
    if v.configMap.Some? then [v.configMap.value] else []
  }

  function ProjectionCM(s: VolumeProjection): seq<string>
  {
    if s.configMap.Some? then [s.configMap.value] else []
  }

  function VolumeProjectedCM(v: Volume): seq<string>
  {
    if v.projected.Some? then ConcatMap(v.projected.value.sources, ProjectionCM) else []
  }

  function EnvCM(e: EnvVar): seq<string>
  {
    if e.valueFrom.Some? && e.valueFrom.value.configMapKeyRef.Some?
    then [e.valueFrom.value.configMapKeyRef.value] else []
  }

  function EnvFromCM(e: EnvFromSource): seq<string>
  {
    if e.configMapRef.Some? then [e.configMapRef.value] else []
  }

  /** An init-container volume mount records its own (volume) name. */
  function MountCM(m: VolumeMount): seq<string>
  {
    if m.name != "" && m.mountPath != "" then [m.name] else []
  }

  function ContainerEnvCM(c: Container): seq<string> { ConcatMap(c.env, EnvCM) }

  function ContainerEnvFromCM(c: Container): seq<string> { ConcatMap(c.envFrom, EnvFromCM) }

  function ContainerMountCM(c: Container): seq<string> { ConcatMap(c.volumeMounts, MountCM) }

  // What one pod contributes to each list.

  function PodVolumesCM(p: Pod): seq<string>
  {
    ConcatMap(p.spec.volumes, VolumeCM) + ConcatMap(p.spec.initContainers, ContainerMountCM)
  }

  function PodProjectedCM(p: Pod): seq<string> { ConcatMap(p.spec.volumes, VolumeProjectedCM) }

  function PodEnvCM(p: Pod): seq<string> { ConcatMap(p.spec.containers, ContainerEnvCM) }

  function PodEnvFromCM(p: Pod): seq<string> { ConcatMap(p.spec.containers, ContainerEnvFromCM) }

  function PodInitEnvCM(p: Pod): seq<string> { ConcatMap(p.spec.initContainers, ContainerEnvCM) }

  /** The exemption names that apply in `namespace`, in list order. */
  function Exempted(exceptions: seq<ExceptionResource>, namespace: string): seq<string>
  {
    if |exceptions| == 0 then []
    else
      var r := exceptions[|exceptions| - 1];
      Exempted(exceptions[..|exceptions| - 1], namespace)
        + (if r.namespace == namespace || r.namespace == "*" then [r.resourceName] else [])
  }

  /** The six lists retrieveUsedCM builds from a successful pod listing. */
  function UsedCM(pods: seq<Pod>, namespace: string): UsedRefs
  {
    UsedRefs(
      ConcatMap(pods, PodVolumesCM) + Exempted(ExceptionConfigMaps, namespace),
      ConcatMap(pods, PodProjectedCM),
      ConcatMap(pods, PodEnvCM),
      ConcatMap(pods, PodEnvFromCM),
      ConcatMap(pods, PodEnvFromCM),
      ConcatMap(pods, PodInitEnvCM))
  }

  // The loops of retrieveUsedCM, one method per loop: each appends what its
  // elements contribute to the lists it is given.

  method CollectProjected(sources: seq<VolumeProjection>, acc: seq<string>) returns (r: seq<string>)
    ensures r == acc + ConcatMap(sources, ProjectionCM)
  {
    r := acc;
    for k := 0 to |sources|
      invariant r == acc + ConcatMap(sources[..k], ProjectionCM)
    {
      ConcatMapSnoc(sources, k, ProjectionCM);
      if sources[k].configMap.Some? {
        r := r + [sources[k].configMap.value];
      }
    }
    assert sources[..|sources|] == sources;
  }

  method CollectVolumes(volumes: seq<Volume>, volumesAcc: seq<string>, projectedAcc: seq<string>)
    returns (volumesCM: seq<string>, volumesProjectedCM: seq<string>)
    ensures volumesCM == volumesAcc + ConcatMap(volumes, VolumeCM)
    ensures volumesProjectedCM == projectedAcc + ConcatMap(volumes, VolumeProjectedCM)
  {
    volumesCM, volumesProjectedCM := volumesAcc, projectedAcc;
    for j := 0 to |volumes|
      invariant volumesCM == volumesAcc + ConcatMap(volumes[..j], VolumeCM)
      invariant volumesProjectedCM == projectedAcc + ConcatMap(volumes[..j], VolumeProjectedCM)
    {
      var volume := volumes[j];
      ConcatMapSnoc(volumes, j, VolumeCM);
      ConcatMapSnoc(volumes, j, VolumeProjectedCM);
      AppendAssoc(volumesAcc, ConcatMap(volumes[..j], VolumeCM), VolumeCM(volume));
      AppendAssoc(projectedAcc, ConcatMap(volumes[..j], VolumeProjectedCM), VolumeProjectedCM(volume));
      if volume.configMap.Some? {
        volumesCM := volumesCM + [volume.configMap.value];
      }
      if volume.projected.Some? {
        volumesProjectedCM := CollectProjected(volume.projected.value.sources, volumesProjectedCM);
      }
    }
    assert volumes[..|volumes|] == volumes;
  }

  method CollectEnv(env: seq<EnvVar>, acc: seq<string>) returns (r: seq<string>)
    ensures r == acc + ConcatMap(env, EnvCM)
  {
    r := acc;
    for k := 0 to |env|
      invariant r == acc + ConcatMap(env[..k], EnvCM)
    {
      ConcatMapSnoc(env, k, EnvCM);
      if env[k].valueFrom.Some? && env[k].valueFrom.value.configMapKeyRef.Some? {
        r := r + [env[k].valueFrom.value.configMapKeyRef.value];
      }
    }
    assert env[..|env|] == env;
  }

  method CollectEnvFrom(envFrom: seq<EnvFromSource>, acc: seq<string>) returns (r: seq<string>)
    ensures r == acc + ConcatMap(envFrom, EnvFromCM)
  {
    r := acc;
    for k := 0 to |envFrom|
      invariant r == acc + ConcatMap(envFrom[..k], EnvFromCM)
    {
      ConcatMapSnoc(envFrom, k, EnvFromCM);
      if envFrom[k].configMapRef.Some? {
        r := r + [envFrom[k].configMapRef.value];
      }
    }
    assert envFrom[..|envFrom|] == envFrom;
  }

  method CollectContainers(containers: seq<Container>,
                           envAcc: seq<string>, envFromAcc: seq<string>, envFromContainerAcc: seq<string>)
    returns (envCM: seq<string>, envFromCM: seq<string>, envFromContainerCM: seq<string>)
    ensures envCM == envAcc + ConcatMap(containers, ContainerEnvCM)
    ensures envFromCM == envFromAcc + ConcatMap(containers, ContainerEnvFromCM)
    ensures envFromContainerCM == envFromContainerAcc + ConcatMap(containers, ContainerEnvFromCM)
  {
    envCM, envFromCM, envFromContainerCM := envAcc, envFromAcc, envFromContainerAcc;
    for j := 0 to |containers|
      invariant envCM == envAcc + ConcatMap(containers[..j], ContainerEnvCM)
      invariant envFromCM == envFromAcc + ConcatMap(containers[..j], ContainerEnvFromCM)
      invariant envFromContainerCM == envFromContainerAcc + ConcatMap(containers[..j], ContainerEnvFromCM)
    {
      var container := containers[j];
      ConcatMapSnoc(containers, j, ContainerEnvCM);
      ConcatMapSnoc(containers, j, ContainerEnvFromCM);
      AppendAssoc(envAcc, ConcatMap(containers[..j], ContainerEnvCM), ContainerEnvCM(container));
      AppendAssoc(envFromAcc, ConcatMap(containers[..j], ContainerEnvFromCM), ContainerEnvFromCM(container));
      AppendAssoc(envFromContainerAcc, ConcatMap(containers[..j], ContainerEnvFromCM), ContainerEnvFromCM(container));
      envCM := CollectEnv(container.env, envCM);
      // The same EnvFrom loop runs twice, once into each list.
      envFromCM := CollectEnvFrom(container.envFrom, envFromCM);
      envFromContainerCM := CollectEnvFrom(container.envFrom, envFromContainerCM);
    }
    assert containers[..|containers|] == containers;
  }

  method CollectMounts(mounts: seq<VolumeMount>, acc: seq<string>) returns (r: seq<string>)
    ensures r == acc + ConcatMap(mounts, MountCM)
  {
    r := acc;
    for k := 0 to |mounts|
      invariant r == acc + ConcatMap(mounts[..k], MountCM)
    {
      ConcatMapSnoc(mounts, k, MountCM);
      if mounts[k].name != "" && mounts[k].mountPath != "" {
        r := r + [mounts[k].name];
      }
    }
    assert mounts[..|mounts|] == mounts;
  }

  method CollectInitContainers(initContainers: seq<Container>, volumesAcc: seq<string>, initEnvAcc: seq<string>)
    returns (volumesCM: seq<string>, envFromInitContainerCM: seq<string>)
    ensures volumesCM == volumesAcc + ConcatMap(initContainers, ContainerMountCM)
    ensures envFromInitContainerCM == initEnvAcc + ConcatMap(initContainers, ContainerEnvCM)
  {
    volumesCM, envFromInitContainerCM := volumesAcc, initEnvAcc;
    for j := 0 to |initContainers|
      invariant volumesCM == volumesAcc + ConcatMap(initContainers[..j], ContainerMountCM)
      invariant envFromInitContainerCM == initEnvAcc + ConcatMap(initContainers[..j], ContainerEnvCM)
    {
      var initContainer := initContainers[j];
      ConcatMapSnoc(initContainers, j, ContainerMountCM);
      ConcatMapSnoc(initContainers, j, ContainerEnvCM);
      AppendAssoc(volumesAcc, ConcatMap(initContainers[..j], ContainerMountCM), ContainerMountCM(initContainer));
      AppendAssoc(initEnvAcc, ConcatMap(initContainers[..j], ContainerEnvCM), ContainerEnvCM(initContainer));
      volumesCM := CollectMounts(initContainer.volumeMounts, volumesCM);
      envFromInitContainerCM := CollectEnv(initContainer.env, envFromInitContainerCM);
    }
    assert initContainers[..|initContainers|] == initContainers;
  }

  method CollectExempted(exceptions: seq<ExceptionResource>, namespace: string, acc: seq<string>)
    returns (r: seq<string>)
    ensures r == acc + Exempted(exceptions, namespace)
  {
    r := acc;
    for k := 0 to |exceptions|
      invariant r == acc + Exempted(exceptions[..k], namespace)
    {
      var resource := exceptions[k];
      assert exceptions[..k + 1][..k] == exceptions[..k];
      if resource.namespace == namespace || resource.namespace == "*" {
        r := r + [resource.resourceName];
      }
    }
    assert exceptions[..|exceptions|] == exceptions;
  }

  /** The body of retrieveUsedCM's pod loop: appends what one pod contributes
      to each of the six lists. */
  method CollectPod(pod: Pod, acc: UsedRefs) returns (refs: UsedRefs)
    ensures refs == UsedRefs(
      acc.volumesCM + PodVolumesCM(pod),
      acc.volumesProjectedCM + PodProjectedCM(pod),
      acc.envCM + PodEnvCM(pod),
      acc.envFromCM + PodEnvFromCM(pod),
      acc.envFromContainerCM + PodEnvFromCM(pod),
      acc.envFromInitContainerCM + PodInitEnvCM(pod))
  {
    var volumesCM, volumesProjectedCM := CollectVolumes(pod.spec.volumes, acc.volumesCM, acc.volumesProjectedCM);
    var envCM, envFromCM, envFromContainerCM :=
      CollectContainers(pod.spec.containers, acc.envCM, acc.envFromCM, acc.envFromContainerCM);
    var withMounts, envFromInitContainerCM :=
      CollectInitContainers(pod.spec.initContainers, volumesCM, acc.envFromInitContainerCM);
    AppendAssoc(acc.volumesCM, ConcatMap(pod.spec.volumes, VolumeCM), ConcatMap(pod.spec.initContainers, ContainerMountCM));
    refs := UsedRefs(withMounts, volumesProjectedCM, envCM, envFromCM, envFromContainerCM, envFromInitContainerCM);
  }

  /** retrieveUsedCM: lists the namespace's pods and collects the config-map
      names they refer to, then the exemptions for the namespace. On a failed
      listing all six lists are empty (nil) and the error is passed on. */
  method RetrieveUsedCM(cluster: Cluster, namespace: string) returns (refs: UsedRefs, err: Option<string>)
    ensures cluster.pods(namespace).ListFailed? ==>
      refs == NoRefs && err == Some(cluster.pods(namespace).err)
    ensures cluster.pods(namespace).Listed? ==>
      err == None && refs == UsedCM(cluster.pods(namespace).items, namespace)
    ensures refs.envFromCM == refs.envFromContainerCM
  {
    var listing := cluster.pods(namespace);
    if listing.ListFailed? {
      return NoRefs, Some(listing.err);
    }
    var pods := listing.items;

    refs := NoRefs;
    for i := 0 to |pods|
      invariant refs == UsedRefs(
        ConcatMap(pods[..i], PodVolumesCM),
        ConcatMap(pods[..i], PodProjectedCM),
        ConcatMap(pods[..i], PodEnvCM),
        ConcatMap(pods[..i], PodEnvFromCM),
        ConcatMap(pods[..i], PodEnvFromCM),
        ConcatMap(pods[..i], PodInitEnvCM))
    {
      ConcatMapSnoc(pods, i, PodVolumesCM);
      ConcatMapSnoc(pods, i, PodProjectedCM);
      ConcatMapSnoc(pods, i, PodEnvCM);
      ConcatMapSnoc(pods, i, PodEnvFromCM);
      ConcatMapSnoc(pods, i, PodInitEnvCM);
      refs := CollectPod(pods[i], refs);
    }
    assert pods[..|pods|] == pods;

    var volumesCM := CollectExempted(ExceptionConfigMaps, namespace, refs.volumesCM);
    refs := refs.(volumesCM := volumesCM);
    err := None;
  }

  /** Whether retrieveConfigMapNames keeps a config map: not label-excluded,
      inside the age window, and not marked kor/used=true. */
  predicate Keep(cm: ConfigMap, filterOpts: FilterOptions)
  {
    && !filterOpts.hasExcludedLabel(cm.labels)
    && filterOpts.hasIncludedAge(cm.creationTimestamp)
    && LabelValue(cm.labels, "kor/used") != "true"
  }

  /** The names of the kept config maps, in listing order. */
  function Candidates(cms: seq<ConfigMap>, filterOpts: FilterOptions): seq<string>
  {
    if |cms| == 0 then []
    else
      var cm := cms[|cms| - 1];
      Candidates(cms[..|cms| - 1], filterOpts) + (if Keep(cm, filterOpts) then [cm.name] else [])
  }

  /** retrieveConfigMapNames: lists the namespace's config maps and keeps the
      candidates. */
  method RetrieveConfigMapNames(cluster: Cluster, namespace: string, filterOpts: FilterOptions)
    returns (names: seq<string>, err: Option<string>)
    ensures cluster.configMaps(namespace).ListFailed? ==>
      names == [] && err == Some(cluster.configMaps(namespace).err)
    ensures cluster.configMaps(namespace).Listed? ==>
      err == None && names == Candidates(cluster.configMaps(namespace).items, filterOpts)
  {
    var listing := cluster.configMaps(namespace);
    if listing.ListFailed? {
      return [], Some(listing.err);
    }
    var configmaps := listing.items;
    names := [];
    for i := 0 to |configmaps|
      invariant names == Candidates(configmaps[..i], filterOpts)
    {
      var configmap := configmaps[i];
      assert configmaps[..i + 1][..i] == configmaps[..i];
      if filterOpts.hasExcludedLabel(configmap.labels) {
        continue;
      }
      if !filterOpts.hasIncludedAge(configmap.creationTimestamp) {
        continue;
      }
      if LabelValue(configmap.labels, "kor/used") == "true" {
        continue;
      }
      names := names + [configmap.name];
    }
    assert configmaps[..|configmaps|] == configmaps;
    err := None;
  }

  /** The six lists after dedup-and-sort, in the order processNamespaceCM
      concatenates them. */
  function DedupedBuckets(refs: UsedRefs): seq<seq<string>>
  {
    [ RemoveDuplicatesAndSort(refs.volumesCM),
      RemoveDuplicatesAndSort(refs.volumesProjectedCM),
      RemoveDuplicatesAndSort(refs.envCM),
      RemoveDuplicatesAndSort(refs.envFromCM),
      RemoveDuplicatesAndSort(refs.envFromContainerCM),
      RemoveDuplicatesAndSort(refs.envFromInitContainerCM) ]
  }

  /** The candidates that none of the deduplicated lists mentions. */
  function Unused(pods: seq<Pod>, cms: seq<ConfigMap>, namespace: string, filterOpts: FilterOptions): seq<string>
  {
    CalculateResourceDifference(Flatten(DedupedBuckets(UsedCM(pods, namespace))), Candidates(cms, filterOpts))
  }

  /** What processNamespaceCM computes for one namespace: the pod listing's
      error, else the config-map listing's error, else the unused names. */
  function ProcessNamespace(cluster: Cluster, namespace: string, filterOpts: FilterOptions): Result<seq<string>>
  {
    match cluster.pods(namespace)
    case ListFailed(e) => Err(e)
    case Listed(pods) =>
      match cluster.configMaps(namespace)
      case ListFailed(e) => Err(e)
      case Listed(cms) => Ok(Unused(pods, cms, namespace, filterOpts))
  }

  /** processNamespaceCM. The last clause is the promise that a pod-listing
      error is reported first, before the config maps are listed. */
  method ProcessNamespaceCM(cluster: Cluster, namespace: string, filterOpts: FilterOptions)
    returns (diff: seq<string>, err: Option<string>)
    ensures ProcessNamespace(cluster, namespace, filterOpts).Ok? ==>
      err == None && diff == ProcessNamespace(cluster, namespace, filterOpts).value
    ensures ProcessNamespace(cluster, namespace, filterOpts).Err? ==>
      diff == [] && err == Some(ProcessNamespace(cluster, namespace, filterOpts).error)
    ensures cluster.pods(namespace).ListFailed? ==> diff == [] && err == Some(cluster.pods(namespace).err)
  {
    var refs, usedErr := RetrieveUsedCM(cluster, namespace);
    if usedErr.Some? {
      return [], usedErr;
    }

    var volumesCM := RemoveDuplicatesAndSort(refs.volumesCM);
    var volumesProjectedCM := RemoveDuplicatesAndSort(refs.volumesProjectedCM);
    var envCM := RemoveDuplicatesAndSort(refs.envCM);
    var envFromCM := RemoveDuplicatesAndSort(refs.envFromCM);
    var envFromContainerCM := RemoveDuplicatesAndSort(refs.envFromContainerCM);
    var envFromInitContainerCM := RemoveDuplicatesAndSort(refs.envFromInitContainerCM);

    var configMapNames, listErr := RetrieveConfigMapNames(cluster, namespace, filterOpts);
    if listErr.Some? {
      return [], listErr;
    }

    var usedConfigMaps: seq<string> := [];
    var slicesToAppend := [volumesCM, volumesProjectedCM, envCM, envFromCM, envFromContainerCM, envFromInitContainerCM];
    for k := 0 to |slicesToAppend|
      invariant usedConfigMaps == Flatten(slicesToAppend[..k])
    {
      FlattenSnoc(slicesToAppend, k);
      usedConfigMaps := usedConfigMaps + slicesToAppend[k];
    }
    assert slicesToAppend[..|slicesToAppend|] == slicesToAppend;
    diff := CalculateResourceDifference(usedConfigMaps, configMapNames);
    err := None;
  }

  /** The resource-kind key of the response, also passed to the deletion step. */
  const ResourceKind := "ConfigMap"

  type Response = map<string, map<string, seq<string>>>

  /** What GetUnusedConfigmaps records for one namespace: nothing when its
      processing fails, otherwise the difference, or with the delete flag the
      deletion step's residual (whether or not that step reported an error). */
  function Recorded(cluster: Cluster, namespace: string, filterOpts: FilterOptions, opts: Opts,
                    confirms: (string, string) -> bool): Result<seq<string>>
  {
    match ProcessNamespace(cluster, namespace, filterOpts)
    case Err(e) => Err(e)
    case Ok(diff) =>
      if opts.deleteFlag
      then Ok(DeleteResource(diff, namespace, ResourceKind, opts.noInteractive, confirms, cluster.deleteSucceeds).0)
      else Ok(diff)
  }

  /** The response after processing `namespaces` in order. */
  function ResponseOf(namespaces: seq<string>, cluster: Cluster, filterOpts: FilterOptions, opts: Opts,
                      confirms: (string, string) -> bool): Response
  {
    if |namespaces| == 0 then map[]
    else
      var namespace := namespaces[|namespaces| - 1];
      var prev := ResponseOf(namespaces[..|namespaces| - 1], cluster, filterOpts, opts, confirms);
      match Recorded(cluster, namespace, filterOpts, opts, confirms)
      case Err(_) => prev
      case Ok(names) => prev[namespace := map[ResourceKind := names]]
  }

  /** GetUnusedConfigmaps, up to the response map: the namespace list (from
      SetNamespaceList) is an input, and the operator's answers to the
      deletion prompts are `confirms`. */
  method GetUnusedConfigmaps(namespaces: seq<string>, filterOpts: FilterOptions, cluster: Cluster, opts: Opts,
                             confirms: (string, string) -> bool)
    returns (response: Response)
    ensures response == ResponseOf(namespaces, cluster, filterOpts, opts, confirms)
  {
    response := map[];
    for i := 0 to |namespaces|
      invariant response == ResponseOf(namespaces[..i], cluster, filterOpts, opts, confirms)
    {
      var namespace := namespaces[i];
      assert namespaces[..i + 1][..i] == namespaces[..i];
      var diff, err := ProcessNamespaceCM(cluster, namespace, filterOpts);
      if err.Some? {
        continue;
      }
      if opts.deleteFlag {
        var deleted := DeleteResource(diff, namespace, ResourceKind, opts.noInteractive, confirms, cluster.deleteSucceeds);
        diff := deleted.0;
      }
      var resourceMap := map[ResourceKind := diff];
      response := response[namespace := resourceMap];
    }
    assert namespaces[..|namespaces|] == namespaces;
  }
}
