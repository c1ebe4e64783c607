/** What the config-map detector's results mean: which names each list
    collects, which config maps are candidates, when a name is reported
    unused, and what the response holds per namespace. */
module ConfigMapProps {
  import opened Wrappers
  import opened Kube
  import opened Seqs
  import opened StringOrder
  import opened KorUtil
  import opened ConfigMaps

  // Ways a pod refers to config map x.

  predicate VolumeRefers(p: Pod, x: string)
  {
    exists v :: v in p.spec.volumes && v.configMap == Some(x)
  }

  predicate ProjectionRefers(p: Pod, x: string)
  {
    exists v, s :: v in p.spec.volumes && v.projected.Some? && s in v.projected.value.sources
      && s.configMap == Some(x)
  }

  predicate EnvRefers(cs: seq<Container>, x: string)
  {
    exists c, e :: c in cs && e in c.env && e.valueFrom.Some? && e.valueFrom.value.configMapKeyRef == Some(x)
  }

  predicate EnvFromRefers(cs: seq<Container>, x: string)
  {
    exists c, e :: c in cs && e in c.envFrom && e.configMapRef == Some(x)
  }

  /** An init container mounts a volume named x at a non-empty path. */
  predicate InitMountNamed(p: Pod, x: string)
  {
    exists c, m :: c in p.spec.initContainers && m in c.volumeMounts && m.name == x && x != "" && m.mountPath != ""
  }

  predicate ExemptIn(namespace: string, x: string)
  {
    exists r :: r in ExceptionConfigMaps && r.resourceName == x && (r.namespace == namespace || r.namespace == "*")
  }

  /** x counts as used in `namespace`: some pod refers to it in one of the
      ways the detector looks at, or it is exempt there. */
  predicate Referenced(pods: seq<Pod>, namespace: string, x: string)
  {
    || (exists p :: p in pods && (
          || VolumeRefers(p, x) || ProjectionRefers(p, x)
          || EnvRefers(p.spec.containers, x) || EnvFromRefers(p.spec.containers, x)
          || InitMountNamed(p, x) || EnvRefers(p.spec.initContainers, x)))
    || ExemptIn(namespace, x)
  }

  // Reference extraction, list by list.

  lemma {:induction false} ExemptedMember(exceptions: seq<ExceptionResource>, namespace: string, x: string)
    ensures x in Exempted(exceptions, namespace) <==>
      exists r :: r in exceptions && r.resourceName == x && (r.namespace == namespace || r.namespace == "*")
  {
    if |exceptions| > 0 {
      var init := exceptions[..|exceptions| - 1];
      ExemptedMember(init, namespace, x);
      assert exceptions == init + [exceptions[|exceptions| - 1]];
    }
  }

  /** kube-root-ca.crt is exempt in every namespace, aws-auth only in kube-system. */
  lemma ExemptedNames(namespace: string)
    ensures Exempted(ExceptionConfigMaps, namespace) ==
      if namespace == "kube-system" then ["aws-auth", "kube-root-ca.crt"] else ["kube-root-ca.crt"]
  {
    var first := ExceptionConfigMaps[..1];
    assert first[..0] == [];
    assert Exempted(first, namespace) == if namespace == "kube-system" then ["aws-auth"] else [];
  }

  lemma VolumesCMMember(pods: seq<Pod>, namespace: string, x: string)
    ensures x in UsedCM(pods, namespace).volumesCM <==>
      (exists p :: p in pods && (VolumeRefers(p, x) || InitMountNamed(p, x))) || ExemptIn(namespace, x)
  {
    ConcatMapMember(pods, PodVolumesCM, x);
    ExemptedMember(ExceptionConfigMaps, namespace, x);
    forall p | p in pods
      ensures x in PodVolumesCM(p) <==> VolumeRefers(p, x) || InitMountNamed(p, x)
    {
      ConcatMapMember(p.spec.volumes, VolumeCM, x);
      ConcatMapMember(p.spec.initContainers, ContainerMountCM, x);
      forall c | c in p.spec.initContainers {
        ConcatMapMember(c.volumeMounts, MountCM, x);
      }
    }
  }

  lemma ProjectedCMMember(pods: seq<Pod>, namespace: string, x: string)
    ensures x in UsedCM(pods, namespace).volumesProjectedCM <==> exists p :: p in pods && ProjectionRefers(p, x)
  {
    ConcatMapMember(pods, PodProjectedCM, x);
    forall p | p in pods
      ensures x in PodProjectedCM(p) <==> ProjectionRefers(p, x)
    {
      ConcatMapMember(p.spec.volumes, VolumeProjectedCM, x);
      forall v | v in p.spec.volumes && v.projected.Some? {
        ConcatMapMember(v.projected.value.sources, ProjectionCM, x);
      }
    }
  }

  lemma ContainersEnvMember(cs: seq<Container>, x: string)
    ensures x in ConcatMap(cs, ContainerEnvCM) <==> EnvRefers(cs, x)
  {
    ConcatMapMember(cs, ContainerEnvCM, x);
    forall c | c in cs {
      ConcatMapMember(c.env, EnvCM, x);
    }
  }

  lemma EnvCMMember(pods: seq<Pod>, namespace: string, x: string)
    ensures x in UsedCM(pods, namespace).envCM <==> exists p :: p in pods && EnvRefers(p.spec.containers, x)
  {
    ConcatMapMember(pods, PodEnvCM, x);
    forall p | p in pods {
      ContainersEnvMember(p.spec.containers, x);
    }
  }

  lemma InitEnvCMMember(pods: seq<Pod>, namespace: string, x: string)
    ensures x in UsedCM(pods, namespace).envFromInitContainerCM <==>
      exists p :: p in pods && EnvRefers(p.spec.initContainers, x)
  {
    ConcatMapMember(pods, PodInitEnvCM, x);
    forall p | p in pods {
      ContainersEnvMember(p.spec.initContainers, x);
    }
  }

  /** Both envFrom lists hold exactly the envFrom references, and are equal. */
  lemma EnvFromCMMember(pods: seq<Pod>, namespace: string, x: string)
    ensures UsedCM(pods, namespace).envFromCM == UsedCM(pods, namespace).envFromContainerCM
    ensures x in UsedCM(pods, namespace).envFromCM <==> exists p :: p in pods && EnvFromRefers(p.spec.containers, x)
  {
    ConcatMapMember(pods, PodEnvFromCM, x);
    forall p | p in pods
      ensures x in PodEnvFromCM(p) <==> EnvFromRefers(p.spec.containers, x)
    {
      ConcatMapMember(p.spec.containers, ContainerEnvFromCM, x);
      forall c | c in p.spec.containers {
        ConcatMapMember(c.envFrom, EnvFromCM, x);
      }
    }
  }

  /** Deduplicating and concatenating the six lists keeps exactly their names. */
  lemma DedupedMember(refs: UsedRefs, x: string)
    ensures x in Flatten(DedupedBuckets(refs)) <==>
      || x in refs.volumesCM || x in refs.volumesProjectedCM || x in refs.envCM
      || x in refs.envFromCM || x in refs.envFromContainerCM || x in refs.envFromInitContainerCM
  {
    var b := DedupedBuckets(refs);
    FlattenMember(b, x);
    assert (exists s :: s in b && x in s) <==>
      x in b[0] || x in b[1] || x in b[2] || x in b[3] || x in b[4] || x in b[5];
  }

  /** The concatenated, deduplicated lists mention exactly the referenced names. */
  lemma UsedMember(pods: seq<Pod>, namespace: string, x: string)
    ensures x in Flatten(DedupedBuckets(UsedCM(pods, namespace))) <==> Referenced(pods, namespace, x)
  {
    DedupedMember(UsedCM(pods, namespace), x);
    VolumesCMMember(pods, namespace, x);
    ProjectedCMMember(pods, namespace, x);
    EnvCMMember(pods, namespace, x);
    EnvFromCMMember(pods, namespace, x);
    InitEnvCMMember(pods, namespace, x);
  }

  // Candidate filtering.

  lemma {:induction false} CandidatesMember(cms: seq<ConfigMap>, filterOpts: FilterOptions, x: string)
    ensures x in Candidates(cms, filterOpts) <==> exists cm :: cm in cms && cm.name == x && Keep(cm, filterOpts)
  {
    if |cms| > 0 {
      var init := cms[..|cms| - 1];
      CandidatesMember(init, filterOpts, x);
      assert cms == init + [cms[|cms| - 1]];
    }
  }

  /** Only an explicit kor/used=true label forces retention: with another
      value, or without the label (which reads as ""), the other two filters
      alone decide, and with it set to "true" the config map is never kept. */
  lemma KeepMarkedUsed(cm: ConfigMap, filterOpts: FilterOptions)
    ensures LabelValue(cm.labels, "kor/used") != "true" ==>
      (Keep(cm, filterOpts) <==>
         !filterOpts.hasExcludedLabel(cm.labels) && filterOpts.hasIncludedAge(cm.creationTimestamp))
    ensures "kor/used" in cm.labels && cm.labels["kor/used"] == "true" ==> !Keep(cm, filterOpts)
  {
  }

  /** Config maps listed in strictly ascending name order. */
  predicate NamesStrictlySorted(cms: seq<ConfigMap>)
  {
    forall i, j :: 0 <= i < j < |cms| ==> Less(cms[i].name, cms[j].name)
  }

  /** Filtering keeps the listing order. */
  lemma {:induction false} CandidatesSorted(cms: seq<ConfigMap>, filterOpts: FilterOptions)
    requires NamesStrictlySorted(cms)
    ensures StrictlySorted(Candidates(cms, filterOpts))
  {
    if |cms| > 0 {
      var init := cms[..|cms| - 1];
      var last := cms[|cms| - 1];
      CandidatesSorted(init, filterOpts);
      var prev := Candidates(init, filterOpts);
      forall i | 0 <= i < |prev| ensures Less(prev[i], last.name) {
        CandidatesMember(init, filterOpts, prev[i]);
        var cm :| cm in init && cm.name == prev[i] && Keep(cm, filterOpts);
        var k :| 0 <= k < |init| && init[k] == cm;
        assert cms[k] == cm;
      }
    }
  }

  // The unused set of one namespace.

  /** A name is reported unused exactly when some kept config map has it and
      nothing refers to it. */
  lemma UnusedMember(pods: seq<Pod>, cms: seq<ConfigMap>, namespace: string, filterOpts: FilterOptions, x: string)
    ensures x in Unused(pods, cms, namespace, filterOpts) <==>
      (exists cm :: cm in cms && cm.name == x && Keep(cm, filterOpts)) && !Referenced(pods, namespace, x)
  {
    UsedMember(pods, namespace, x);
    CandidatesMember(cms, filterOpts, x);
  }

  /** A config map that is label-excluded, outside the age window or marked
      kor/used=true (and has no kept namesake) is never reported unused. */
  lemma FilteredNeverUnused(pods: seq<Pod>, cms: seq<ConfigMap>, namespace: string, filterOpts: FilterOptions, x: string)
    requires forall cm :: cm in cms && cm.name == x ==>
      || filterOpts.hasExcludedLabel(cm.labels)
      || !filterOpts.hasIncludedAge(cm.creationTimestamp)
      || LabelValue(cm.labels, "kor/used") == "true"
    ensures x !in Unused(pods, cms, namespace, filterOpts)
  {
    UnusedMember(pods, cms, namespace, filterOpts, x);
  }

  /** kube-root-ca.crt is never reported unused; aws-auth never in kube-system. */
  lemma ExemptNeverUnused(pods: seq<Pod>, cms: seq<ConfigMap>, namespace: string, filterOpts: FilterOptions)
    ensures "kube-root-ca.crt" !in Unused(pods, cms, namespace, filterOpts)
    ensures namespace == "kube-system" ==> "aws-auth" !in Unused(pods, cms, namespace, filterOpts)
  {
    UnusedMember(pods, cms, namespace, filterOpts, "kube-root-ca.crt");
    UnusedMember(pods, cms, namespace, filterOpts, "aws-auth");
    assert ExceptionConfigMaps[1].resourceName == "kube-root-ca.crt";
    assert ExceptionConfigMaps[0].resourceName == "aws-auth";
  }

  /** When the listing comes in strictly ascending name order, the unused
      set is sorted ascending with no duplicates. */
  lemma UnusedSorted(pods: seq<Pod>, cms: seq<ConfigMap>, namespace: string, filterOpts: FilterOptions)
    requires NamesStrictlySorted(cms)
    ensures StrictlySorted(Unused(pods, cms, namespace, filterOpts))
    ensures var u := Unused(pods, cms, namespace, filterOpts);
      forall i, j :: 0 <= i < j < |u| ==> u[i] != u[j]
  {
    CandidatesSorted(cms, filterOpts);
    var u := Unused(pods, cms, namespace, filterOpts);
    forall i, j | 0 <= i < j < |u|
      ensures u[i] != u[j]
    {
      StrictlySortedDistinct(u, i, j);
    }
  }

  // The response over all namespaces.

  /** A namespace has an entry exactly when it was scanned and its processing
      succeeded; failures elsewhere do not matter. */
  lemma {:induction false} ResponseKeys(namespaces: seq<string>, cluster: Cluster, filterOpts: FilterOptions,
                                        opts: Opts, confirms: (string, string) -> bool, ns: string)
    ensures ns in ResponseOf(namespaces, cluster, filterOpts, opts, confirms) <==>
      ns in namespaces && ProcessNamespace(cluster, ns, filterOpts).Ok?
  {
    if |namespaces| > 0 {
      var init := namespaces[..|namespaces| - 1];
      ResponseKeys(init, cluster, filterOpts, opts, confirms, ns);
      assert namespaces == init + [namespaces[|namespaces| - 1]];
    }
  }

  /** Each entry maps the single key "ConfigMap" to the namespace's unused
      names, replaced by the deletion residual when the delete flag is set. */
  lemma {:induction false} ResponseEntry(namespaces: seq<string>, cluster: Cluster, filterOpts: FilterOptions,
                                         opts: Opts, confirms: (string, string) -> bool, ns: string)
    requires ns in ResponseOf(namespaces, cluster, filterOpts, opts, confirms)
    ensures ProcessNamespace(cluster, ns, filterOpts).Ok?
    ensures ResponseOf(namespaces, cluster, filterOpts, opts, confirms)[ns].Keys == {"ConfigMap"}
    ensures ResponseOf(namespaces, cluster, filterOpts, opts, confirms)[ns]["ConfigMap"] ==
      var diff := ProcessNamespace(cluster, ns, filterOpts).value;
      if opts.deleteFlag
      then DeleteResource(diff, ns, "ConfigMap", opts.noInteractive, confirms, cluster.deleteSucceeds).0
      else diff
  {
    var init := namespaces[..|namespaces| - 1];
    var last := namespaces[|namespaces| - 1];
    if ns != last || Recorded(cluster, last, filterOpts, opts, confirms).Err? {
      ResponseEntry(init, cluster, filterOpts, opts, confirms, ns);
    }
  }

  /** Without prompts, when every API deletion succeeds nothing remains and
      no error is reported. */
  lemma {:induction false} NonInteractiveDeletesAll(diff: seq<string>, namespace: string, resourceType: string,
                                                    confirms: (string, string) -> bool,
                                                    deleteSucceeds: (string, string) -> bool)
    requires forall x :: x in diff ==> deleteSucceeds(namespace, x)
    ensures DeleteResource(diff, namespace, resourceType, true, confirms, deleteSucceeds) == ([], None)
  {
    if |diff| > 0 {
      var init := diff[..|diff| - 1];
      assert forall x :: x in init ==> x in diff;
      assert diff[|diff| - 1] in diff;
      NonInteractiveDeletesAll(init, namespace, resourceType, confirms, deleteSucceeds);
    }
  }

  /** With the delete flag, what is recorded is among the unused names and
      holds none that the deletion step removed. */
  lemma ResponseAfterDeletion(namespaces: seq<string>, cluster: Cluster, filterOpts: FilterOptions,
                              opts: Opts, confirms: (string, string) -> bool, ns: string, x: string)
    requires opts.deleteFlag && ns in namespaces
    requires ProcessNamespace(cluster, ns, filterOpts).Ok?
    ensures var response := ResponseOf(namespaces, cluster, filterOpts, opts, confirms);
      && ns in response && "ConfigMap" in response[ns]
      && (x in response[ns]["ConfigMap"] <==>
            x in ProcessNamespace(cluster, ns, filterOpts).value
            && !Removed(ns, x, opts.noInteractive, confirms, cluster.deleteSucceeds))
  {
    ResponseKeys(namespaces, cluster, filterOpts, opts, confirms, ns);
    ResponseEntry(namespaces, cluster, filterOpts, opts, confirms, ns);
  }
}
