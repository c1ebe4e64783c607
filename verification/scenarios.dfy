/** Concrete runs of the detector on small clusters. */
module ConfigMapScenarios {
  import opened Wrappers
  import opened Kube
  import opened Seqs
  import opened KorUtil
  import opened ConfigMaps
  import opened ConfigMapProps

  /** No label exclusion, no age restriction. */
  const KeepAll := FilterOptions(_ => false, _ => true)

  /** A pod whose one container reads a key of config map cm-a into its environment. */
  const AppPod := Pod("app", PodSpec([], [Container("main", [EnvVar("A", Some(EnvVarSource(Some("cm-a"))))], [], [])], []))

  const Ns1ConfigMaps := [ConfigMap("cm-a", map[], 0), ConfigMap("cm-b", map[], 0)]

  /** ns1 as above; namespace "broken" cannot list its pods; deletions succeed. */
  const Cluster1 := Cluster(
    ns => if ns == "broken" then ListFailed("forbidden") else if ns == "ns1" then Listed([AppPod]) else Listed([]),
    ns => if ns == "ns1" then Listed(Ns1ConfigMaps) else Listed([]),
    (ns, name) => true)

  /** Of two candidates, the used one is dropped and the other kept. */
  lemma DifferenceOfPair(used: seq<string>, a: string, b: string)
    requires a in used && b !in used
    ensures CalculateResourceDifference(used, [a, b]) == [b]
  {
    var all := [a, b];
    assert all[..1] == [a] && all[..1][..0] == [];
  }

  lemma Ns1Candidates(cms: seq<ConfigMap>)
    requires cms == Ns1ConfigMaps
    ensures Candidates(cms, KeepAll) == ["cm-a", "cm-b"]
  {
    assert cms[..1] == [cms[0]];
    assert cms[..1][..0] == [];
  }

  lemma Ns1UsesCmA(pods: seq<Pod>)
    requires pods == [AppPod]
    ensures "cm-a" in Flatten(DedupedBuckets(UsedCM(pods, "ns1")))
  {
    UsedMember(pods, "ns1", "cm-a");
    var c := AppPod.spec.containers[0];
    assert c.env[0] in c.env;
    assert EnvRefers(AppPod.spec.containers, "cm-a");
    assert AppPod in pods;
  }

  lemma Ns1LeavesCmB(pods: seq<Pod>)
    requires pods == [AppPod]
    ensures "cm-b" !in Flatten(DedupedBuckets(UsedCM(pods, "ns1")))
  {
    UsedMember(pods, "ns1", "cm-b");
    assert !ExemptIn("ns1", "cm-b");
    assert forall p :: p in pods ==> p == AppPod;
  }

  /** cm-a is referenced through an environment variable, cm-b by nothing. */
  lemma Ns1Unused(pods: seq<Pod>, cms: seq<ConfigMap>)
    requires pods == [AppPod] && cms == Ns1ConfigMaps
    ensures Unused(pods, cms, "ns1", KeepAll) == ["cm-b"]
  {
    Ns1Candidates(cms);
    Ns1UsesCmA(pods);
    Ns1LeavesCmB(pods);
    DifferenceOfPair(Flatten(DedupedBuckets(UsedCM(pods, "ns1"))), "cm-a", "cm-b");
  }

  /** An unreferenced aws-auth in kube-system is exempt. */
  lemma KubeSystemAwsAuth(cms: seq<ConfigMap>)
    requires cms == [ConfigMap("aws-auth", map[], 0)]
    ensures Unused([], cms, "kube-system", KeepAll) == []
  {
    ExemptNeverUnused([], cms, "kube-system", KeepAll);
    CandidatesMember(cms, KeepAll, "aws-auth");
  }

  lemma Cluster1Processed(cluster: Cluster)
    requires cluster == Cluster1
    ensures ProcessNamespace(cluster, "broken", KeepAll) == Err("forbidden")
    ensures ProcessNamespace(cluster, "ns1", KeepAll) == Ok(["cm-b"])
  {
    var pods := cluster.pods("ns1").items;
    var cms := cluster.configMaps("ns1").items;
    Ns1Unused(pods, cms);
  }

  /** Scanning "broken" then "ns1" when only "ns1" can be processed. */
  lemma ResponseOfBrokenThenNs1(namespaces: seq<string>, cluster: Cluster, opts: Opts,
                                confirms: (string, string) -> bool, names: seq<string>)
    requires namespaces == ["broken", "ns1"]
    requires ProcessNamespace(cluster, "broken", KeepAll).Err?
    requires Recorded(cluster, "ns1", KeepAll, opts, confirms) == Ok(names)
    ensures ResponseOf(namespaces, cluster, KeepAll, opts, confirms) == map["ns1" := map["ConfigMap" := names]]
  {
    var first := namespaces[..1];
    assert first == ["broken"] && first[..0] == [];
    assert Recorded(cluster, "broken", KeepAll, opts, confirms).Err?;
    assert ResponseOf(first, cluster, KeepAll, opts, confirms) == map[];
  }

  /** Without the delete flag ns1 records ["cm-b"]; "broken" gets no entry. */
  lemma Ns1Response(namespaces: seq<string>, cluster: Cluster, confirms: (string, string) -> bool)
    requires namespaces == ["broken", "ns1"] && cluster == Cluster1
    ensures ResponseOf(namespaces, cluster, KeepAll, Opts(false, false), confirms)
      == map["ns1" := map["ConfigMap" := ["cm-b"]]]
  {
    Cluster1Processed(cluster);
    ResponseOfBrokenThenNs1(namespaces, cluster, Opts(false, false), confirms, ["cm-b"]);
  }

  /** With the delete flag, non-interactive and a succeeding deletion, ns1
      records an empty list. */
  lemma Ns1ResponseAfterDeletion(namespaces: seq<string>, cluster: Cluster, opts: Opts,
                                 confirms: (string, string) -> bool)
    requires namespaces == ["broken", "ns1"] && cluster == Cluster1 && opts == Opts(true, true)
    ensures ResponseOf(namespaces, cluster, KeepAll, opts, confirms) == map["ns1" := map["ConfigMap" := []]]
  {
    Cluster1Processed(cluster);
    var diff := ProcessNamespace(cluster, "ns1", KeepAll).value;
    NonInteractiveDeletesAll(diff, "ns1", ResourceKind, confirms, cluster.deleteSucceeds);
    ResponseOfBrokenThenNs1(namespaces, cluster, opts, confirms, []);
  }

  const ReversedConfigMaps := [ConfigMap("cm-b", map[], 0), ConfigMap("cm-a", map[], 0)]

  lemma ReversedCandidates(cms: seq<ConfigMap>)
    requires cms == ReversedConfigMaps
    ensures Candidates(cms, KeepAll) == ["cm-b", "cm-a"]
  {
    assert cms[..1] == [cms[0]];
    assert cms[..1][..0] == [];
  }

  lemma NoPodsUseNothing(x: string)
    requires x != "kube-root-ca.crt"
    ensures x !in Flatten(DedupedBuckets(UsedCM([], "ns1")))
  {
    UsedMember([], "ns1", x);
    assert !ExemptIn("ns1", x);
  }

  /** The difference keeps the listing order and does not sort: a listing of
      cm-b before cm-a, neither referenced, is reported in that order. */
  lemma UnsortedListingKeepsOrder(cms: seq<ConfigMap>)
    requires cms == ReversedConfigMaps
    ensures Unused([], cms, "ns1", KeepAll) == ["cm-b", "cm-a"]
  {
    ReversedCandidates(cms);
    NoPodsUseNothing("cm-a");
    NoPodsUseNothing("cm-b");
    var cands := ["cm-b", "cm-a"];
    assert cands[..1] == ["cm-b"] && cands[..1][..0] == [];
  }
}
