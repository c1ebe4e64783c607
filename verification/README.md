# kor: unused config-map detection, modelled in Dafny

kor scans a Kubernetes cluster for config maps that no pod uses. This
project models the config-map instance of that detector
(`pkg/kor/confimgmaps.go`). The model covers four steps:

- **Reference extraction** (`retrieveUsedCM`). The pods of a namespace are walked to
  build six name lists: volumes, projected sources, container env, container envFrom
  (twice), and init-container env. Init-container volume-mount names also go into the
  volumes list. Then the hard-coded exemptions that apply to the namespace are appended.
- **Candidate filtering** (`retrieveConfigMapNames`). A config map is dropped if it has
  an excluded label, falls outside the age window, or carries `kor/used=true`.
- **Per-namespace difference** (`processNamespaceCM`). Each list is deduplicated and
  sorted, the six lists are concatenated, and the result is subtracted from the candidates.
- **Orchestration** (`GetUnusedConfigmaps`). Each namespace is processed in turn. A
  namespace that fails is skipped. With the delete flag, the deletion residual replaces
  the difference. The result is recorded under `response[ns]["ConfigMap"]`.

The source's loops become methods with loop invariants (`configmaps.dfy`). Each method
is proved equal to a specification function. The lemmas in `configmaps_props.dfy` state
what those functions mean: which pod fields put a name into which list, when a name is
reported unused, and what the response holds. `scenarios.dfy` works through concrete
clusters.

The cluster client is a value of type `Kube.Cluster`. For each namespace it gives the
result of the pod List call and of the config-map List call: either the items or an
error. It also says whether deleting a given config map succeeds. The namespace list is
an input.

Five helpers live in other files of kor. Their source is not part of this model:
`RemoveDuplicatesAndSort`, `CalculateResourceDifference`, `DeleteResource`,
`HasExcludedLabel` and `HasIncludedAge`. Each gets a definition that meets the behaviour
the detector relies on. The first three are in module `KorUtil`; the two filters are
the predicates of `FilterOptions`:

- dedup-and-sort returns the same set of names, strictly ascending;
- the difference returns the candidates, in listing order, whose name is not in the used
  list (so a strictly sorted listing gives a strictly sorted difference);
- deletion returns the names it did not delete;
- the two filters are arbitrary predicates on a config map's labels and creation time.

Which properties rest on which of these definitions:

- dedup-and-sort: `DedupedMember`, and through it `UsedMember`, `UnusedMember`,
  `FilteredNeverUnused`, `ExemptNeverUnused` and the scenarios;
- the difference: `UnusedMember` and everything built on it, plus `UnusedSorted`
  (which uses the order clause);
- deletion: `ResponseEntry`, `ResponseAfterDeletion`, `NonInteractiveDeletesAll`,
  `Ns1ResponseAfterDeletion`;
- the filters: none; every property holds for any filter predicates.

Two facts about the code are worth knowing:

- `processNamespaceCM` returns `CalculateResourceDifference(usedConfigMaps,
  configMapNames)` (line 137). That difference keeps the order the config maps were
  listed in; nothing sorts it. `ConfigMapProps.UnusedSorted` proves the unused set
  sorted and duplicate-free when the listing is strictly sorted by name.
  `ConfigMapScenarios.UnsortedListingKeepsOrder` shows an unsorted listing giving an
  unsorted result.
- Line 155 assigns the deletion residual to `diff` whether or not `DeleteResource`
  returns an error. The residual is what gets recorded in both cases.

## Model

| member | source | states |
|---|---|---|
| ConfigMaps.CollectProjected | pkg/kor/confimgmaps.go:38-44 | appends the name of every projected source that has a ConfigMap, in order; sources without one add nothing |
| ConfigMaps.CollectVolumes | pkg/kor/confimgmaps.go:34-45 | volumes with a ConfigMap source add that name to volumesCM; projected volumes add their sources' names to volumesProjectedCM |
| ConfigMaps.CollectEnv | pkg/kor/confimgmaps.go:47-51 | env entries with ValueFrom.ConfigMapKeyRef add the ref's name; a missing ValueFrom or ref adds nothing |
| ConfigMaps.CollectEnvFrom | pkg/kor/confimgmaps.go:52-61 | envFrom entries with a ConfigMapRef add its name (the same loop body, used for both envFrom lists) |
| ConfigMaps.CollectContainers | pkg/kor/confimgmaps.go:46-62 | per container, env refs go to envCM and the envFrom refs go to both envFromCM and envFromContainerCM |
| ConfigMaps.CollectMounts | pkg/kor/confimgmaps.go:64-68 | an init-container mount with non-empty Name and MountPath adds its mount Name; otherwise nothing |
| ConfigMaps.CollectInitContainers | pkg/kor/confimgmaps.go:63-74 | init-container mount names go to volumesCM, init-container env refs to envFromInitContainerCM |
| ConfigMaps.CollectExempted | pkg/kor/confimgmaps.go:77-81 | appends each exemption whose namespace is the scanned one or "*" |
| ConfigMaps.CollectPod | pkg/kor/confimgmaps.go:33-75 | one pod's contributions are appended to each of the six lists |
| ConfigMaps.RetrieveUsedCM | pkg/kor/confimgmaps.go:20-84 | a failed pod listing gives six empty lists and that error; otherwise no error and exactly the lists UsedCM describes; the two envFrom lists are always equal |
| ConfigMaps.RetrieveConfigMapNames | pkg/kor/confimgmaps.go:86-111 | a failed listing gives no names and the error; otherwise the kept config maps' names in listing order |
| ConfigMaps.ProcessNamespaceCM | pkg/kor/confimgmaps.go:113-140 | a pod-listing error is returned first (even if config-map listing also fails), then a config-map-listing error; otherwise the candidates that the deduplicated lists do not mention |
| ConfigMaps.GetUnusedConfigmaps | pkg/kor/confimgmaps.go:142-166 | the response after processing every namespace in order, as ResponseOf defines it |
| ConfigMapProps.ExemptedMember | pkg/kor/confimgmaps.go:77-81 | an exemption name is appended exactly when its namespace equals the scanned namespace or is "*" |
| ConfigMapProps.ExemptedNames | pkg/kor/confimgmaps.go:15-18 | kube-root-ca.crt is appended for every namespace, aws-auth only for kube-system |
| ConfigMapProps.VolumesCMMember | pkg/kor/confimgmaps.go:34-81 | a name is in volumesCM iff a pod volume has that ConfigMap source, or an init container mounts a volume of that name at a non-empty path, or it is exempt in the namespace |
| ConfigMapProps.ProjectedCMMember | pkg/kor/confimgmaps.go:38-44 | a name is in volumesProjectedCM iff some projected source of some pod volume has that ConfigMap |
| ConfigMapProps.ContainersEnvMember | pkg/kor/confimgmaps.go:47-51 | a name is collected from a container list's env iff some env entry has a ValueFrom with that ConfigMapKeyRef |
| ConfigMapProps.EnvCMMember | pkg/kor/confimgmaps.go:46-51 | a name is in envCM iff some container env entry refers to it through ValueFrom.ConfigMapKeyRef |
| ConfigMapProps.EnvFromCMMember | pkg/kor/confimgmaps.go:52-61 | envFromCM and envFromContainerCM are identical, and hold a name iff some container envFrom entry has that ConfigMapRef |
| ConfigMapProps.InitEnvCMMember | pkg/kor/confimgmaps.go:69-73 | a name is in envFromInitContainerCM iff some init-container env entry refers to it through ValueFrom.ConfigMapKeyRef |
| ConfigMapProps.DedupedMember | pkg/kor/confimgmaps.go:119-136 | deduplicating, sorting and concatenating the six lists keeps exactly the names that occur in any of them |
| ConfigMapProps.UsedMember | pkg/kor/confimgmaps.go:119-136 | the concatenated deduplicated lists hold exactly the names referenced in any of the six ways or exempt |
| ConfigMapProps.CandidatesMember | pkg/kor/confimgmaps.go:92-110 | a name is a candidate iff some listed config map with that name is not label-excluded, has an included age, and its kor/used label is not "true" |
| ConfigMapProps.KeepMarkedUsed | pkg/kor/confimgmaps.go:104-106 | a kor/used label set to "true" always drops the config map; with the label missing (read as "") or set to anything else, the label and age filters alone decide |
| ConfigMapProps.CandidatesSorted | pkg/kor/confimgmaps.go:92-110 | filtering keeps listing order: a listing sorted strictly by name yields strictly sorted candidates |
| ConfigMapProps.UnusedMember | pkg/kor/confimgmaps.go:113-138 | a name is reported unused iff some kept config map has it and no pod refers to it and it is not exempt |
| ConfigMapProps.FilteredNeverUnused | pkg/kor/confimgmaps.go:95-106 | a config map that is label-excluded, outside the age window or marked kor/used=true (with no kept namesake) is never reported unused |
| ConfigMapProps.ExemptNeverUnused | pkg/kor/confimgmaps.go:15-18 | kube-root-ca.crt is never reported unused, and aws-auth never in kube-system |
| ConfigMapProps.UnusedSorted | pkg/kor/confimgmaps.go:119-137 | with a listing sorted strictly by name, the unused set is ascending and free of duplicates |
| ConfigMapProps.ResponseKeys | pkg/kor/confimgmaps.go:147-166 | a namespace has a response entry iff it was scanned and its own processing succeeded; a failing namespace neither gets an entry nor affects the others |
| ConfigMapProps.ResponseEntry | pkg/kor/confimgmaps.go:154-165 | an entry has the single key "ConfigMap", mapped to the unchanged difference without the delete flag and to the deletion residual with it |
| ConfigMapProps.NonInteractiveDeletesAll | pkg/kor/confimgmaps.go:154-158 | non-interactive deletion in which every API delete succeeds leaves no residual and reports no error |
| ConfigMapProps.ResponseAfterDeletion | pkg/kor/confimgmaps.go:154-158 | with the delete flag the recorded names are the unused names that the deletion step did not remove |
| KorUtil.RemoveDuplicatesAndSort | pkg/kor/confimgmaps.go:119-124 | the result is strictly ascending (so duplicate-free) and holds exactly the input's names |
| KorUtil.CalculateResourceDifference | pkg/kor/confimgmaps.go:137 | the result holds exactly the candidates not in the used list, is no longer than the candidates, and is strictly sorted whenever the candidates are |
| KorUtil.DeleteResource | pkg/kor/confimgmaps.go:155 | the residual holds exactly the names not both confirmed (or non-interactive) and successfully deleted; an error is reported iff some confirmed deletion failed |
| ConfigMapScenarios.Ns1Unused | pkg/kor/confimgmaps.go:113-138 | cm-a, referenced by a container env var, is used; the unreferenced cm-b is the whole unused set |
| ConfigMapScenarios.KubeSystemAwsAuth | pkg/kor/confimgmaps.go:77-81 | an unreferenced aws-auth in kube-system is not reported |
| ConfigMapScenarios.Ns1UsesCmA | pkg/kor/confimgmaps.go:46-51 | a container env var read from cm-a puts cm-a among the used names |
| ConfigMapScenarios.Ns1LeavesCmB | pkg/kor/confimgmaps.go:113-136 | a config map no pod refers to and not exempt is not among the used names |
| ConfigMapScenarios.ResponseOfBrokenThenNs1 | pkg/kor/confimgmaps.go:147-165 | scanning a failing namespace and then ns1 records ns1's result alone |
| ConfigMapScenarios.UnsortedListingKeepsOrder | pkg/kor/confimgmaps.go:126-138 | a listing of cm-b before cm-a, neither referenced, is reported as [cm-b, cm-a]: the output keeps listing order and is not sorted |
| ConfigMapScenarios.Ns1Response | pkg/kor/confimgmaps.go:147-166 | without the delete flag the response is exactly {ns1: {ConfigMap: [cm-b]}}; the namespace whose pod listing fails has no entry |
| ConfigMapScenarios.Ns1ResponseAfterDeletion | pkg/kor/confimgmaps.go:154-165 | with delete, non-interactive and a succeeding deletion, ns1 records an empty list |

## Left out

- Cluster client calls (lines 28 and 87) are not made: each namespace's List result (items or error) is an input, and there is no network, context or list options.
- SetNamespaceList (line 144) is not part of this model; the namespace list is an input.
- HasExcludedLabel and HasIncludedAge (lines 95 and 100) are not part of this model. Selector parsing and the clock are outside it, so each becomes a predicate in FilterOptions. Both helpers' error results are discarded by the code (`excluded, _ :=` and `included, _ :=`), so they have no counterpart.
- DeleteResource (line 155) is not part of this model. The interactive prompt and the API delete become two per-name predicates (`confirms`, `Cluster.deleteSucceeds`), and the error message text is not modelled.
- GetUnusedConfigmaps: returns the response map, not the formatted string. FormatOutput, the output buffer, json.MarshalIndent and its error path, unusedResourceFormatter, and the stderr and stdout messages (lines 150, 156, 159-161, 168-178) are output rendering and I/O.
- The OIDC auth plugin import (line 12) is wiring only.
- Go's distinction between a nil slice and an empty slice is not kept: both are `[]`.
- StringOrder.Less orders strings by character code. Go's sort.Strings orders by UTF-8 bytes, which gives the same order for valid strings.
- ConfigMapProps.UnusedSorted: the unused set is proved sorted and duplicate-free only when the config-map listing is strictly sorted by name, because the code keeps listing order (ConfigMapScenarios.UnsortedListingKeepsOrder shows the unsorted case).
