# Flink operator web UI: spec merge, gateway policy and dashboard projection

This project models the core of a small dashboard for Apache Flink jobs run
by the Flink Kubernetes Operator as `FlinkDeployment` custom resources.
The core has three parts.

- **Spec merge.** `patchFlinkDeployment` reads the current resource. It
  spreads the patch's `spec` over the current `spec`, and merges the `job`
  sub-object one level deeper. Then it sends the whole result back.
  `suspendFlinkDeployment` and `resumeFlinkDeployment` are fixed patches
  that name only `spec.job.state`.
- **Gateway policy.** Credentials are resolved in-cluster first, with the
  default kubeconfig as fallback. A failed list call becomes an empty list.
  A failed get or patch is rethrown. A credential failure escapes from
  every operation, listing included.
- **Dashboard projection.** This covers the job state and lifecycle state
  shown for each row, with their `'N/A'` defaults, and the case-insensitive
  status colour. It also covers the Resume/Suspend choice, the `default`
  namespace, the `namespace/name` row key and the `loading` key of
  `handleAction`.

Modules, one per source file, plus a shared helper module:

- `FlinkTypes` (`flink_types.dfy`) holds the resource types. `spec` is a JSON object (`map<string, Value>`), because the merge works on it key by key. `IsSpec` states the shape the interface gives the keys it names. Metadata and status are typed records with optional fields.
- `SpecMerge` (`spec_merge.dfy`) holds the merge as a pure function, with its preservation, idempotence and suspend/resume laws. `WithJobField` is an independent reference definition of "set exactly one job field". The merge is proved equal to it for the fixed patches.
- `KubeClient` (`kube_client.dfy`) holds the credential resolver and the list/get/patch/suspend/resume operations as methods. Each call into the Kubernetes client library is an outcome taken from an `Environment` value. Each operation also returns the sequence of library calls it made.
- `DeploymentTable` (`deployment_table.dfy`) holds the row projection and the action choice. It also holds a `Table` class whose `loading` field is set by `handleAction` and cleared in its `finally`.
- `Outcomes` (`outcomes.dfy`) is the shared helper module. It matches no source file and holds `Option` and `Result`.

Behaviour of the code worth noting:

- A credential failure escapes even from listing, because the client is built outside the `try`.
- Credentials are resolved afresh on every call, twice during a patch: once for the patch's own client and once inside the read.
- The merged resource is sent through the generic client's `patch`. There is no raw HTTPS path, no content-type choice and no `NotFound` error of the module's own.
- A missing resource surfaces as whatever error the library throws.

## Model

| member | source | states |
|---|---|---|
| `FlinkTypes.DesiredState` | types/flink.ts:20-28 | the desired state is `job.state` exactly when `job` is an object holding `state`, and absent otherwise; for a resource of the declared shape it is absent, `'running'` or `'suspended'` |
| `FlinkTypes.IsSpec` | types/flink.ts:2-31 | the `FlinkDeploymentSpec` interface: each named key, when present, has its declared type, and `job.state` is `'running'` or `'suspended'`; its properties are stated in `EverySpecFieldOptional`, `MergePreservesShape` and `StatePatchesAreSpecs` |
| `FlinkTypes.EverySpecFieldOptional` | types/flink.ts:2-31 | the empty spec, a spec whose job is empty and a spec with only `image` all have the declared shape, and the last two have no desired state |
| `SpecMerge.MergeSpec` | lib/kubernetes.ts:89-95 | patch keys overwrite top-level spec keys wholesale, unnamed keys are kept, `job` is always an object, and job keys merge one level deeper with the patch winning |
| `SpecMerge.Merge` | lib/kubernetes.ts:87-97 | the merged resource keeps `apiVersion`, `kind`, `metadata` and `status`; only `spec` is rebuilt |
| `SpecMerge.StatePatch` | lib/kubernetes.ts:112-132 | the fixed patch names only `spec.job`, and its job names only `state` |
| `SpecMerge.SuspendPatch` | lib/kubernetes.ts:112-118 | the suspend patch has the spec shape and desires `'suspended'` |
| `SpecMerge.ResumePatch` | lib/kubernetes.ts:126-132 | the resume patch has the spec shape and desires `'running'` |
| `SpecMerge.MergeAlwaysHasJob` | lib/kubernetes.ts:91-95 | the merged spec always has `job`, and it is `{}` when neither the current spec nor the patch has a job object |
| `SpecMerge.MergeIdempotent` | lib/kubernetes.ts:87-97 | merging the same patch into the merged resource gives it back unchanged |
| `SpecMerge.StatePatchSetsOnlyState` | lib/kubernetes.ts:89-95 | merging a patch that names only `spec.job.state` equals setting exactly that one field |
| `SpecMerge.WithJobFieldPreserves` | lib/kubernetes.ts:92-95 | setting one job field keeps every other spec key and every other job key, and adds only `job` and that field |
| `SpecMerge.SuspendThenResume` | lib/kubernetes.ts:108-133 | suspend then resume equals resume alone; `job.state` is `'running'` and all other spec fields, job fields, metadata and status are as before either call |
| `SpecMerge.MergePreservesShape` | lib/kubernetes.ts:87-97 | a patch of the declared spec shape merged into a spec of that shape gives a spec of that shape |
| `SpecMerge.StatePatchesAreSpecs` | lib/kubernetes.ts:108-133 | both fixed patches have the spec shape, so suspending or resuming a well-shaped resource keeps it well shaped |
| `SpecMerge.SuspendKeepsJarAndParallelism` | lib/kubernetes.ts:108-118 | suspending job `{jarURI: "s3://a.jar", parallelism: 4, state: "running"}` gives the same jar and parallelism with state `"suspended"` |
| `KubeClient.GetKubeConfig` | lib/kubernetes.ts:5-23 | in-cluster is tried first, and the kubeconfig only if that failed; the result succeeds iff one succeeds, and the error otherwise is the fixed configuration error |
| `KubeClient.GetCustomObjectsApi` | lib/kubernetes.ts:26-29 | every client resolves the configuration afresh and lets a credential error escape |
| `KubeClient.ListFlinkDeployments` | lib/kubernetes.ts:36-47 | a failing list gives an empty sequence, a successful one gives its items, and a credential failure escapes before any list call |
| `KubeClient.GetFlinkDeployment` | lib/kubernetes.ts:50-71 | the read is of the fixed group/version/kind, namespace and name, and its result or error is returned unchanged |
| `KubeClient.PatchFlinkDeployment` | lib/kubernetes.ts:74-105 | config is resolved twice, then the read; on success the merged resource is the one write; a failed read or a credential failure rethrows and writes nothing |
| `KubeClient.SuspendFlinkDeployment` | lib/kubernetes.ts:108-119 | the resource written differs from the one read only in `spec.job.state = 'suspended'`; errors as for patch |
| `KubeClient.ResumeFlinkDeployment` | lib/kubernetes.ts:122-133 | the resource written differs from the one read only in `spec.job.state = 'running'`; errors as for patch |
| `DeploymentTable.Lower` | components/DeploymentTable.tsx:51 | lowering keeps the length and lowers each character in place |
| `DeploymentTable.StatusColor` | components/DeploymentTable.tsx:50-61 | an absent state gets the gray default |
| `DeploymentTable.StatusColorIgnoresCase` | components/DeploymentTable.tsx:50-53 | two casings of the same word get the same colour |
| `DeploymentTable.StatusColorCases` | components/DeploymentTable.tsx:50-60 | green iff the string is `running` in some casing, yellow iff `suspended`, red iff `failed`, gray iff none of them |
| `DeploymentTable.DisplayedJobState` | components/DeploymentTable.tsx:107 | shows the desired state when it is a non-empty string, otherwise `'N/A'`; for a well-shaped spec it is `running`, `suspended` or `N/A` |
| `DeploymentTable.DisplayedLifecycleState` | components/DeploymentTable.tsx:108-109 | shows `status.lifecycleState` when present and non-empty, and `'N/A'` when status or the field is absent or empty |
| `DeploymentTable.JobStateColor` | components/DeploymentTable.tsx:107-127 | a well-shaped job state is never red; it is green iff desired running and yellow iff desired suspended |
| `DeploymentTable.PatchKeepsLifecycleState` | components/DeploymentTable.tsx:108-109 | no patch changes the shown lifecycle state |
| `DeploymentTable.OfferedAction` | components/DeploymentTable.tsx:142-158 | Resume is offered only where the state badge is yellow, and `'N/A'` and `'running'` offer Suspend; the exact iff is in `OfferedActionToggles` |
| `DeploymentTable.PatchFor` | lib/kubernetes.ts:108-133 | the deployment route sends `'suspend'` to `suspendFlinkDeployment` and `'resume'` to `resumeFlinkDeployment`; each action's patch has the spec shape, and desires `'running'` for Resume and `'suspended'` for Suspend |
| `DeploymentTable.OfferedActionToggles` | components/DeploymentTable.tsx:142-158 | Resume is offered iff the shown state is exactly `'suspended'`; applying the offered action's patch flips the shown state and the next action offered |
| `DeploymentTable.ActionIsCaseSensitive` | components/DeploymentTable.tsx:142-158 | `SUSPENDED` is coloured yellow but offers Suspend, and `N/A` offers Suspend |
| `DeploymentTable.NamespaceOf` | components/DeploymentTable.tsx:105-106 | an absent namespace becomes `'default'`, and the namespace is empty only when it is given as empty |
| `DeploymentTable.RowKey` | components/DeploymentTable.tsx:110-113 | the key is the namespace, one `/`, then the name; `RowKeyIdentifies` proves it identifies the row |
| `DeploymentTable.RowKeyIdentifies` | components/DeploymentTable.tsx:105-113 | when namespaces hold no `/`, equal row keys mean equal namespace and name, and conversely |
| `DeploymentTable.AbsentNamespaceIsDefault` | components/DeploymentTable.tsx:21-22 | an absent namespace is keyed as `default/<name>`, the same as an explicit `default`; an empty namespace is not defaulted |
| `DeploymentTable.ActionButton` | components/DeploymentTable.tsx:141-158 | the button is disabled iff its row key is in flight, reads `Processing...` exactly then, and resumes iff the shown state is `'suspended'` |
| `DeploymentTable.Table.constructor` | components/DeploymentTable.tsx:15 | no action is in flight initially |
| `DeploymentTable.Table.IsLoading` | components/DeploymentTable.tsx:110 | `isLoading` of a row: the in-flight key equals its row key; `BeginAction` and `FinishAction` state which rows are loading |
| `DeploymentTable.Table.BeginAction` | components/DeploymentTable.tsx:17-34 | `loading` becomes the row key, only rows with that key are loading, and the request path is `/api/deployments/<namespace>/<name>` |
| `DeploymentTable.Table.FinishAction` | components/DeploymentTable.tsx:36-47 | refresh iff the response was ok, alert otherwise, and no row is loading afterwards in either case |
| `DeploymentTable.Table.HandleAction` | components/DeploymentTable.tsx:17-48 | the whole action sends the row's request and ends with `loading` cleared, whether it succeeded or failed |

## Left out

- The client library calls (`loadFromCluster`, `loadFromDefault`, `list`, `read`, `patch`) are foreign I/O. They are outcomes in an `Environment` value, fixed for the duration of one operation, so both credential resolutions during a patch see the same files.
- How the server merges the body sent by `client.patch` is not visible in the code and is not modelled. The operation returns whatever the server answers.
- `console.error` logging, React rendering, the page's 10-second polling and the HTTP route layer are UI and I/O. The route's mapping from action to patch appears only as `PatchFor`.
- The hook machinery, the fetch transport and the alert dialog are left out. The `loading` value, the fetch outcome and whether an alert is raised are modelled in `Table`.
- `formatDate` is left out. It depends on the clock, locale and date parser.
- Interleaved `handleAction` calls are left out. A second click overwrites `loading`, and the first `finally` clears it. This is asynchronous scheduling and is not modelled.
- KubeClient.GetCustomObjectsApi: `makeApiClient` is assumed always to succeed once a configuration has loaded. An error it might throw is not modelled.
- The insertion order of keys in JavaScript objects is not modelled. Maps are unordered.
- `SpecMerge.Spread` treats a string or array value as spreading nothing, but JavaScript spreads their index keys. A `patch.spec` that is not an object is not representable.
- DeploymentTable.DisplayedJobState: a truthy `job.state` that is not a string (ill-typed data) shows `'N/A'` here. In the source such a value becomes `jobState` and reaches `getStatusColor`, where `toLowerCase` throws a TypeError, so rendering the row fails instead.
- DeploymentTable.Lower: lowers ASCII letters only. Full Unicode `toLowerCase` differs only on non-ASCII characters. Of those, only U+212A (Kelvin sign to `k`) and U+0130 (to `i` plus a combining dot) produce ASCII letters, and neither can produce `running`, `suspended` or `failed`.
- TLS material assembly, a raw HTTPS patch path, `resourceVersion` conflict checks and memoised configuration are not in the code and are not modelled.
