# snoopy-operator controllers in Dafny

This project models the deterministic core of the snoopy-operator Kubernetes controllers. The operator fans a "podtracer" agent out across the pods that match a label selector. It does this as one Job or CronJob per pod, pinned to the pod's node. It also runs a data-endpoint server as a Deployment plus a Service.

The model covers:

- **Argument assembly.** The podtracer command line is `run <command> -a <args>`, an optional `-t <timer>`, an optional `-d <ip> -p <port>`, and a `--pod <name> -n <namespace>` tail. The tcpdump option string is also modelled.
- **Fan-out.** Each listed pod becomes one execution unit, in listing order. An empty listing is an error.
- **Record builders.** Jobs, CronJobs, job templates, the exec Job, and the data Deployment and Service each have a builder. The builders fix names, labels, node pinning, the concurrency policy, and the mount/volume sets.
- **Reconcile loops.** They run against an abstract cluster store:
  - create-if-absent with a status list (`reconcileCronJobs`, `reconcileJobs`);
  - create-always (`ReconcileCronJobs` and the per-pod loops of the CommandJob and Command reconcilers);
  - create-on-NotFound (`reconcileResource`).
- **The finalizer machine** of the SnoopyDataEndpoint reconciler, together with `containsString` and `removeString`.
- **Small string helpers:** `getContainerIDs`, `getPid`'s order of failure, and the tcpdump argument builders.

The cluster store (`ClusterStore.Store`) maps a (namespace, name) key to an object. Failures are injected per key:

- Get fails with an error other than NotFound;
- Create fails;
- the owner's status update after a creation fails.

Create on an occupied key fails with AlreadyExists. A pod listing is a `PodListing.PodIndex`: the stored pods in List order, plus whether List fails. The package-level image names and service account are a `Kube.Settings` record. `SetControllerReference` is an injected `Result<OwnerRef>` in the job controllers. It is a plain owner reference in the data builders, because the source exits the process on failure there.

One module per source file:

| File | Module |
|---|---|
| `kube.dfy` | `Kube`, `Agent` (Kubernetes record shapes; the agent's mounts and volumes) |
| `api.dfy` | `Api` (the custom resources) |
| `store.dfy` | `ClusterStore` |
| `create_loops.dfy` | `CreateLoops` (the two creation loops the reconcilers share) |
| `pod_listing.dfy` | `PodListing` (the four identical GetRunningPodsByLabel copies) |
| `podtracer_args.dfy` | `PodtracerArgs` (the argument layout and a positional decoder) |
| `text.dfy` | `Text` (join/split, Go's `string(int)`, decimal formatting and parsing) |

The remaining files follow the Go files one-to-one.

Three modelling choices follow the code closely:

- **AlreadyExists is returned.** A Create that hits an existing object is not treated as success: the code returns the AlreadyExists error. The create-always reconcilers therefore fail on a re-run: `SnoopyJobController.ReconcileRerunRequeues`, `CommandJobController.ReconcileRerunFails` and `ExecCommand.ReconcileRerunFails`.
- **`string(int64)` is exact.** It is modelled as Go's actual rune conversion (`Text.RuneString`) rather than left uninterpreted, so the discrepancy can be exhibited.
- **`containsString` is separate.** It is a method with a loop, and its contract proves it equals `in`. The Reconcile model uses `in` directly.

## Model

| member | source | states |
|---|---|---|
| JobReconcilers.BuildPodtracerOptions | controllers/job/reconcilers.go:163-184 | The list starts with exactly `run <command> -a <args>`. It has `-t <timer>` right after exactly when the timer is non-empty. It ends with `-d <ip> -p <port>` exactly when the IP is non-empty, the port kept even when empty. Its length is 4 plus 2 for the timer plus 4 for the sink. |
| PodtracerArgs.TargetFlags | controllers/job/reconcilers.go:106-111 | The per-pod tail is `--pod <pod name> -n <pod namespace>`: the namespace comes from the pod, not the spec. |
| PodtracerArgs.DecodeAssembled | controllers/job/reconcilers.go:163-184 | Any list assembled as prefix + optional timer + optional sink + tail reads back, positionally, as exactly the command, args, timer, sink and target it was built from. |
| JobReconcilers.PodArgsDecode | controllers/job/reconcilers.go:106-111 | Each unit's argument list decodes to the SnoopyJob's intent aimed at that pod. |
| JobReconcilers.BuildCronJobForPods | controllers/job/reconcilers.go:91-125 | Succeeds iff the listing and the owner reference succeed, passing their error through otherwise. On success there is one CronJob per listed pod in order, named `snoopy-cronjob-<pod>` in the operator namespace, owned by the SnoopyJob, on the SnoopyJob's schedule, running podtracer on the pod's node with that pod's arguments. |
| JobReconcilers.BuildJobForPods | controllers/job/reconcilers.go:127-161 | The same for one-shot Jobs named `snoopy-job-<pod>`. |
| PodListing.RunningPods | controllers/job/reconcilers.go:186-206 | A List error passes through; an empty listing is NoRunningPods; otherwise the listing is returned unchanged and is non-empty. |
| PodListing.RunningPodsSucceeds | controllers/job/commandjob_controller.go:115-135 | The listing succeeds exactly when List works and some stored pod is selected. |
| PodListing.Matching | controllers/exec/command_controller.go:100-120 | Every listed pod is a stored pod carrying all selector labels in the namespace (all namespaces when empty). |
| PodListing.MatchingComplete | controllers/job/snoopyjob_controller.go:148-168 | A pod is listed iff it is stored and selected. |
| PodListing.PodNames | controllers/job/reconcilers.go:103-123 | The pod names in listing order, one per pod. |
| CreateLoops.CreateMissing | controllers/job/reconcilers.go:32-89 | Create-if-absent never changes or removes a stored object, only adds keys of the given items, and only extends the status list. An error it returns is a Get error, a Create error, or (only when status errors are fatal) a status-update error. |
| CreateLoops.CreateMissingCompletes | controllers/job/reconcilers.go:34-58 | With no injected failure the pass reports no error and its result is exactly this: each item whose key is not yet stored, and not taken by an earlier item, is stored under its key; every stored object is left alone; and exactly those items' names are appended, in order. The stored keys become the old keys plus all the items' keys. |
| CreateLoops.CreateMissingStoresEach | controllers/job/reconcilers.go:36-46 | When the items' keys are distinct, none is stored yet and none fails, each item ends up stored under its own key. |
| CreateLoops.CreateMissingFailsAt | controllers/job/reconcilers.go:36-43 | A Get error other than NotFound at item j is returned at once. So is a Create error at an item j not yet present. The items before j are handled as in a failure-free pass, and nothing from item j on is created or recorded. |
| CreateLoops.CreateMissingSkipsPresent | controllers/job/reconcilers.go:40-56 | Items already stored are neither re-created nor appended to status. |
| CreateLoops.CreateMissingIdempotent | controllers/job/reconcilers.go:65-76 | A second run over the same items creates nothing and appends nothing. |
| CreateLoops.CreateMissingStatusFailure | controllers/job/reconcilers.go:44-50 | A status-update failure right after creating item j stops the loop there. The items before j are handled as in a failure-free pass, item j stays created with its name appended, and nothing after it is created. The failure is returned only when status errors are fatal. |
| JobReconcilers.ReconcileCronJobs | controllers/job/reconcilers.go:32-59 | reconcileCronJobs is create-if-absent whose returned error can only come from Get or Create. |
| JobReconcilers.ReconcileJobs | controllers/job/reconcilers.go:61-89 | reconcileJobs is create-if-absent whose returned error is a Get, Create or status-update error. |
| JobReconcilers.ReconcileCronJobsFailsAt | controllers/job/reconcilers.go:36-54 | A Get error at CronJob j, or a Create error at a CronJob j not yet present, is returned at once. Only the CronJobs before j are created and recorded. |
| JobReconcilers.ReconcileJobsFailsAt | controllers/job/reconcilers.go:65-84 | The same stop for Jobs. |
| JobReconcilers.CronJobStatusFailureSwallowed | controllers/job/reconcilers.go:44-50 | A status-update failure right after creating CronJob j returns no error. CronJob j stays created and recorded, and the CronJobs after it are never created. |
| JobReconcilers.JobStatusFailureReported | controllers/job/reconcilers.go:74-80 | A status-update failure right after creating Job j returns that error. Job j stays created and recorded, and the Jobs after it are never created. |
| JobReconcilers.CronJobsConverge | controllers/job/reconcilers.go:32-59 | Without injected failures, one pass reports no error. It stores each CronJob whose key is not yet taken (the first one built for a shared key) and leaves every stored object alone. Afterwards something is stored under each target pod's CronJob key. A second pass writes nothing and appends nothing. |
| JobReconcilers.CronJobsStoredPerPod | controllers/job/reconcilers.go:32-59 | When the target pods' names are distinct and none of their CronJobs exists yet, a failure-free pass stores each pod's CronJob, as built for that pod, under `snoopy-cronjob-<pod>`. |
| JobReconcilers.JobsConverge | controllers/job/reconcilers.go:61-89 | The same for Jobs. |
| JobReconcilers.JobsStoredPerPod | controllers/job/reconcilers.go:61-89 | The same per-pod storage for Jobs under `snoopy-job-<pod>`. |
| JobReconcilers.NamespaceCollision | controllers/job/jobs.go:57-61 | Two target pods with one name in two namespaces get two different CronJobs under one key. A failure-free pass stores only the first; the second pod is never traced and its name is not recorded. |
| JobReconcilers.QualifiedNameInjective | controllers/job/jobs.go:57 | The namespace-qualified name determines both the namespace and the name, because namespaces contain no dot. |
| JobReconcilers.BuildQualifiedCronJobs | controllers/job/jobs.go:57 | Corrected build: the same CronJobs, with the same success and error cases, but each named `snoopy-cronjob-<namespace>.<pod>`. |
| JobReconcilers.QualifiedCronJobsConverge | controllers/job/reconcilers.go:32-59 | With the corrected names, target pods that are distinct objects each get their own CronJob. A failure-free pass over fresh keys stores every one under its own key. |
| CreateLoops.CreateEach | controllers/job/snoopyjob_controller.go:74-93 | Create-always never changes a stored object and only adds the items' keys. Its error is AlreadyExists or a Create error. Without a status list it appends nothing. |
| CreateLoops.CreateEachStoresAll | controllers/job/snoopyjob_controller.go:76-89 | Over distinct, unused, creatable keys it stores exactly the items and appends every name in order. |
| CreateLoops.CreateEachRerunFails | controllers/job/commandjob_controller.go:105-109 | Re-running create-always over the same items fails at the first with AlreadyExists and writes nothing. |
| CreateLoops.CreateEachFailsAt | controllers/job/snoopyjob_controller.go:76-82 | A Create failure at item j returns that error at once. The failure is an injected one or a key taken before the loop or by an earlier item; AlreadyExists is reported only when no injected failure applies. Exactly the items before j are stored and recorded. |
| CreateLoops.CreateEachStatusFailureAt | controllers/job/snoopyjob_controller.go:84-89 | A status-update failure right after creating item j ends the loop with no error. Exactly the items up to and including j are stored and recorded. |
| ClusterStore.KeysOfPrefixed | controllers/job/jobs.go:57-61 | Units named `<prefix><pod>` in one namespace are stored exactly under those keys, and distinct pod names give distinct keys. |
| SnoopyJobTemplates.JobTemplateFor | controllers/job/jobs.go:103-181 | The template is named `snoopy-job-<pod>` in the operator namespace with label snoopyJob=SnoopyJob. Its pod is pinned to the node with restart policy Never and runs one privileged `/usr/bin/podtracer` with the arguments unchanged. Its mounts are exactly proc and crio-sock, and so are its volumes. It never fails. |
| SnoopyJobTemplates.JobFor | controllers/job/jobs.go:23-36 | The Job has exactly the template's metadata and spec, and never fails. |
| SnoopyJobTemplates.CronJobFor | controllers/job/jobs.go:38-101 | The CronJob is named `snoopy-cronjob-<pod>` in the operator namespace, keeps the schedule unchanged with policy Replace, and wraps exactly the template. It never fails. |
| SnoopyJobTemplates.AgentPodWellFormed | controllers/job/jobs.go:133-161 | Every mount is backed by a same-named volume and volume names are unique. The CronJob and the Job run the same pod. |
| CommandJobTemplates.CronJobFor | controllers/job/cronjob.go:9-163 | The CronJob is `snoopy-cronjob-<pod>` labelled snoopyCronJob=CommandJob, and its template is `snoopy-job-<pod>` labelled snoopyJob=CommandJob, both in the operator namespace. The schedule is unchanged with policy Replace. The pinned privileged podtracer runs the arguments unchanged with mounts proc, crio-sock, pcap-data and four volumes. It never fails. |
| CommandJobTemplates.CronJobVolumes | controllers/job/cronjob.go:41-89 | The three mounts are backed by declared volumes, volume names are unique, and the kubeconfig volume is declared but mounted by nobody. |
| SnoopyJobController.BuildPodtracerOptions | controllers/job/snoopyjob_controller.go:132-146 | This variant is `run <command> -a <args>` plus `-t <timer>` exactly when the timer is set, and never carries data-service flags. |
| SnoopyJobController.PodArgsDecode | controllers/job/snoopyjob_controller.go:107-116 | Each per-pod list decodes to the job's command, args and timer aimed at that pod, with no sink. |
| SnoopyJobController.BuildCronJobForPodsAsWritten | controllers/job/snoopyjob_controller.go:95-130 | As written, the build lists pods by the fetched job's selector but reads options and schedule from the reconciler's command field. It returns the listing error; when it succeeds, a command was set and there is one CronJob per listed pod. |
| SnoopyJobController.UnsetCmdPanics | controllers/job/snoopyjob_controller.go:111 | With the command field unset (as Reconcile leaves it) and pods listed, the build dereferences nil and panics. |
| SnoopyJobController.BuildCronJobForPods | controllers/job/snoopyjob_controller.go:95-130 | Corrected to read the fetched job: succeeds iff the listing does, ignores owner-reference errors, and gives one CronJob per pod in order with the pod's tail. |
| SnoopyJobController.AsWrittenWithCmdAgrees | controllers/job/snoopyjob_controller.go:95-130 | When the command field holds the fetched job, the as-written build returns exactly the corrected one. |
| SnoopyJobController.UnitsKeyed | controllers/job/snoopyjob_controller.go:118-124 | The units are stored under exactly `snoopy-cronjob-<pod>` keys in the operator namespace. |
| SnoopyJobController.ReconcileCronJobs | controllers/job/snoopyjob_controller.go:74-93 | Corrected flow: the status list belongs to the fetched SnoopyJob, not the reconciler's command field. Create runs for every unit with no existence check. An error is AlreadyExists or a Create error, and a status-update failure returns no error. |
| SnoopyJobController.Reconcile | controllers/job/snoopyjob_controller.go:44-72 | Corrected flow, built from the fetched SnoopyJob. NotFound returns nothing, and other fetch errors are returned without requeue. A build or create error is returned with requeue, and full success is no error, no requeue. A failed listing writes nothing, and stored objects are never changed. |
| SnoopyJobController.ReconcileFirstPass | controllers/job/snoopyjob_controller.go:60-71 | A clean first pass stores exactly the built CronJobs, one per pod under its own key, records every name in status, and returns success. |
| SnoopyJobController.ReconcileFailsAt | controllers/job/snoopyjob_controller.go:65-82 | A Create failure at CronJob j is returned with requeue. Exactly the CronJobs before j are stored and their names recorded. |
| SnoopyJobController.ReconcileStatusFailureAt | controllers/job/snoopyjob_controller.go:84-89 | A status-update failure right after creating CronJob j ends the pass with neither error nor requeue. CronJobs up to and including j are stored and recorded, none after. |
| SnoopyJobController.ReconcileRerunRequeues | controllers/job/snoopyjob_controller.go:65-67 | A second pass fails with AlreadyExists and requeues, writing nothing. |
| PodtracerArgs.CommandArgs | controllers/job/commandjob_controller.go:83-91 | The per-pod list of the CommandJob reconciler (and, identically, of the Command reconciler at controllers/exec/command_controller.go:72-80) is exactly `run <command> -a <args> --pod <name> -n <pod namespace>`. |
| PodtracerArgs.CommandArgsDecode | controllers/exec/command_controller.go:72-80 | That list decodes to the command aimed at that pod, with no timer and no sink. |
| CommandJobController.Units | controllers/job/commandjob_controller.go:79-102 | One CronJob per pod in order, each named for its pod, labelled snoopyCronJob=CommandJob, on the spec's schedule, running that pod's arguments on its node. |
| CommandJobController.Reconcile | controllers/job/commandjob_controller.go:52-113 | Every fetch error, NotFound included, is returned without requeue. A listing error or empty listing is returned with requeue and writes nothing. Otherwise only AlreadyExists or a Create error can be returned, nothing stored changes, and no status is kept. |
| CommandJobController.ReconcileFirstPass | controllers/job/commandjob_controller.go:79-110 | A clean first pass stores exactly one CronJob per pod and returns success. |
| CommandJobController.ReconcileRerunFails | controllers/job/commandjob_controller.go:105 | A re-run re-issues Create and fails with AlreadyExists, without requeue, writing nothing. |
| CommandJobController.ReconcileFailsAt | controllers/job/commandjob_controller.go:104-109 | A Create failure at pod j is returned without requeue. Exactly the CronJobs of the pods before it are stored. |
| ExecCommand.GenerateCommandJob | controllers/exec/command_controller.go:122-224 | The Job is `tcpdump-<pod>` in the operator namespace with label tcpdumpJob=snoopy-operator. It is pinned to the node with restart policy Never and runs privileged podtracer with the arguments unchanged. It mounts proc, crio-sock, pcap-data and kubeconfig over four volumes. It never fails. |
| ExecCommand.CommandJobVolumes | controllers/exec/command_controller.go:164-212 | Every mount is backed by a same-named volume, names are unique, and kubeconfig comes from secret podtracer-kubeconfig. |
| ExecCommand.CommandJobVolumesMounted | controllers/exec/command_controller.go:164-212 | Every declared volume is mounted. |
| ExecCommand.Units | controllers/exec/command_controller.go:70-95 | One Job per pod in order, named `tcpdump-<pod>` in the operator namespace, running that pod's arguments on its node. |
| ExecCommand.Reconcile | controllers/exec/command_controller.go:55-98 | Fetch errors are returned without requeue. A listing error or empty listing requeues and writes nothing. Otherwise the error is AlreadyExists or a Create error, and stored objects never change. |
| ExecCommand.ReconcileFirstPass | controllers/exec/command_controller.go:83-95 | A clean first pass stores exactly one Job per pod and succeeds. |
| ExecCommand.ReconcileRerunFails | controllers/exec/command_controller.go:90-94 | A re-run fails with AlreadyExists, writing nothing. |
| ExecCommand.ReconcileFailsAt | controllers/exec/command_controller.go:89-94 | A Create failure at pod j is returned without requeue. Exactly the Jobs of the pods before it are stored. |
| Tcpdump.GeneratePodtracerArgs | controllers/pcap/tcpdump_controller.go:120-132 | Exactly `[command, args, --pod, pod, -n, namespace]`, and never an error. |
| Tcpdump.PodtracerArgsOffLayout | controllers/pcap/tcpdump_controller.go:120-132 | That list never follows the `run <command> -a <args>` layout the other controllers emit. |
| Tcpdump.GenerateTcpdumpArgs | controllers/pcap/tcpdump_controller.go:134-160 | With a packet count, the space-join of `-i iface -c C -w path`; with none, of `-i iface -C S -w path --pod`. The counts are rendered by Go's one-rune conversion, and it never fails. |
| Tcpdump.FileSizeIgnored | controllers/pcap/tcpdump_controller.go:139-146 | With a packet count set, the file size makes no difference. |
| Tcpdump.TokensSpaceFree | controllers/pcap/tcpdump_controller.go:157 | The tokens contain no space when the interface, path and rendered counts do not. |
| Tcpdump.RuneCountCounterexample | controllers/pcap/tcpdump_controller.go:143 | A packet count of 100 yields the count token "d", which does not parse as a number. |
| Tcpdump.GenerateTcpdumpArgsDecimal | controllers/pcap/tcpdump_controller.go:134-160 | The corrected option string never fails. |
| Tcpdump.DecimalArgsRoundTrip | controllers/pcap/tcpdump_controller.go:139-157 | The corrected string splits back into its tokens, and the count token parses back to the packet count (or the file size when there is no count). |
| Text.RuneString | controllers/pcap/tcpdump_controller.go:143 | Go's `string(n)` is one character: code point n when n is a scalar value, U+FFFD otherwise. |
| Text.SplitJoin | controllers/pcap/tcpdump_controller.go:157 | Joining separator-free tokens with the separator is undone by splitting. |
| Text.DecimalRoundTrip | controllers/pcap/tcpdump_controller.go:151 | Decimal formatting is undone by decimal parsing for every integer, and contains no space. |
| PodInspect.ContainerIDs | controllers/pcap/pod_inspect.go:110-121 | Returns iff every container id has at least 8 characters, panicking otherwise. It returns one id per status in order, each being the original without its first 8 characters. |
| PodInspect.ContainerIDsStripPrefix | controllers/pcap/pod_inspect.go:117 | Ids written as an 8-character prefix plus the runtime id come back as exactly the runtime ids. |
| PodInspect.GetPid | controllers/pcap/pod_inspect.go:83-108 | Panics iff some id is too short, or the connection succeeds and the pod has no containers. A connection error is returned; otherwise the first container's id is asked for its pid. |
| PodInspect.ListPodsWithMatchingLabels | controllers/pcap/pod_inspect.go:16-39 | The process exits iff the client cannot be built or List fails. Otherwise it lists the pods with the label pair across all namespaces, and an empty list comes with an error. |
| PodInspect.ListedExactly | controllers/pcap/pod_inspect.go:16-39 | A pod is listed iff it is stored and carries the label pair. |
| DataEndpointController.ContainsString | controllers/data/snoopydataendpoint_controller.go:123-130 | True iff the string occurs in the list. |
| DataEndpointController.RemoveString | controllers/data/snoopydataendpoint_controller.go:132-140 | The result has no occurrence of the string, keeps every other value's count, and is shorter by the number of occurrences. |
| DataEndpointController.RemoveStringConcat | controllers/data/snoopydataendpoint_controller.go:132-140 | Removal distributes over concatenation, so the survivors keep their relative order. |
| DataEndpointController.RemoveAbsent | controllers/data/snoopydataendpoint_controller.go:132-140 | Removing an absent string returns the list unchanged. |
| DataEndpointController.RemoveStringIdempotent | controllers/data/snoopydataendpoint_controller.go:132-140 | Removing twice is removing once. |
| DataEndpointController.RemoveAfterAppend | controllers/data/snoopydataendpoint_controller.go:132-140 | Appending an absent string and removing it gives the original list. |
| DataEndpointController.Reconcile | controllers/data/snoopydataendpoint_controller.go:54-113 | NotFound is quiet and other fetch errors are returned. A live endpoint without the finalizer gets it appended; a deleted one with it gets it removed. A failed update is returned with requeue, and otherwise nothing is written. |
| DataEndpointController.WrittenSettles | controllers/data/snoopydataendpoint_controller.go:78-106 | After a write, the finalizer is present iff the endpoint is live, and nothing but the finalizer list changed. |
| DataEndpointController.SecondPassQuiet | controllers/data/snoopydataendpoint_controller.go:77-106 | A pass over what the previous pass wrote writes nothing and reports nothing. |
| DataEndpointController.RegisterThenRelease | controllers/data/snoopydataendpoint_controller.go:78-106 | Adding the finalizer and later removing it on deletion restores the original finalizer list. |
| DataReconcile.SetObjectMeta | controllers/data/reconcile.go:17-24 | Metadata with exactly the given name, namespace and labels, and nothing else; its key is (namespace, name). |
| DataReconcile.ReconcileResource | controllers/data/reconcile.go:26-57 | A Get error other than NotFound is returned and nothing is created. An existing object means nothing is done. On NotFound exactly one object `build(endpoint, meta)` is created, and a Create error is returned. |
| DataReconcile.ReconcileResourceIdempotent | controllers/data/reconcile.go:32-56 | After a successful call the object is stored, and a second call with the same metadata creates nothing and succeeds. |
| DataDeployment.DeploymentForDataEndpoint | controllers/data/deployment.go:29-68 | The metadata is the supplied one owned by the endpoint, and the selector, pod labels and metadata labels are equal. There is one privileged container named like the metadata, running `/server 51001` with port 51001. |
| DataDeployment.ServerArgMatchesPort | controllers/data/deployment.go:50-56 | The port passed to the server on its command line is the port the container opens. |
| DataDeployment.DeploymentReconcileIdempotent | controllers/data/reconcile.go:32-56 | Reconciling the Deployment twice with the same metadata creates it at most once. |
| DataService.ServiceForDataEndpoint | controllers/data/service.go:30-49 | The metadata is the supplied one owned by the endpoint. There is one TCP port named and numbered by the endpoint spec, targeting 51001, and the selector is the metadata's labels. |
| DataService.ServiceReachesDeployment | controllers/data/service.go:35-41 | Built from the same metadata, the Service and Deployment share a key, the Service selects the Deployment's pods, and its target port is one the server opens. |
| DataService.ServiceReconcileIdempotent | controllers/data/reconcile.go:32-56 | Reconciling the Service twice with the same metadata creates it at most once. |

## Left out

- The gRPC data relay (the endpoint server and client, the data endpoint server binary) is network I/O, file appends and goroutines. It is outside the modelled controllers.
- The CRI-O side of `getPid` is the parameter `pidOf` of `PodInspect.GetPid`. This covers the gRPC connection, the container-status call, JSON decoding and `%.0f` formatting of the pid. The connection error is the parameter `connection`.
- Kubernetes client internals become the abstract `ClusterStore.Store` with per-key faults. These are Get/List/Create/Update/Status().Update, `SetControllerReference`, `SetupWithManager`, the scheme, and RBAC markers. The pod lister becomes `PodListing.PodIndex`.
- The package-level variables `podtracerImage`, `serviceAccountName` and `dataEndpointImage` are not defined in the modelled files. They are the `Kube.Settings` parameter.
- `TcpdumpReconciler.Reconcile` and `GenerateTcpdumpJob` do not compile: wrong arity, undefined identifiers, a missing status field. Only the two pure tcpdump helpers are modelled.
- The tcpdump controller's test file has an empty scenario table and asserts nothing.
- Cron-expression syntax is not modelled: the schedule string is passed through verbatim and never parsed.
- Logging (fmt, zap) is not modelled, and neither are timestamps.
- `log.Fatal` in the data builders when `SetControllerReference` fails is not modelled. It ends the process, so the builders take the owner reference as given.
- `listPodsWithMatchingLabels` calls `os.Exit`. The model only says that the process exits (`PodInspect.Listing.ProcessExit`).
- Port numbers are `int` rather than Go's `int32`. No port arithmetic happens, so the width never matters.
- In `reconcileCronJobs`/`reconcileJobs`, `Get` overwrites the local loop copy of an item before it is created. The model creates the item as built, which is what happens whenever Get reports NotFound.
- The API type files lack some fields the controllers read: Timer, DataServiceIP, DataServicePort, Schedule, ServiceName and ServicePort. The `Api` records carry them.
- Nothing in the modelled files calls the lower-case builders and reconcilers of controllers/job/reconcilers.go. `JobReconcilers` models them standalone.
- JobReconcilers.BuildPodtracerOptions and SnoopyJobController.BuildPodtracerOptions are the two clashing definitions of one Go method name. Each is modelled as written.
- SnoopyJobController.ReconcileCronJobs: the source appends each name to `r.Cmd` and sends that object's status update (controllers/job/snoopyjob_controller.go:85-86). `r.Cmd` is the field Reconcile never assigns, so as written the build panics before this loop runs. The model records the names in the fetched SnoopyJob's status instead. Its own contract does not say where the loop stops; that is `SnoopyJobController.ReconcileFailsAt` and `SnoopyJobController.ReconcileStatusFailureAt`.
- SnoopyJobController.Reconcile: composes the corrected build (see Findings), not the as-written one that reads `r.Cmd`. The as-written panic is stated separately by `SnoopyJobController.UnsetCmdPanics`.
- PodInspect.ContainerIDs: container ids are character sequences, while Go's `[8:]` slices bytes. The model agrees with Go only when the first eight characters are ASCII, as the `cri-o://` prefix is.
- PodInspect.ContainerIDsStripPrefix: same character-versus-byte caveat as `PodInspect.ContainerIDs`.
- PodInspect.GetPid: its too-short-id panic uses the same character count, so the caveat of `PodInspect.ContainerIDs` applies.
- JobReconcilers.CronJobsConverge: promises one CronJob per pod only when pod names are distinct (`JobReconcilers.CronJobsStoredPerPod`), because same-named pods in different namespaces collide (see Findings).
- JobReconcilers.JobsConverge: the same restriction, for the Jobs.
- CreateLoops.CreateMissing: its own contract states only the frame, the status prefix and the error kinds. Where the loop stops and what it stores are stated by `CreateLoops.CreateMissingCompletes`, `CreateLoops.CreateMissingFailsAt` and `CreateLoops.CreateMissingStatusFailure`.
- CreateLoops.CreateEach: its own contract states only the frame and the error kinds. Where the loop stops and what it stores are stated by `CreateLoops.CreateEachStoresAll`, `CreateLoops.CreateEachFailsAt` and `CreateLoops.CreateEachStatusFailureAt`.
- JobReconcilers.ReconcileCronJobs: its own contract states only the frame and the error kinds. The stop at a failing CronJob and the stored contents are stated by `JobReconcilers.ReconcileCronJobsFailsAt`, `JobReconcilers.CronJobStatusFailureSwallowed`, `JobReconcilers.CronJobsConverge` and `JobReconcilers.CronJobsStoredPerPod`.
- JobReconcilers.ReconcileJobs: likewise, by `JobReconcilers.ReconcileJobsFailsAt`, `JobReconcilers.JobStatusFailureReported`, `JobReconcilers.JobsConverge` and `JobReconcilers.JobsStoredPerPod`.
- CommandJobController.Reconcile: its own contract does not say where the loop stops. That the first Create error returns at once, with exactly the earlier CronJobs kept, is `CommandJobController.ReconcileFailsAt`.
- ExecCommand.Reconcile: likewise, by `ExecCommand.ReconcileFailsAt`.
- Proof helpers carry no source citation and have no row: `CreateLoops.UpdateThenUnion`, `CreateLoops.PrefixHead`, `CreateLoops.CreateEachFirst`, `CreateLoops.CreateEachPrefix`, `CreateLoops.CleanPrefixTail`, `CreateLoops.PrefixStep`, `CreateLoops.CreateMissingPrefix`, `CreateLoops.SettledSkip`, `CreateLoops.SettledTake`, `CreateLoops.FreshAll`, `ClusterStore.ItemMapKeys`, `ClusterStore.ItemMapAt`, `ClusterStore.UnionStoresEach`, `ClusterStore.KeysOfIndex`, `ClusterStore.KeysOfAt`, `ClusterStore.PairwiseDistinctKeys`, `JobReconcilers.DotPrefixNoLonger`, `JobReconcilers.QualifiedKeys`, `JobReconcilers.QualifiedNamesDistinct`.
- Tcpdump.GenerateTcpdumpArgsDecimal: its own contract states only that it never fails. What its string means is stated by `Tcpdump.DecimalArgsRoundTrip`.

## Findings

| source | as written | input that shows it | evidently intended | confidence | as-written member | corrected member |
|---|---|---|---|---|---|---|
| controllers/pcap/tcpdump_controller.go:143 | `string(packetCount)` (and `string(fileSize)` at line 151) converts the int64 to the one-character string of that code point | packetCount 100 gives the token `d`, so tcpdump receives `-c d` | the decimal rendering `-c 100` | high, not executed | Tcpdump.GenerateTcpdumpArgs (with Tcpdump.RuneCountCounterexample) | Tcpdump.GenerateTcpdumpArgsDecimal (with Tcpdump.DecimalArgsRoundTrip) |
| controllers/job/snoopyjob_controller.go:111 | `BuildCronJobForPods` takes the podtracer options (line 111, via lines 132-146) and the schedule (line 122) from the reconciler's `Cmd` field, which `Reconcile` never assigns (it fetches into a local at lines 47-48) | any SnoopyJob whose selector matches a running pod, with `Cmd` nil | build from the fetched job | medium (the manager wiring that creates the reconciler is not part of this model), not executed | SnoopyJobController.BuildCronJobForPodsAsWritten (with SnoopyJobController.UnsetCmdPanics) | SnoopyJobController.BuildCronJobForPods (with SnoopyJobController.AsWrittenWithCmdAgrees) |
| controllers/job/jobs.go:57 | every CronJob is named `snoopy-cronjob-<pod name>` in the operator namespace, whatever namespace the pod is in | a SnoopyJob with an empty target namespace whose selector matches pod `web` in namespace `a` and pod `web` in namespace `b` | one CronJob per target pod, e.g. named after namespace and pod | medium (the CronJob name may be meant to be per pod name only), not executed | JobReconcilers.ReconcileCronJobs (with JobReconcilers.NamespaceCollision) | JobReconcilers.BuildQualifiedCronJobs (with JobReconcilers.QualifiedCronJobsConverge) |
