# virtual-kubelet-practice-demo, modelled in Dafny

This project models the pod-to-runtime core of a virtual-kubelet provider. The provider is built on the Kubernetes Container Runtime Interface (CRI, the `runtime.v1alpha2` API). It has five parts:

- **Remote wrappers** (`pkg/remote`). The config builders `GeneratePodSandboxConfig` and `GenerateContainerConfig`, and the RPC wrappers with their empty-id guards.
  - The runtime is a `Cri.RuntimeClient` object. It holds a fixed `view` of the runtime's answers: the sandbox and container tables, the image references, the ids it assigns, and the calls that fail. It also holds a ghost `log` of every request sent.
  - Each wrapper is a function returning `Reply(value, err, calls)`. So "no request was sent" is `calls == []`.
- **Status projector** (`pkg/providers/util.go`, module `Projector`). This is the version with nil guards. It renders cached CRI records as Kubernetes pods, pod statuses and container statuses.
  - The copy in `pkg/providers/mycri.go` (module `LegacyProjector`) reads the network and image records without guards. It returns `None` where the Go code would dereference nil.
  - Go map iteration order is unspecified. It is modelled as any enumeration of the keys (`Common.Enumerates`), chosen by `Common.MapOrder` inside methods.
- **Reconciliation engine**. This is `createPod`, `deletePod`, `refreshNodeState`, `findPodByName`, `getPod`, `getPodStatus`, `GetPods` and `notifyPodStatuses` of `pkg/providers/mycri.go`, in class `Providers.CriProvider`. The second copy, in `pkg/pod/pod.go`, is class `PodEngine.Provider`.
  - What each operation should do is defined by pure functions of the runtime's answers in module `Reconcile`: `Refresh`, `ContainerLoop`, `CreateAfterRefresh` and `DeleteAfterRefresh`. The lemmas about the engine are proved about these functions.
  - The engine's methods update the cache and the logs. Their contracts tie the new state to those functions. The loops they share are in module `EngineLoops`.
- **Script-pod path** (`pkg/providers/customize_container.go`). This is a second cache partition in the `PodManager` of `pkg/providers/manager.go`. Its records go from a READY sandbox to CREATED, RUNNING and EXITED containers.
  - Each send on the notification channel is recorded as a snapshot of the partition (`signalled`).
  - Each command's goroutine becomes a pending job (`jobs`). The job is completed later by the separate step `CompleteScriptJob`, given the process outcome.
- **Entry points and node description**:
  - annotation routing in `pkg/providers/provider.go`;
  - the newer and the older node description (`node_config.go`, `nodeconfig.go`);
  - the in-memory pod list (`temdata.go`).

The engine does two things this model makes explicit:

- A pod that is found by name is reused with its sandbox metadata **UID** as the sandbox id, not the sandbox's own id.
- A failing `StartContainer` is assigned to the loop-local `err` that `:=` declared. The lemma `Reconcile.CreateIgnoresStartFailures` states that creation behaves exactly as if no start request could fail.

Both are modelled as written.

`mycri.go` declares a `CriProvider` struct without the `PodManager` and the notification channel that `customize_container.go` uses. The class here has both. `mycri.go` and `provider.go` both define the entry points `CreatePod`, `UpdatePod`, `DeletePod`, `GetPod`, `GetPodStatus`, `GetContainerLogs`, `RunInContainer` and `ConfigureNode`. The class follows `provider.go` for these, since only `provider.go` routes script pods. `GetPods` follows `mycri.go`, because the `getPods` that `provider.go` calls is not defined in the repository.

The pod package (`pkg/pod/pod.go`) calls helpers whose definitions are not part of this model. These are `refreshNodeState`, `pullImage`, `createContainer`, `startContainer`, `stopPodSandbox`, `removePodSandbox`, `generateContainerConfig`, `createPodSpecFromCRI`, `createPodStatusFromCRI` and `notifyStatus`. The counterparts in `mycri.go`, `pkg/remote` and `pkg/providers/util.go` stand in for them. The guarded projector is the one used there.

## Model

| member | source | states |
|---|---|---|
| Common.ToInt32 | pkg/providers/node_config.go:16 | the Go `int32(...)` conversion: the result agrees with its argument modulo 2^32 and equals it when it fits |
| Common.NatToString | pkg/providers/node_config.go:82 | `strconv.Itoa` of a count: a non-empty string of decimal digits with no leading zero unless the number is 0 |
| Common.ParseNatToString | pkg/providers/node_config.go:82-85 | the decimal text of a number reads back as that number |
| Common.NatToStringInjective | pkg/providers/node_config.go:82-85 | different numbers have different decimal texts |
| Common.MapOrder | pkg/providers/mycri.go:299 | a Go `range` over a map visits every key exactly once, in some order |
| Common.EnumerationLength | pkg/providers/util.go:40-66 | a walk that visits every key of a map once has as many steps as the map has keys |
| Common.TrimSlashes | pkg/providers/mycri.go:193-194 | the root as `filepath.Clean` leaves it: a prefix of the root, empty only for an empty root, followed only by dropped separators, and ending without '/' unless it is "/" |
| Common.JoinPath | pkg/providers/mycri.go:193-194 | `filepath.Join(root, uid)` ends with the UID; an empty root gives the UID and an empty UID the cleaned root |
| Common.JoinPathShape | pkg/providers/mycri.go:193-194 | with both present, the path is the root without its trailing separators, exactly one '/', then the UID |
| Common.JoinPathInjective | pkg/providers/mycri.go:193-194 | under one root, different UIDs give different directories |
| Common.Disk.MkdirAllDir | pkg/providers/mycri.go:209-216 | `os.MkdirAll` is logged and fails exactly when the oracle says that path fails |
| Common.Disk.RemoveAllDir | pkg/providers/mycri.go:270 | `os.RemoveAll` is logged and fails exactly when the oracle says that path fails |
| Cri.FilterSandboxes | pkg/remote/sandbox.go:59-64 | the runtime's `ListPodSandbox` keeps exactly the sandboxes that match the filter |
| Cri.FilterContainers | pkg/remote/container.go:78-84 | the runtime's `ListContainers` keeps exactly the containers that match the filter |
| Cri.EmptySandboxFilterKeepsAll | pkg/remote/sandbox.go:59-69 | the empty filter that `GetPodSandboxes` sends keeps every sandbox, in order |
| Cri.PullImage | pkg/remote/image.go:9-25 | one pull request for the image; on success the runtime's image reference, on failure "" and the error |
| RemoteSandbox.GeneratePodSandboxConfig | pkg/remote/sandbox.go:94-112 | never fails; copies name, namespace and UID into the metadata, sets the attempt, passes the annotations through, sets the log directory |
| RemoteSandbox.RunPodSandbox | pkg/remote/sandbox.go:11-22 | one run request; the assigned id on success, "" and the error on failure |
| RemoteSandbox.StopPodSandbox | pkg/remote/sandbox.go:25-37 | an empty id is InvalidInput with no request; otherwise one stop request, failing exactly when the runtime fails it |
| RemoteSandbox.RemovePodSandbox | pkg/remote/sandbox.go:40-54 | an empty id is InvalidInput with no request; otherwise one remove request, failing exactly when the runtime fails it |
| RemoteSandbox.GetPodSandboxes | pkg/remote/sandbox.go:57-70 | one list request with the empty filter; every sandbox the runtime lists, or no sandbox and the error |
| RemoteSandbox.GetPodSandboxStatus | pkg/remote/sandbox.go:73-91 | an empty id is InvalidInput with no status and no request; otherwise the runtime's status or the error |
| RemoteContainer.LogPath | pkg/remote/container.go:108 | `name-<attempt>.log`: the container name, then '-', then decimal digits that read back as the attempt, then ".log" |
| RemoteContainer.LogPathInjective | pkg/remote/container.go:108 | different attempts give different log paths |
| RemoteContainer.GenerateContainerConfig | pkg/remote/container.go:93-119 | never fails; metadata name and attempt, the resolved image reference (not the declared image), command, args, working directory, stdin, stdinOnce and tty copied, the log path above |
| RemoteContainer.ContainerConfigIgnoresPodAndVolumes | pkg/remote/container.go:113-118 | the config depends on neither the pod nor the volume root |
| RemoteContainer.CreateContainer | pkg/remote/container.go:12-27 | one create request naming the sandbox id, the container config and the sandbox config; the new id or "" and the error |
| RemoteContainer.StartContainer | pkg/remote/container.go:30-49 | an empty id is InvalidInput with no request; otherwise one start request |
| RemoteContainer.GetContainerCriStatus | pkg/remote/container.go:52-73 | an empty id is InvalidInput with no status and no request; otherwise the runtime's status or the error |
| RemoteContainer.GetContainersForSandbox | pkg/remote/container.go:76-90 | one list request filtered by the sandbox id; exactly the runtime's containers of that sandbox |
| Manager.PodManager.constructor | pkg/providers/manager.go:18-23 | both partitions start empty |
| Manager.PodManager.GetPodStatus | pkg/providers/manager.go:25-27 | returns the runtime partition and changes nothing |
| Manager.PodManager.GetSamplePodStatus | pkg/providers/manager.go:29-31 | returns the script partition and changes nothing |
| Projector.HandleNetworkIp | pkg/providers/util.go:123-128 | "" without a network record, otherwise its IP |
| Projector.HandleImage | pkg/providers/util.go:130-135 | "" without an image record, otherwise its image |
| Projector.HandleImageRef | pkg/providers/util.go:137-142 | "" without an image record, otherwise the image reference |
| Projector.ContainerStateFromCri | pkg/providers/util.go:70-100 | UNKNOWN and CREATED become Waiting with the cached reason and message; RUNNING becomes Running since StartedAt; EXITED becomes Terminated with exit code, reason, message, start and finish |
| Projector.ContainerOf | pkg/providers/util.go:44-49 | the declared container carries the cached container's name and guarded image, and no command, arguments, working directory or terminal flags |
| Projector.ContainerStatusOf | pkg/providers/util.go:52-63 | the status names the container, carries its id, guarded image and reference, is ready iff the cached state is RUNNING, and has the projected state |
| Projector.ReadyIffReportedRunning | pkg/providers/util.go:58 | a projected status is ready exactly when its state is Running |
| Projector.ContainerSpecs | pkg/providers/util.go:40-66 | one container and one status per cache entry, in walk order |
| Projector.ContainerSpecsNameEachEntryOnce | pkg/providers/util.go:40-66 | every cached container name appears exactly once among the statuses, each paired with the container of the same name |
| Projector.CreateContainerSpecsFromCri | pkg/providers/util.go:40-66 | the loop builds exactly the two lists of ContainerSpecs |
| Projector.PodStatusFromCri | pkg/providers/util.go:103-121 | phase Running iff the sandbox is READY, else Pending, never Succeeded or Failed; the guarded pod IP; start time the creation time; the container statuses |
| Projector.PodSpecFromCri | pkg/providers/util.go:12-37 | kind Pod, v1; name, namespace and UID from the sandbox metadata; the given node name; no volumes; the containers and the status above |
| Projector.SandboxIdentityRoundTrip | pkg/remote/sandbox.go:95-102 | a sandbox created from a pod's config is rendered back with the pod's name, namespace and UID |
| LegacyProjector.LegacyContainerEntry | pkg/providers/mycri.go:398-419 | one container of the unguarded walk panics exactly when its image record is missing, and otherwise agrees with the guarded projector |
| LegacyProjector.LegacyContainerSpecs | pkg/providers/mycri.go:395-421 | the unguarded walk panics iff some visited container lacks an image record, and otherwise yields the guarded entries in order |
| LegacyProjector.LegacyCreateContainerSpecsFromCri | pkg/providers/mycri.go:395-421 | the loop panics exactly when LegacyContainerSpecs does, and otherwise builds its lists |
| LegacyProjector.InOrderLacksImage | pkg/providers/mycri.go:398-419 | the walk meets a container without an image record iff the map holds one |
| LegacyProjector.LegacyPodStatusFromCri | pkg/providers/mycri.go:456-475 | panics (None) iff the sandbox has no network record or the walk meets a container without an image record; otherwise Running iff READY, the network IP, the creation time as start time, and the walked container statuses |
| LegacyProjector.LegacyPodSpecFromCri | pkg/providers/mycri.go:367-392 | panics iff the declaration walk or the status does; otherwise the sandbox's name, namespace and UID, the given node, the walked declarations and that status |
| LegacyProjector.LegacyPodStatusAgrees | pkg/providers/mycri.go:456-475 | the unguarded status panics exactly for a record without a network record or with a container without an image record, and otherwise equals the guarded status |
| LegacyProjector.LegacyPodSpecAgrees | pkg/providers/mycri.go:367-392 | the same for the whole pod |
| LegacyProjector.RenderedPodKeepsIdentity | pkg/providers/mycri.go:367-392 | a rendered pod names the record's sandbox and the node, has one container and status per cached container, is Running iff the sandbox is READY, and its record does not panic |
| LegacyProjector.ListingOrder | pkg/providers/mycri.go:164-166 | a listing of the cache follows one walk of its keys, each pod carrying the UID of the record at its position |
| LegacyProjector.PairedByOrder | pkg/providers/mycri.go:164-166 | pods paired one-to-one with a walk of the cache are as many as the records and carry exactly the cached UIDs |
| LegacyProjector.ListingCoversCache | pkg/providers/mycri.go:164-166 | a GetPods listing has one pod per cached record and its UIDs are exactly the cached records' UIDs |
| Reconcile.FetchContainers | pkg/providers/mycri.go:347-354 | the container loop of the refresh sends only queries, fails only with the wrappers' errors, and keys each status by its metadata name |
| Reconcile.FetchContainersErrorSticks | pkg/providers/mycri.go:350-352 | once a status request fails, later containers change nothing |
| Reconcile.FetchContainersCovers | pkg/providers/mycri.go:347-354 | on success every value is the runtime's status of a listed container, and every listed container's name is a key |
| Reconcile.FetchSandbox | pkg/providers/mycri.go:335-360 | one sandbox's record: on success it has the sandbox's id, the runtime's status, and containers keyed by name |
| Reconcile.FetchSandboxes | pkg/providers/mycri.go:333-361 | the sandbox loop sends only queries and fails only with the wrappers' errors |
| Reconcile.FetchSandboxesErrorSticks | pkg/providers/mycri.go:337-345 | once a sandbox fails, later sandboxes change nothing |
| Reconcile.FetchSandboxesStep | pkg/providers/mycri.go:334-361 | one more sandbox either adds its record under its metadata UID or ends the refresh with its error |
| Reconcile.FetchSandboxesKeys | pkg/providers/mycri.go:356-360 | on success each entry is the record of a listed sandbox keyed by its metadata UID, and every listed sandbox has an entry |
| Reconcile.Refresh | pkg/providers/mycri.go:326-364 | the refresh starts with the unfiltered listing, sends only queries, and fails only with the wrappers' errors |
| Reconcile.RefreshKeys | pkg/providers/mycri.go:333-362 | a successful refresh yields a map keyed by sandbox metadata UID, exactly the UIDs of the listed sandboxes, with containers keyed by metadata name |
| Reconcile.ContainerStep | pkg/providers/mycri.go:227-242 | one container: the pull comes first and a failed pull stops there; no sandbox is run; the create request names the sandbox id, the sandbox config and the container |
| Reconcile.ContainerLoop | pkg/providers/mycri.go:226-243 | the loop runs no sandbox; every create request uses the given sandbox id and config |
| Reconcile.ContainerLoopStep | pkg/providers/mycri.go:226-243 | containers go in declaration order: a succeeding one extends the log, a failing one ends the loop with its error |
| Reconcile.ContainerLoopErrorSticks | pkg/providers/mycri.go:228-240 | after the first failure no later container is touched |
| Reconcile.ContainerLoopHaltsAtFirstFailure | pkg/providers/mycri.go:226-240 | the result of the loop is the first failing container's error, after the requests of the containers before it |
| Reconcile.ContainerLoopSucceeds | pkg/providers/mycri.go:226-245 | if no pull, config or create fails, the loop returns no error |
| Reconcile.ContainerLoopIgnoresStartFailures | pkg/providers/mycri.go:226-245 | the loop's result is the same whether or not start requests fail |
| Reconcile.ContainerStepIgnoresStartFailures | pkg/providers/mycri.go:242 | one container's result is the same whether or not its start request fails |
| Reconcile.WithoutStartFailures | pkg/providers/mycri.go:242 | the same runtime with every start failure removed |
| Reconcile.SandboxConfigFor | pkg/providers/mycri.go:193-199 | the sandbox config of createPod: the pod's name, UID and namespace with attempt 0, its annotations, and the joined log directory |
| Reconcile.CreateAfterRefresh | pkg/providers/mycri.go:199-246 | a reused pod creates no directory, runs no sandbox and uses the record's metadata UID as sandbox id; a new pod creates the log directory, then the volume directory, and sends RunPodSandbox only when both succeed and before anything else |
| Reconcile.NewPodUsesAssignedSandbox | pkg/providers/mycri.go:218-237 | for a new pod every create request uses the id the runtime assigned to its sandbox |
| Reconcile.CreateIgnoresStartFailures | pkg/providers/mycri.go:226-245 | pod creation is the same whether or not start requests fail, so a start failure is never returned |
| Reconcile.DeleteAfterRefresh | pkg/providers/mycri.go:256-277 | an uncached UID is NotFound with nothing sent, removed or notified; otherwise the volume directory is removed, stop and remove are sent, the result is the remove's, and the pod is notified once |
| Reconcile.WithoutStopFailures | pkg/providers/mycri.go:262-266 | the same runtime with every stop failure removed |
| Reconcile.DeleteIgnoresStopFailures | pkg/providers/mycri.go:262-274 | deletion is the same whether or not the stop request fails |
| EngineLoops.CollectContainerStatuses | pkg/providers/mycri.go:347-354 | the loop computes FetchContainers and logs its requests |
| EngineLoops.FetchSandboxRecord | pkg/providers/mycri.go:335-360 | the body of the sandbox loop computes FetchSandbox and logs its requests |
| EngineLoops.CollectSandboxRecords | pkg/providers/mycri.go:333-361 | the sandbox loop computes FetchSandboxes and logs its requests |
| EngineLoops.FindPodByName | pkg/providers/mycri.go:296-306 | finds a cached record with both the name and the namespace, or none exactly when there is none |
| EngineLoops.CreateContainers | pkg/providers/mycri.go:226-245 | the container loop computes ContainerLoop and logs its requests |
| Providers.Lookup | pkg/providers/provider.go:17 | a Go map lookup: "" for a missing key |
| Providers.IsScriptPod | pkg/providers/provider.go:17-33 | a pod takes the script path iff it has annotations and the "type" annotation is "bash" |
| Providers.CommandsFor | pkg/providers/customize_container.go:42-58 | at most one command per declared container |
| Providers.CommandsForAppend | pkg/providers/customize_container.go:43-59 | the commands follow declaration order: the commands of two runs of containers are the first run's followed by the second's |
| Providers.CommandFor | pkg/providers/customize_container.go:44-58 | a container without a command is skipped; otherwise the program is the command's head and the arguments are its tail followed by the args |
| Providers.CommandsForEachCommandedContainer | pkg/providers/customize_container.go:43-59 | the commands are exactly those of the containers that have one |
| Providers.ContainerCmd.constructor | pkg/providers/customize_container.go:53-57 | a command object for the program, arguments and container name, with no exit code or error recorded |
| Providers.ContainerCmd.Run | pkg/providers/customize_container.go:22-39 | on an exit error the exit code is recorded; on any other error -9999 and the error; on success nothing changes |
| Providers.CreatingStatus | pkg/providers/customize_container.go:80-89 | a new container record has id UID followed by the name, state CREATED, message "Creating", and starts 3 seconds after it is created |
| Providers.RunningStatus | pkg/providers/customize_container.go:94-95 | state RUNNING and message "Running"; setting them back to CREATED and "Creating" gives the Creating record, so nothing else differs |
| Providers.StartedContainers | pkg/providers/customize_container.go:79-96 | no commands leave no containers; after a command its container is in the map as the Running record |
| Providers.StartedContainersKeys | pkg/providers/customize_container.go:79-96 | after the loop the record has one container per command, keyed by container name |
| Providers.SampleSandboxStatus | pkg/providers/customize_container.go:64-73 | the sandbox status has the UID as id, state READY, and the pod's name, namespace and UID |
| Providers.SampleRecord | pkg/providers/customize_container.go:62-75 | the record stored under the UID has the UID as id and the sandbox status above |
| Providers.CreatingSnapshot | pkg/providers/customize_container.go:80-91 | the record as signalled after a container is added: the pod's id and ready sandbox, the started containers plus that one, and that container Creating |
| Providers.CreatingSnapshotShowsStarted | pkg/providers/customize_container.go:80-91 | in that snapshot every other container is one started earlier, and Running |
| Providers.SignalRecords | pkg/providers/customize_container.go:79-96 | two signals per command, each showing the pod's record |
| Providers.SignalRecordsShowEachCommand | pkg/providers/customize_container.go:91-96 | the signals of command i show it Creating and then Running, after the earlier commands |
| Providers.SignalStep | pkg/providers/customize_container.go:80-96 | one turn of the second loop turns the record with the earlier commands into the two signalled records |
| Providers.Finished | pkg/providers/customize_container.go:103-113 | a completed container is EXITED: "Error", stderr and -9999 on failure whatever the real code, "Completed", stdout and 0 on success; nothing else changes |
| Providers.MarkTerminated | pkg/providers/customize_container.go:131-134 | the deleted record's sandbox is NOTREADY and each of its containers EXITED |
| Providers.RenderPod | pkg/providers/mycri.go:165 | one record rendered by the unguarded projector: nothing exactly when it panics |
| Providers.RenderPods | pkg/providers/mycri.go:164-166 | the GetPods loop panics iff some cached record would, and otherwise lists every record rendered |
| Providers.CriProvider.Init | pkg/providers/mycri.go:57-64 | the provider's fields: the fixed roots, node name "mynode", an empty cache |
| Providers.CriProvider.NewCriProvider | pkg/providers/mycri.go:56-76 | a provider only if both roots can be created, the log root first; nothing is created after a failure |
| Providers.CriProvider.RefreshNodeState | pkg/providers/mycri.go:326-364 | the cache becomes the refreshed map only when every request succeeded, else stays; exactly the refresh's requests are logged |
| Providers.CriProvider.CreateRuntimePod | pkg/providers/mycri.go:190-246 | a refresh error is returned before any directory or sandbox request; otherwise the lookup by name decides, and the result, requests and directory operations are CreateAfterRefresh's |
| Providers.CriProvider.DeleteRuntimePod | pkg/providers/mycri.go:248-278 | a refresh error is returned with nothing else done; otherwise the result, requests, directory operations and notification are DeleteAfterRefresh's |
| Providers.CriProvider.GetPod | pkg/providers/mycri.go:280-293 | the refresh's error, NotFound iff no record matches, a nil-dereference panic for a record without network or image records, or the rendered record |
| Providers.CriProvider.GetPodStatus | pkg/providers/mycri.go:308-322 | the refresh's error, NotFound iff no record matches, a panic as for GetPod, or the record's rendered status |
| Providers.CriProvider.GetPods | pkg/providers/mycri.go:156-169 | the refresh's error; a panic iff some cached record panics; otherwise every cached record rendered once |
| Providers.CriProvider.NotifyPodStatuses | pkg/providers/mycri.go:106-117 | on error nobody is notified; otherwise every listed pod is passed to notifyStatus, in order |
| Providers.CriProvider.NotifyEach | pkg/providers/mycri.go:112-114 | each pod is notified once, in order |
| Providers.CriProvider.BuildCommands | pkg/providers/customize_container.go:43-59 | one new command object per container with a command, in order, describing that command |
| Providers.CriProvider.StartCommands | pkg/providers/customize_container.go:79-118 | after the loop the record holds every command Running, two signals per command were sent, and one job per command is pending |
| Providers.CriProvider.StartCommand | pkg/providers/customize_container.go:80-98 | one command: record Creating, signal, Running, signal, its job pending |
| Providers.CriProvider.CreateSamplePod | pkg/providers/customize_container.go:41-123 | the script partition holds the pod's ready record with every command Running; one signal for the empty record, then two per command; notifyStatus called once; result nil |
| Providers.CriProvider.CompleteScriptJob | pkg/providers/customize_container.go:99-115 | a finished command's container becomes Finished and one signal is sent; the job is no longer pending; a record deleted meanwhile makes the unrecovered panic end the whole process; the command object's exit code and error are left as `Run` writes them |
| Providers.CriProvider.DeleteSamplePod | pkg/providers/customize_container.go:125-138 | an unknown UID is NotFound and changes nothing; otherwise the record is marked terminated and removed, notifyStatus is called once, result nil |
| Providers.CriProvider.CreatePod | pkg/providers/provider.go:13-22 | a script pod takes the script path and touches neither runtime nor disk; any other takes createPod and leaves the script partition, signals and jobs alone |
| Providers.CriProvider.DeletePod | pkg/providers/provider.go:31-37 | the same routing for deletion |
| Providers.CriProvider.UpdatePod | pkg/providers/provider.go:25-28 | always nil |
| Providers.CriProvider.GetContainerLogs | pkg/providers/provider.go:60-63 | no logs and no error |
| Providers.CriProvider.RunInContainer | pkg/providers/provider.go:66-68 | always nil |
| Providers.CriProvider.ConfigureNode | pkg/providers/provider.go:71-77 | the node's capacity, conditions, addresses, kubelet endpoint and operating system are set from the options, and nothing else in the node changes |
| PodEngine.ProjectionKeepsIdentity | pkg/pod/pod.go:114 | a pod rendered by getPod names the record's sandbox and the node, with one container and status per cached container, Running iff the sandbox is READY |
| PodEngine.Provider.constructor | pkg/pod/pod.go:15-16 | the log and volume roots and the node name that the pod package reads; the pod package's `Provider` struct is not part of this model, so the empty starting cache and notification log are this model's choice |
| PodEngine.Provider.RefreshNodeState | pkg/pod/pod.go:17 | all or nothing, as in mycri.go |
| PodEngine.Provider.CreatePod | pkg/pod/pod.go:12-68 | a refresh error is returned before any directory or runtime request; otherwise the lookup by name decides, the directories precede RunPodSandbox, a found pod reuses its metadata UID, and the result is CreateAfterRefresh's |
| PodEngine.Provider.DeletePod | pkg/pod/pod.go:70-100 | NotFound for an uncached UID; otherwise stop and volume-removal failures are ignored, the result is the remove's, the pod is notified once |
| PodEngine.Provider.GetPod | pkg/pod/pod.go:102-115 | the refresh's error, NotFound iff no record matches, otherwise the matching record rendered for this node |
| PodEngine.Provider.FindPodByName | pkg/pod/pod.go:117-128 | a record with both the name and the namespace, or none exactly when there is none |
| PodEngine.Provider.GetPodStatus | pkg/pod/pod.go:130-144 | the refresh's error, NotFound iff no record matches, otherwise the matching record's status |
| NodeConfig.NodeDaemonEndpoints | pkg/providers/node_config.go:13-19 | the kubelet port is the `int32` conversion of the given port, equal to it when it fits |
| NodeConfig.NodeAddresses | pkg/providers/node_config.go:22-29 | exactly one InternalIP entry holding the given address |
| NodeConfig.NodeConditions | pkg/providers/node_config.go:32-77 | Ready, OutOfDisk, MemoryPressure, DiskPressure, NetworkUnavailable in that order; only Ready is True; none Unknown; all stamped now |
| NodeConfig.ConditionTypesDistinct | pkg/providers/node_config.go:32-77 | no condition type is listed twice |
| NodeConfig.NodeCapacity | pkg/providers/node_config.go:80-96 | keys cpu, memory and pods; an empty CPU becomes the decimal CPU count, an empty memory the decimal 536870912000, an empty pod count "200"; other values are passed on as the text given to `resource.MustParse` (its panic on malformed text is not modelled) |
| NodeConfigOld.OldNodeDaemonEndpoints | pkg/providers/nodeconfig.go:12-18 | the kubelet port is the argument |
| NodeConfigOld.OldNodeAddresses | pkg/providers/nodeconfig.go:22-29 | exactly one InternalIP entry holding the configured IP |
| NodeConfigOld.OldNodeConditions | pkg/providers/nodeconfig.go:33-78 | the same five condition types in the same order; only Ready is True |
| NodeConfigOld.ConditionsDifferOnlyInMessages | pkg/providers/nodeconfig.go:33-78 | the older and newer condition lists differ only in their messages |
| NodeConfigOld.OldNodeCapacity | pkg/providers/nodeconfig.go:81-91 | exactly cpu = the CPU count, memory = 536870912000 and pods = "200" |
| NodeConfigOld.CapacityVersionsAgreeOnDefaults | pkg/providers/nodeconfig.go:81-91 | with nothing configured, the newer capacity states the same amounts as the older |
| TemData.RunningStatusFor | pkg/providers/temdata.go:38-46 | the appended status has the container's name and image, no image or container id, is ready, and Running since `now` |
| TemData.RunningStatuses | pkg/providers/temdata.go:36-48 | one Running, ready status per declared container, in container order |
| TemData.WithRunningPhase | pkg/providers/temdata.go:34-49 | a pod becomes Running; with fewer statuses than containers it gets one status appended per container (all of them), otherwise its statuses are kept; nothing else changes |
| TemData.WithRunningStatus | pkg/providers/temdata.go:33-52 | the status pass keeps the number and order of pods and updates each |
| TemData.StatusPassIdempotent | pkg/providers/temdata.go:33-52 | a second status pass changes nothing |
| TemData.TempPods.constructor | pkg/providers/temdata.go:26-28 | the list starts empty |
| TemData.TempPods.CreatePod | pkg/providers/temdata.go:17-21 | the pod is appended iff it is scheduled to this node, earlier entries kept |
| TemData.TempPods.SetPodsStatus | pkg/providers/temdata.go:31-53 | the list becomes the status pass of the old list |

## Left out

- The timer loop `statusLoop` and `NotifyPods` (pkg/providers/mycri.go:80-104). Their point is concurrency. One round is `NotifyPodStatuses`, and `notifyStatus` calls are recorded in `notified`.
- The goroutine of each script command and the unbuffered `notifyC` rendezvous (pkg/providers/customize_container.go:77, 91, 96, 99-115):
  - A command's completion is the separate sequential step `CompleteScriptJob`, which may run at any later point.
  - Completions are modelled only after `createSamplePod` has returned. In Go a fast command can mark its container EXITED while the loop at pkg/providers/customize_container.go:79-118 is still running. So `CreateSamplePod`'s "every command Running" holds only under this serialization.
  - Each send is a snapshot appended to `signalled`.
  - Interleavings of several completions with each other are the caller's choice of job order.
- Process execution by `exec.Cmd` (pkg/providers/customize_container.go:22-38) is an abstract `ProcessOutcome`: stdout, stderr, and no error, an exit error with its code, or another error.
- `os.MkdirAll` and `os.RemoveAll` are the `Disk` oracle: a fixed set of failing operations and a log. The permission bits are not modelled.
- gRPC setup and the client facades (pkg/common/init.go, pkg/providers/remote_client.go, pkg/remote/remote_client.go) are transport plumbing. The runtime is the fixed `RuntimeView` of its answers. Contexts are dropped.
- The YAML-template creators (pkg/helper/file.go, pkg/providers/container.go, pkg/providers/sandbox.go), main.go and test/test_containerd_client.go are file I/O, bootstrap and a client test outside the core.
- Logging (`klog`, `log.G`) has no effect on the state and is left out.
- `time.Now()` is the parameter `now`. Each call of createSamplePod reads one instant, so "3 seconds later" is `now + 3`. The real clock may advance between the reads. Likewise `setPodsStatus` (pkg/providers/temdata.go:44) reads `time.Now()` once per appended status, while `TemData.TempPods.SetPodsStatus` stamps every status of one pass with the same `now`.
- `runtime.NumCPU()` is the parameter `numCpu`. `common.MyIP` and `common.NodeName` are parameters.
- mycri.go's `CreatePod`, `UpdatePod`, `DeletePod`, `GetPod`, `GetPodStatus`, `GetContainerLogs`, `RunInContainer` and `ConfigureNode` (pkg/providers/mycri.go:120-188) are not modelled separately. They redeclare the methods of pkg/providers/provider.go, which the class follows; the Go package cannot hold both. The mycri.go `CreatePod` and `DeletePod` skip the annotation routing.
- The pod package's helpers and its `Provider` struct are not part of this model. `PodEngine.Provider` uses the mycri.go refresh, the pkg/remote wrappers and the guarded projector of pkg/providers/util.go in their place.
- The attempt counter is always 0, as in the source. The commented-out parts of the config builders (labels, DNS, mounts, environment) are absent from the source and from the model.
- NodeConfig.NodeCapacity: the quantities are the texts handed to `resource.MustParse` (pkg/providers/node_config.go:92-94). A non-empty text that is not a quantity, such as "four", makes `MustParse` panic and `ConfigureNode` crash; the model keeps `Parsed("four")` instead. Parsing quantities is outside the model.
- Common.JoinPath: of `filepath.Clean`, only the dropping of empty elements and of trailing separators of the root is modelled. `.` and `..` elements and repeated separators inside the root or the UID are kept as given.
- TemData.TempPods.CreatePod and TemData.TempPods.SetPodsStatus: the Go list holds `*v1.Pod` pointers (pkg/providers/temdata.go:13). `createPod` appends the caller's pointer, and `setPodsStatus` writes the phase and container statuses through it, so the caller's own pod object changes too. The class holds pod values, so that aliasing is not captured; only the list's new contents are.
- Nil dereferences besides the network and image records are not modelled. The sandbox and container `Metadata` is read without a check (pkg/providers/mycri.go:223, 300, 353 and 356; pkg/pod/pod.go:45 and 122; pkg/providers/util.go:22-25 and 46); here metadata is a plain field that is always present. `c.notifyStatus` is nil until `NotifyPods` sets it (pkg/providers/mycri.go:82), so a deletePod, createSamplePod or deleteSamplePod before that panics (pkg/providers/mycri.go:276; pkg/providers/customize_container.go:120 and 136); here `notified` always grows.
- The Go map iteration order is not modelled as any particular order. Every property holds for every enumeration of the keys.
