/** The sandbox half of the runtime client (pkg/remote/sandbox.go): the
    sandbox-creation request built from a pod, and the sandbox calls, each a
    guard on an empty id followed by one request. */
module RemoteSandbox {
  import opened Common
  import opened Cri
  import Kube

  /** The sandbox request for a pod. It never fails. */
  function GeneratePodSandboxConfig(pod: Kube.Pod, logDir: string, attempt: Uint32): (r: (PodSandboxConfig, Option<Error>))
    ensures r.1 == None
    ensures r.0.metadata.name == pod.meta.name
    ensures r.0.metadata.namespace == pod.meta.namespace
    ensures r.0.metadata.uid == pod.meta.uid
    ensures r.0.metadata.attempt == attempt
    ensures r.0.annotations == pod.meta.annotations
    ensures r.0.logDirectory == logDir
  {
    var config := PodSandboxConfig(
      PodSandboxMetadata(pod.meta.name, pod.meta.uid, pod.meta.namespace, attempt),
      pod.meta.annotations,
      logDir);
    (config, None)
  }

  /** RunPodSandbox: the runtime-assigned id, or "" and the error. */
  function RunPodSandbox(view: RuntimeView, config: PodSandboxConfig): (r: Reply<string>)
    ensures r.calls == [RunPodSandboxCall(config)]
    ensures r.err.None? <==> RunPodSandboxCall(config) !in view.failing
    ensures r.err.Some? ==> r.err == Some(RuntimeFailure) && r.value == ""
    ensures r.err.None? ==> r.value == view.AssignedId(RunPodSandboxCall(config))
  {
    var call := RunPodSandboxCall(config);
    if call in view.failing then Reply("", Some(RuntimeFailure), [call])
    else Reply(view.AssignedId(call), None, [call])
  }

  function StopPodSandbox(view: RuntimeView, id: string): (r: Reply<()>)
    ensures id == "" ==> r.err == Some(InvalidInput) && r.calls == []
    ensures id != "" ==> r.calls == [StopPodSandboxCall(id)]
    ensures id != "" ==> (r.err.Some? <==> StopPodSandboxCall(id) in view.failing)
    ensures r.err.Some? ==> r.err == Some(InvalidInput) || r.err == Some(RuntimeFailure)
  {
    if id == "" then Reply((), Some(InvalidInput), [])
    else
      var call := StopPodSandboxCall(id);
      Reply((), if call in view.failing then Some(RuntimeFailure) else None, [call])
  }

  function RemovePodSandbox(view: RuntimeView, id: string): (r: Reply<()>)
    ensures id == "" ==> r.err == Some(InvalidInput) && r.calls == []
    ensures id != "" ==> r.calls == [RemovePodSandboxCall(id)]
    ensures id != "" ==> (r.err.Some? <==> RemovePodSandboxCall(id) in view.failing)
    ensures r.err.Some? ==> r.err == Some(InvalidInput) || r.err == Some(RuntimeFailure)
  {
    if id == "" then Reply((), Some(InvalidInput), [])
    else
      var call := RemovePodSandboxCall(id);
      Reply((), if call in view.failing then Some(RuntimeFailure) else None, [call])
  }

  const EmptySandboxFilter := PodSandboxFilter("", None)

  /** GetPodSandboxes sends an empty filter, so on success it answers with
      every sandbox the runtime lists, in the runtime's order. */
  function GetPodSandboxes(view: RuntimeView): (r: Reply<seq<PodSandbox>>)
    ensures r.calls == [ListPodSandboxCall(EmptySandboxFilter)]
    ensures r.err.None? <==> ListPodSandboxCall(EmptySandboxFilter) !in view.failing
    ensures r.err.Some? ==> r.err == Some(RuntimeFailure) && r.value == []
    ensures r.err.None? ==> r.value == view.sandboxes
  {
    var call := ListPodSandboxCall(EmptySandboxFilter);
    if call in view.failing then Reply([], Some(RuntimeFailure), [call])
    else
      EmptySandboxFilterKeepsAll(view.sandboxes);
      Reply(FilterSandboxes(view.sandboxes, EmptySandboxFilter), None, [call])
  }

  /** GetPodSandboxStatus: the status, or no status and an error; an empty
      id is refused without a request. */
  function GetPodSandboxStatus(view: RuntimeView, psId: string): (r: Reply<Option<PodSandboxStatus>>)
    ensures psId == "" ==> r.err == Some(InvalidInput) && r.value.None? && r.calls == []
    ensures psId != "" ==> r.calls == [PodSandboxStatusCall(psId, false)]
    ensures r.err.None? <==> r.value.Some?
    ensures r.err.None? <==> psId != "" && PodSandboxStatusCall(psId, false) !in view.failing && psId in view.sandboxStatus
    ensures r.value.Some? ==> r.value.value == view.sandboxStatus[psId]
  {
    if psId == "" then Reply(None, Some(InvalidInput), [])
    else
      var call := PodSandboxStatusCall(psId, false);
      if call in view.failing || psId !in view.sandboxStatus then Reply(None, Some(RuntimeFailure), [call])
      else Reply(Some(view.sandboxStatus[psId]), None, [call])
  }
}
